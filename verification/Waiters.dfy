/**
  The FIFO lists of parked futures.

  The functions say what each operation does to a list; the class is the list with its counter,
  as the operations change them under the lock.
*/
module Waiters {
  import opened Basics

  /** A parked future: the number of its registration and the task its waker wakes. */
  datatype Entry = Entry(id: Id, who: Tid)

  function Ids(list: seq<Entry>): set<Id> {
    set i | 0 <= i < |list| :: list[i].id
  }

  function Wakers(list: seq<Entry>): (ws: seq<Tid>)
    ensures |ws| == |list| && forall i :: 0 <= i < |list| ==> ws[i] == list[i].who
  {
    seq(|list|, i requires 0 <= i < |list| => list[i].who)
  }

  ghost predicate DistinctIds(list: seq<Entry>) {
    forall i, j :: 0 <= i < j < |list| ==> list[i].id != list[j].id
  }

  /** Where registration `id` is in the list; its length when it is not there. */
  function IndexOf(list: seq<Entry>, id: Id): (i: nat)
    ensures i <= |list| && (i < |list| ==> list[i].id == id)
    ensures forall j :: 0 <= j < i ==> list[j].id != id
    ensures i < |list| <==> id in Ids(list)
  {
    if |list| == 0 then 0
    else if list[0].id == id then 0
    else
      var i := IndexOf(list[1..], id);
      assert i < |list| - 1 ==> list[1 + i].id == id;
      assert forall j :: 0 < j < 1 + i ==> list[j] == list[1..][j - 1];
      1 + i
  }

  /** The list without registration `id`. */
  function Without(list: seq<Entry>, id: Id): seq<Entry> {
    var i := IndexOf(list, id);
    if i < |list| then list[..i] + list[i + 1..] else list
  }

  /** The longest waiting `n` entries, or all of them when there are fewer. */
  function First(list: seq<Entry>, n: nat): seq<Entry> {
    list[..if n <= |list| then n else |list|]
  }

  function Rest(list: seq<Entry>, n: nat): seq<Entry> {
    list[if n <= |list| then n else |list|..]
  }

  lemma WithoutIds(list: seq<Entry>, id: Id)
    requires DistinctIds(list)
    ensures DistinctIds(Without(list, id)) && Ids(Without(list, id)) == Ids(list) - {id}
    ensures |Without(list, id)| == |list| - (if id in Ids(list) then 1 else 0)
  {
    var i, out := IndexOf(list, id), Without(list, id);
    if i < |list| {
      assert forall j :: 0 <= j < |out| ==> out[j] == if j < i then list[j] else list[j + 1];
      forall x | x in Ids(list) && x != id ensures x in Ids(out) {
        var j :| 0 <= j < |list| && list[j].id == x;
        assert out[if j < i then j else j - 1].id == x;
      }
    }
  }

  /** `x` has been waiting longer than `y`. */
  ghost predicate Precedes(list: seq<Entry>, x: Entry, y: Entry) {
    exists i, j :: 0 <= i < j < |list| && list[i] == x && list[j] == y
  }

  /** One registration has left: the others are all there, in the order they stood in before. */
  ghost predicate Survive(list: seq<Entry>, list': seq<Entry>, id: Id) {
    && (forall x :: x in list' <==> x in list && x.id != id)
    && (forall x, y :: Precedes(list', x, y) <==> Precedes(list, x, y) && x.id != id && y.id != id)
  }

  /** Where what stands at `j` once registration `i` has left stood before. */
  function Shifted(i: nat, j: nat): nat {
    if j < i then j else j + 1
  }

  lemma WithoutAt(list: seq<Entry>, id: Id)
    ensures var i, out := IndexOf(list, id), Without(list, id);
      i < |list| ==> |out| == |list| - 1 && forall j :: 0 <= j < |out| ==> out[j] == list[Shifted(i, j)]
  {
  }

  lemma StoodBefore(list: seq<Entry>, id: Id, x: Entry, y: Entry)
    requires DistinctIds(list) && id in Ids(list) && Precedes(Without(list, id), x, y)
    ensures Precedes(list, x, y) && x.id != id && y.id != id
  {
    hide Without, Ids;
    var i, out := IndexOf(list, id), Without(list, id);
    WithoutAt(list, id);
    var j, k :| 0 <= j < k < |out| && out[j] == x && out[k] == y;
    assert list[Shifted(i, j)] == x && list[Shifted(i, k)] == y;
  }

  lemma StandsStill(list: seq<Entry>, id: Id, x: Entry, y: Entry)
    requires id in Ids(list) && Precedes(list, x, y) && x.id != id && y.id != id
    ensures Precedes(Without(list, id), x, y)
  {
    hide Without, Ids;
    var i, out := IndexOf(list, id), Without(list, id);
    WithoutAt(list, id);
    var j, k :| 0 <= j < k < |list| && list[j] == x && list[k] == y;
    var j', k' := if j < i then j else j - 1, if k < i then k else k - 1;
    assert Shifted(i, j') == j && Shifted(i, k') == k;
    assert out[j'] == x && out[k'] == y;
  }

  lemma WithoutMember(list: seq<Entry>, id: Id, x: Entry)
    requires DistinctIds(list) && id in Ids(list)
    ensures x in Without(list, id) <==> x in list && x.id != id
  {
    hide Without, Ids;
    var i, out := IndexOf(list, id), Without(list, id);
    WithoutAt(list, id);
    if x in out {
      var j :| 0 <= j < |out| && out[j] == x;
      assert list[Shifted(i, j)] == x && list[i].id != x.id;
    }
    if x in list && x.id != id {
      var j :| 0 <= j < |list| && list[j] == x;
      assert Shifted(i, if j < i then j else j - 1) == j;
    }
  }

  lemma WithoutOrder(list: seq<Entry>, id: Id)
    requires DistinctIds(list) && id in Ids(list)
    ensures Survive(list, Without(list, id), id)
  {
    hide Without, Ids, Precedes, DistinctIds;
    forall x ensures x in Without(list, id) <==> x in list && x.id != id { WithoutMember(list, id, x); }
    forall x, y
      ensures Precedes(Without(list, id), x, y) <==> Precedes(list, x, y) && x.id != id && y.id != id
    {
      if Precedes(Without(list, id), x, y) { StoodBefore(list, id, x, y); }
      if Precedes(list, x, y) && x.id != id && y.id != id { StandsStill(list, id, x, y); }
    }
  }

  lemma RestIds(list: seq<Entry>, n: nat)
    requires DistinctIds(list)
    ensures DistinctIds(Rest(list, n)) && DistinctIds(First(list, n))
    ensures Ids(Rest(list, n)) == Ids(list) - Ids(First(list, n)) && Ids(First(list, n)) <= Ids(list)
  {
    var m := if n <= |list| then n else |list|;
    forall j | 0 <= j < m ensures list[j].id in Ids(First(list, n)) {
      assert First(list, n)[j].id == list[j].id;
    }
    forall x | x in Ids(list) && x !in Ids(First(list, n)) ensures x in Ids(Rest(list, n)) {
      var j :| 0 <= j < |list| && list[j].id == x;
      assert Rest(list, n)[j - m].id == x;
    }
    forall x | x in Ids(Rest(list, n)) ensures x in Ids(list) && x !in Ids(First(list, n)) {
      var j :| 0 <= j < |Rest(list, n)| && Rest(list, n)[j].id == x;
      assert list[m + j].id == x;
    }
  }

  // ---- The list and its counter -----------------------------------------------------------------

  class WaiterList {
    var list: seq<Entry>
    var count: nat

    /** What holds whenever the lock is free. */
    ghost predicate Valid()
      reads this
    {
      count == |list| && DistinctIds(list)
    }

    constructor ()
      ensures Valid() && list == []
    {
      list, count := [], 0;
    }

    /** Registers `who` under a new number, or refreshes the waker of a registration that is
        still in the list. */
    method Register(id: Option<Id>, next: Id, who: Tid) returns (my: Id)
      requires Valid() && forall i :: 0 <= i < |list| ==> list[i].id < next
      requires id.Some? ==> id.value < next
      modifies this
      ensures Valid() && my == (if id.Some? then id.value else next) && my in Ids(list)
      ensures my in old(Ids(list)) ==>
        list == old(list)[old(IndexOf(list, my)) := Entry(my, who)]
      ensures my !in old(Ids(list)) ==> list == old(list) + [Entry(my, who)]
    {
      if id.Some? {
        my := id.value;
        var i := Find(my);
        if i < |list| {
          list := list[i := Entry(my, who)];
          assert list[i].id == my;
          return;
        }
      } else {
        my := next;
      }
      list := list + [Entry(my, who)];
      count := count + 1;
      assert list[|list| - 1].id == my;
    }

    /** The scan for a registration. */
    method Find(id: Id) returns (i: nat)
      ensures i == IndexOf(list, id)
    {
      i := 0;
      while i < |list| && list[i].id != id
        invariant i <= |list| && forall j :: 0 <= j < i ==> list[j].id != id
      {
        i := i + 1;
      }
    }

    /** Takes registration `id` out.  A registration that is gone was notified: the notification
        is passed on when `forward` is set.  Returns the tasks to wake. */
    method Unregister(id: Id, forward: bool) returns (wakers: seq<Tid>)
      requires Valid()
      modifies this
      ensures Valid()
      ensures id in old(Ids(list)) ==> list == Without(old(list), id) && wakers == []
      ensures id in old(Ids(list)) ==> Survive(old(list), list, id)
      ensures id !in old(Ids(list)) && !forward ==> list == old(list) && wakers == []
      ensures id !in old(Ids(list)) && forward ==>
        list == Rest(old(list), 1) && wakers == Wakers(First(old(list), 1))
    {
      wakers := [];
      if !forward && count == 0 {
        return;
      }
      WithoutIds(list, id);
      if id in Ids(list) { WithoutOrder(list, id); }
      var i := Find(id);
      if i < |list| {
        list := list[..i] + list[i + 1..];
        count := count - 1;
      } else if forward {
        wakers := NotifyOne();
      }
    }

    method NotifyOne() returns (wakers: seq<Tid>)
      requires Valid()
      modifies this
      ensures Valid() && list == Rest(old(list), 1) && wakers == Wakers(First(old(list), 1))
      ensures |old(list)| > 0 ==> list == old(list)[1..] && wakers == [old(list)[0].who]
    {
      if |list| > 0 {
        wakers := [list[0].who];
        list := list[1..];
        count := count - 1;
      } else {
        wakers := [];
      }
    }

    method NotifyAll() returns (wakers: seq<Tid>)
      requires Valid()
      modifies this
      ensures Valid() && list == [] && wakers == Wakers(old(list))
    {
      count := 0;
      wakers := Wakers(list);
      list := [];
    }

    method NotifyMany(limit: nat) returns (wakers: seq<Tid>)
      requires Valid()
      modifies this
      ensures Valid() && list == Rest(old(list), limit) && wakers == Wakers(First(old(list), limit))
      ensures limit <= |old(list)| ==> list == old(list)[limit..] && wakers == Wakers(old(list)[..limit])
    {
      if limit == 1 {
        wakers := NotifyOne();
        return;
      }
      var n := if limit <= |list| then limit else |list|;
      wakers := [];
      for i := 0 to n
        invariant wakers == Wakers(old(list)[..i]) && list == old(list)[i..] && count == old(count)
      {
        wakers := wakers + [list[0].who];
        list := list[1..];
      }
      count := count - n;
    }
  }

  /** Waking `n` at once and waking one, `n` times over, wake the same tasks in the same order and
      leave the same list. */
  function OneByOne(list: seq<Entry>, n: nat): (seq<Entry>, seq<Tid>) {
    if n == 0 then (list, [])
    else
      var (rest, wakers) := OneByOne(Rest(list, 1), n - 1);
      (rest, Wakers(First(list, 1)) + wakers)
  }

  lemma {:induction false} ManyIsOneByOne(list: seq<Entry>, n: nat)
    ensures OneByOne(list, n) == (Rest(list, n), Wakers(First(list, n)))
    decreases n
  {
    if n > 0 {
      ManyIsOneByOne(Rest(list, 1), n - 1);
      if |list| > 0 {
        assert First(list, n) == First(list, 1) + First(Rest(list, 1), n - 1);
        assert Wakers(First(list, n)) == Wakers(First(list, 1)) + Wakers(First(Rest(list, 1), n - 1));
      }
    }
  }

  // ---- Cancellation -----------------------------------------------------------------------------

  /** A list, and the pending futures whose entry a notification has already taken. */
  datatype Waiting = Waiting(list: seq<Entry>, notified: set<Id>)

  /** A pending future is dropped: its entry leaves, or its notification goes to the next. */
  function Cancel(w: Waiting, id: Id): Waiting {
    if id in Ids(w.list) then w.(list := Without(w.list, id))
    else if id in w.notified then
      if |w.list| > 0 then Waiting(Rest(w.list, 1), w.notified - {id} + {w.list[0].id})
      else w.(notified := w.notified - {id})
    else w
  }

  function CancelAll(w: Waiting, ids: seq<Id>): Waiting
    decreases |ids|
  {
    if |ids| == 0 then w else Cancel(CancelAll(w, ids[..|ids| - 1]), ids[|ids| - 1])
  }

  ghost predicate Sound(w: Waiting) {
    DistinctIds(w.list) && Ids(w.list) !! w.notified
  }

  /** One cancellation loses a wake-up only if nobody is left to take it. */
  lemma CancelConserves(w: Waiting, id: Id)
    requires Sound(w)
    ensures Sound(Cancel(w, id)) && |Cancel(w, id).list| <= |w.list|
    ensures |Cancel(w, id).notified| < |w.notified| ==> |w.list| == 0
    ensures |Cancel(w, id).notified| <= |w.notified|
  {
    WithoutIds(w.list, id);
    RestIds(w.list, 1);
    if id !in Ids(w.list) && id in w.notified && |w.list| > 0 {
      var x := w.list[0].id;
      assert x in Ids(w.list);
      assert First(w.list, 1)[0].id == x;
      assert |w.notified - {id} + {x}| == |w.notified - {id}| + 1;
    }
  }

  /** Along any chain of cancellations, while anyone is still waiting every wake-up is still held
      by some pending future. */
  lemma {:induction false} ChainConserves(w: Waiting, ids: seq<Id>)
    requires Sound(w)
    ensures Sound(CancelAll(w, ids))
    ensures |CancelAll(w, ids).list| > 0 ==> |CancelAll(w, ids).notified| == |w.notified|
    decreases |ids|
  {
    if |ids| > 0 {
      ChainConserves(w, ids[..|ids| - 1]);
      CancelConserves(CancelAll(w, ids[..|ids| - 1]), ids[|ids| - 1]);
    }
  }
}
