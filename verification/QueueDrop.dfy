/**
  Destroying a queue no operation is running on: the values left in it are dropped in order,
  each once, and every block ever allocated is released once.
*/
module QueueDrop {
  import opened Basics
  import opened Positions
  import opened QueueModel
  import opened QueueInvariant
  import opened QueueRely
  import opened QueueTheorems
  import opened QueueOwnership

  predicate Quiescent(s: State) {
    forall t :: 0 <= t < |s.pcs| ==> s.pcs[t].Idle?
  }

  function Values(log: seq<Claimed>): (vs: seq<Value>)
    ensures |vs| == |log| && forall i :: 0 <= i < |vs| ==> vs[i] == log[i].v
  {
    seq(|log|, i requires 0 <= i < |log| => log[i].v)
  }

  predicate Distinct(xs: seq<Id>) {
    forall i, j :: 0 <= i < j < |xs| ==> xs[i] != xs[j]
  }

  /** The blocks in the order they are released. */
  function Releases(s: State): seq<Id>
    requires s.headLap <= |s.serves|
  {
    s.serves[s.headLap..] + (if s.spare.Some? then [s.spare.value] else []) + s.ready + s.retired
  }

  method DropQueue(c: Config, s: State, ghost run: seq<State>, ghost acts: seq<Act>)
      returns (dropped: seq<Value>, released: seq<Id>)
    requires IsRun(c, run, acts) && s == run[|run| - 1] && Quiescent(s)
    ensures Rank(c.cap, s.head) <= |s.log| && dropped == Values(s.log[Rank(c.cap, s.head)..])
    ensures Distinct(released) && forall b: Id :: b in released <==> b < s.blocks
  {
    hide *;
    RestState(c, s, run, acts);
    dropped := DropValues(c, s);
    released := ReleaseBlocks(c, s);
    ReleasesAll(c, s);
  }

  /** What a state with no operation in flight looks like. */
  ghost predicate AtRest(c: Config, s: State) {
    && s.head.off < c.cap && s.headLap == s.head.lap < |s.serves| && s.headBlock == s.serves[s.headLap]
    && s.tail.off <= c.cap && |s.log| == Rank(c.cap, s.tail)
    && (AtMost(s.head, s.tail) || (s.tail.off == c.cap && s.head == Pos(s.tail.lap + 1, 0)))
    && (forall k :: s.headLap <= k < |s.serves| ==>
          (s.serves[k] in s.nextOf <==> k + 1 < |s.serves|)
          && (s.serves[k] in s.nextOf ==> s.nextOf[s.serves[k]] == s.serves[k + 1]))
    && (forall k :: s.headLap <= k && Before(Pos(k, c.cap), s.tail) ==> k + 1 < |s.serves|)
    && (forall p: Pos :: p.off < c.cap && AtMost(s.head, p) && Before(p, s.tail) ==> HoldsPushed(c, s, p))
  }

  /** The slot of `p` carries its lap's tag and the value pushed there. */
  ghost predicate HoldsPushed(c: Config, s: State, p: Pos) {
    && p.lap < |s.serves| && Rank(c.cap, p) < |s.log|
    && var x := Slot(s.serves[p.lap], p.off);
       x in s.tag && s.tag[x] == p.lap && x in s.value && s.value[x] == s.log[Rank(c.cap, p)].v
  }

  lemma RestState(c: Config, s: State, run: seq<State>, acts: seq<Act>)
    requires IsRun(c, run, acts) && s == run[|run| - 1] && Quiescent(s)
    ensures Inv(c, s) && HandsOk(s.place, s.pcs) && AtRest(c, s)
  {
    hide Inv, Step, HandsOk, AtRest;
    RunInv(c, run, acts, |run| - 1);
    RunHands(c, run, acts, |run| - 1);
    InvAtRest(c, s);
  }

  lemma InvAtRest(c: Config, s: State)
    requires Inv(c, s) && Quiescent(s)
    ensures AtRest(c, s)
  {
    hide SharedOk, ThreadsOk, Rank;
    NothingInFlight(c, s);
    RestIndices(c, s);
    RestLinks(c, s);
    forall p: Pos | p.off < c.cap && AtMost(s.head, p) && Before(p, s.tail) ensures HoldsPushed(c, s, p) {
      RestContent(c, s, p);
    }
  }

  lemma NothingInFlight(c: Config, s: State)
    requires Inv(c, s) && Quiescent(s)
    ensures s.writer == map[] && s.reader == map[] && s.moving.None?
  {
    hide MemoryOk, GotOk, ThreadsOk;
  }

  lemma RestIndices(c: Config, s: State)
    requires SharedOk(c, s) && s.moving.None?
    ensures s.head.off < c.cap && s.headLap == s.head.lap < |s.serves| && s.headBlock == s.serves[s.headLap]
    ensures s.tail.off <= c.cap && |s.log| == Rank(c.cap, s.tail)
    ensures AtMost(s.head, s.tail) || (s.tail.off == c.cap && s.head == Pos(s.tail.lap + 1, 0))
  {
    hide StartOk, LinksOk, MarksOk, TagsOk, ContentOk, PoolOk, OrderOk, WritersOk, ReadersOk, GotOk, Rank;
  }

  lemma RestLinks(c: Config, s: State)
    requires SharedOk(c, s) && s.writer == map[]
    ensures forall k :: s.headLap <= k < |s.serves| ==>
      (s.serves[k] in s.nextOf <==> k + 1 < |s.serves|)
      && (s.serves[k] in s.nextOf ==> s.nextOf[s.serves[k]] == s.serves[k + 1])
    ensures forall k :: s.headLap <= k && Before(Pos(k, c.cap), s.tail) ==> k + 1 < |s.serves|
  {
    hide HeadTailOk, CountsOk, LiveOk, StartOk, MarksOk, TagsOk, PoolOk, OrderOk, DutyOk, Rank;
    forall k | s.headLap <= k && (k + 1 < |s.serves| || Before(Pos(k, c.cap), s.tail))
      ensures k < |s.serves| ==> s.serves[k] in s.nextOf
      ensures k + 1 < |s.serves|
    {
      NextThere(c, s, k);
    }
  }

  /** Every block but the newest has had its last value published, so its next block is there. */
  lemma NextThere(c: Config, s: State, k: nat)
    requires SharedOk(c, s) && s.writer == map[] && s.headLap <= k
    requires k + 1 < |s.serves| || Before(Pos(k, c.cap), s.tail)
    ensures k + 1 < |s.serves| && s.serves[k] in s.nextOf
  {
    hide HeadTailOk, CountsOk, LiveOk, StartOk, MarksOk, TagsOk, PoolOk, OrderOk, DutyOk, Rank;
    var p := Pos(k, c.cap - 1);
    assert Published(c, s.tail, s.writer, p);
    assert p.lap < |s.serves|;
    assert s.serves[k] in s.nextOf;
  }

  lemma RestContent(c: Config, s: State, p: Pos)
    requires SharedOk(c, s) && s.writer == map[] && p.off < c.cap && AtMost(s.head, p) && Before(p, s.tail)
    ensures HoldsPushed(c, s, p)
  {
    hide HeadTailOk, CountsOk, LiveOk, StartOk, LinksOk, MarksOk, TagsOk, PoolOk, OrderOk, DutyOk, Rank;
    assert Unread(c, s.head, s.tail, s.writer, s.reader, p);
  }

  /** Walks the head to the tail and drops every value whose slot was written for its lap. */
  method DropValues(c: Config, s: State) returns (dropped: seq<Value>)
    requires AtRest(c, s)
    ensures Rank(c.cap, s.head) <= |s.log| && dropped == Values(s.log[Rank(c.cap, s.head)..])
  {
    hide Rank, HoldsPushed;
    var head, block := s.head, Some(s.headBlock);
    dropped := [];
    RestRanks(c, s, head);
    while Before(head, s.tail) && block.Some?
      invariant head.off <= c.cap && AtMost(s.head, head) && (AtMost(head, s.tail) || head == s.head)
      invariant head.lap < |s.serves| && block == Some(s.serves[head.lap])
      invariant Rank(c.cap, s.head) <= Rank(c.cap, head) <= |s.log|
      invariant dropped == Values(s.log[Rank(c.cap, s.head)..Rank(c.cap, head)])
      decreases s.tail.lap - head.lap, c.cap - head.off
    {
      RankNext(c.cap, head);
      if IsSentinel(c.cap, head) {
        block := if block.value in s.nextOf then Some(s.nextOf[block.value]) else None;
      } else {
        var slot := Slot(block.value, head.off);
        PushedHere(c, s, head);
        if slot in s.tag && s.tag[slot] == head.lap {
          dropped := dropped + [s.value[slot]];
        }
      }
      head := Next(c.cap, head);
    }
    RestRanks(c, s, head);
  }

  lemma PushedHere(c: Config, s: State, p: Pos)
    requires AtRest(c, s) && p.off < c.cap && AtMost(s.head, p) && Before(p, s.tail)
    ensures HoldsPushed(c, s, p) && Rank(c.cap, p) < |s.log| && p.lap < |s.serves|
    ensures var x := Slot(s.serves[p.lap], p.off);
      x in s.tag && s.tag[x] == p.lap && x in s.value && s.value[x] == s.log[Rank(c.cap, p)].v
  {
    hide Rank;
  }

  /** Positions from the head up to the tail have ranks up to the number of claims; one past a
      tail that sits on a sentinel has the same rank. */
  lemma RestRanks(c: Config, s: State, p: Pos)
    requires AtRest(c, s) && p.off <= c.cap && (AtMost(p, s.tail) || p == s.head)
    ensures Rank(c.cap, p) <= |s.log| && (!Before(p, s.tail) ==> Rank(c.cap, p) == |s.log|)
  {
    hide HoldsPushed;
    if AtMost(p, s.tail) {
      RankMonotone(c.cap, p, s.tail);
    }
  }

  /** Releases the chain, the spare and the pooled blocks. */
  method ReleaseBlocks(c: Config, s: State) returns (released: seq<Id>)
    requires AtRest(c, s)
    ensures s.headLap <= |s.serves| && released == Releases(s)
  {
    hide HoldsPushed, Rank, Before, AtMost;
    released := [];
    var block := Some(s.headBlock);
    ghost var k := s.headLap;
    while block.Some?
      invariant s.headLap <= k <= |s.serves| && released == s.serves[s.headLap..k]
      invariant block == if k < |s.serves| then Some(s.serves[k]) else None
      decreases |s.serves| - k
    {
      var next := if block.value in s.nextOf then Some(s.nextOf[block.value]) else None;
      released := released + [block.value];
      block := next;
      k := k + 1;
    }
    if s.spare.Some? {
      released := released + [s.spare.value];
    }
    var pooled := s.ready + s.retired;
    ghost var before := released;
    for i := 0 to |pooled|
      invariant released == before + pooled[..i]
    {
      released := released + [pooled[i]];
    }
    assert pooled[..|pooled|] == pooled;
  }

  lemma DistinctConcat(xs: seq<Id>, ys: seq<Id>)
    requires Distinct(xs) && Distinct(ys) && forall x :: x in xs ==> x !in ys
    ensures Distinct(xs + ys) && forall x :: x in xs + ys <==> x in xs || x in ys
  {
    forall i, j | 0 <= i < j < |xs + ys| ensures (xs + ys)[i] != (xs + ys)[j] {
      if i < |xs| <= j { assert xs[i] in xs && ys[j - |xs|] in ys; }
    }
  }

  /** With every hand empty, the chain, the spare and the pools are all the blocks there are. */
  lemma ReleasesAll(c: Config, s: State)
    requires Inv(c, s) && HandsOk(s.place, s.pcs) && Quiescent(s) && s.headLap <= |s.serves|
    ensures Distinct(Releases(s)) && forall b: Id :: b in Releases(s) <==> b < s.blocks
  {
    hide Inv, HandsOk, Quiescent, Distinct, OwnerOf;
    PlacedOnce(c, s);
    var chain, spare := s.serves[s.headLap..], if s.spare.Some? then [s.spare.value] else [];
    assert Distinct(spare) by { SingleDistinct(spare); }
    forall b: Id
      ensures b in chain + spare + s.ready + s.retired <==> b < s.blocks
      ensures b in chain ==> b !in spare + s.ready + s.retired
      ensures b in spare ==> b !in s.ready + s.retired
      ensures b in s.ready ==> b !in s.retired
    {
      if b < s.blocks { InOne(c, s, b); }
    }
    DistinctConcat(chain, spare);
    DistinctConcat(chain + spare, s.ready);
    DistinctConcat(chain + spare + s.ready, s.retired);
  }

  lemma SingleDistinct(xs: seq<Id>)
    requires |xs| <= 1
    ensures Distinct(xs)
  {
  }

  /** Each block is in exactly one of the four. */
  lemma InOne(c: Config, s: State, b: Id)
    requires Inv(c, s) && HandsOk(s.place, s.pcs) && Quiescent(s) && b < s.blocks && s.headLap <= |s.serves|
    ensures b in s.place
    ensures b in s.serves[s.headLap..] <==> s.place[b].Live?
    ensures s.spare == Some(b) <==> s.place[b].InSpare?
    ensures b in s.ready <==> s.place[b].InReady?
    ensures b in s.retired <==> s.place[b].Retired?
    ensures s.place[b].Live? || s.place[b].InSpare? || s.place[b].InReady? || s.place[b].Retired?
  {
    hide Inv, HandsOk, Quiescent;
    PlaceOf(c, s, b);
    var chain := s.serves[s.headLap..];
    if b in chain {
      var i :| 0 <= i < |chain| && chain[i] == b;
      assert s.serves[s.headLap + i] == b;
    }
    if s.place[b].Live? {
      var k :| s.headLap <= k < |s.serves| && s.serves[k] == b;
      assert chain[k - s.headLap] == b;
    }
  }

  lemma PlaceOf(c: Config, s: State, b: Id)
    requires Inv(c, s) && HandsOk(s.place, s.pcs) && Quiescent(s) && b < s.blocks
    ensures b in s.place && OwnerOf(s.place[b]).None?
    ensures s.place[b].Live? <==> exists k :: s.headLap <= k < |s.serves| && s.serves[k] == b
    ensures s.place[b].InSpare? <==> s.spare == Some(b)
    ensures s.place[b].InReady? <==> b in s.ready
    ensures s.place[b].Retired? <==> b in s.retired
  {
    hide Inv;
    StatePlaces(c, s, b);
  }

  lemma PlacedOnce(c: Config, s: State)
    requires Inv(c, s)
    ensures s.headLap <= |s.serves|
    ensures Distinct(s.serves[s.headLap..]) && Distinct(s.ready) && Distinct(s.retired)
    ensures forall k :: s.headLap <= k < |s.serves| ==>
      s.serves[k] < s.blocks && s.serves[k] in s.place && s.place[s.serves[k]].Live?
    ensures forall b :: b in s.ready ==> b < s.blocks
    ensures forall b :: b in s.retired ==> b < s.blocks
    ensures s.spare.Some? ==> s.spare.value < s.blocks
  {
    hide HeadTailOk, CountsOk, StartOk, LinksOk, MarksOk, TagsOk, ContentOk, OrderOk, DutyOk, ThreadsOk;
  }
}
