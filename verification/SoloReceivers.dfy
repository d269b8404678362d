/**
  The exclusive receiver as it works in place: blocks linked by `next`, an array of slots in each,
  a head index, the pool, and the caller's buffer.
*/
module SoloReceivers {
  import opened Basics
  import opened Positions
  import opened Waiters
  import opened SoloSpec

  class Block {
    var start: Option<nat>  // the lap served; none in the pool
    var next: Block?
    var prev: Block?
    const cells: array<Cell>

    constructor (cap: BlockCap)
      ensures start.None? && next == null && fresh(cells) && cells.Length == cap
      ensures forall i :: 0 <= i < cap ==> cells[i].state == 0
    {
      start, next, prev := None, null, null;
      cells := new Cell[cap](_ => Cell(0, 0));
    }
  }

  ghost function CellsOf(chain: seq<Block>): (cs: seq<seq<Cell>>)
    reads set b | b in chain :: b.cells
    ensures |cs| == |chain| && forall i :: 0 <= i < |cs| ==> cs[i] == chain[i].cells[..]
  {
    seq(|chain|, i requires 0 <= i < |chain| reads set b | b in chain :: b.cells => chain[i].cells[..])
  }

  /** The block after the i-th, if any. */
  ghost function Following(chain: seq<Block>, i: nat): Block? {
    if i + 1 < |chain| then chain[i + 1] else null
  }

  /** Distinct blocks, each linked to the next, serving consecutive laps from `lap` on. */
  ghost predicate Chained(chain: seq<Block>, lap: nat)
    reads chain
  {
    && (forall i :: 0 <= i < |chain| ==> chain[i].next == Following(chain, i))
    && (forall i :: 0 <= i < |chain| ==> chain[i].start == Some(lap + i))
    && (forall i, j :: 0 <= i < j < |chain| ==> chain[i] != chain[j])
  }

  /** The pooled blocks are distinct, serve no lap and are not in the chain. */
  ghost predicate Pooled(chain: seq<Block>, ready: seq<Block>, spare: Block?)
    reads ready, if spare == null then {} else {spare}
  {
    && (forall i :: 0 <= i < |ready| ==> ready[i] !in chain && ready[i] != spare && ready[i].start.None?)
    && (forall i, j :: 0 <= i < j < |ready| ==> ready[i] != ready[j])
    && (spare != null ==> spare !in chain && spare.start.None?)
  }

  lemma RestChained(chain: seq<Block>, lap: nat)
    requires Chained(chain, lap) && |chain| > 1
    ensures Chained(chain[1..], lap + 1) && chain[0] !in chain[1..] && chain[0].next == chain[1]
    ensures CellsOf(chain[1..]) == CellsOf(chain)[1..]
  {
    var rest := chain[1..];
    forall i | 0 <= i < |rest|
      ensures rest[i].next == Following(rest, i) && rest[i].start == Some(lap + 1 + i)
      ensures rest[i] != chain[0] && CellsOf(rest)[i] == CellsOf(chain)[1..][i]
    {
      assert rest[i] == chain[i + 1] && Following(rest, i) == Following(chain, i + 1);
    }
    forall i, j | 0 <= i < j < |rest| ensures rest[i] != rest[j] {
      assert rest[i] == chain[i + 1] && rest[j] == chain[j + 1];
    }
    assert Chained(rest, lap + 1);
  }

  /** The caller's buffer. */
  class Buffer {
    var items: seq<Value>
  }

  /** What an attempt that finds no value says: nothing yet, closed and drained, or closed with values
      still to be published. */
  datatype RecvState = Empty | Closed | Busy

  datatype Received = Received(value: Value) | Nothing(state: RecvState)

  /** What a poll of a receive says: a value, closed and drained, or parked, having woken itself if there
      are claimed values it has to wait for. */
  datatype Polling = Found(value: Value) | Over | Parked(awake: bool)

  /** What a poll of a batch says. */
  datatype Polled = Pending(awake: bool) | Ready(count: nat) | Failed

  /** The verdict of an attempt that has found nothing, from the closed flag and the two indices. */
  function StateWhenEmpty(cap: BlockCap, closed: bool, head: nat, tail: nat): (state: RecvState)
    ensures state.Empty? <==> !closed
    ensures state.Closed? <==> closed && CountValues(cap, head, tail) == 0
  {
    ItemsBetweenCounts(cap, head, tail);
    if !closed then Empty else if ItemsBetween(cap, head, tail) == 0 then Closed else Busy
  }

  class Receiver {
    const cap: BlockCap
    const bounded: bool
    const senders: WaiterList
    var head: nat            // index word
    var headBlock: Block
    var spare: Block?
    var ready: seq<Block>
    ghost var chain: seq<Block>

    ghost function Spare(): Option<Block>
      reads this
    {
      if spare == null then None else var b: Block := spare; Some(b)
    }

    /** The receiver's state, but for the senders waiting. */
    ghost function Place(): View<Block>
      reads this, set b | b in chain :: b.cells
    {
      View(Split(cap, head), chain, CellsOf(chain), Spare(), ready, [])
    }

    ghost function State(): View<Block>
      reads this, senders, set b | b in chain :: b.cells
    {
      Place().(senders := senders.list)
    }

    ghost predicate Shape()
      reads this, chain, set b | b in chain :: b.cells
      reads ready, if spare == null then {} else {spare}
    {
      && Ok(cap, Place()) && headBlock == chain[0]
      && Chained(chain, head / (cap + 1)) && Pooled(chain, ready, spare)
    }

    ghost predicate Valid()
      reads this, senders, chain, set b | b in chain :: b.cells
      reads ready, if spare == null then {} else {spare}
    {
      Shape() && senders.Valid()
    }

    /** A receiver over a first, empty block. */
    constructor (cap: BlockCap, bounded: bool, senders: WaiterList)
      requires senders.Valid()
      ensures Valid() && this.cap == cap && this.bounded == bounded && this.senders == senders
      ensures head == 0 && spare == null && ready == [] && |chain| == 1 && fresh(headBlock) && fresh(headBlock.cells)
      ensures headBlock.cells.Length == cap
      ensures forall j :: 0 <= j < cap ==> headBlock.cells[j].state == 0
    {
      var first := new Block(cap);
      first.start := Some(0);
      this.cap, this.bounded, this.senders := cap, bounded, senders;
      head, headBlock, spare, ready, chain := 0, first, null, [], [first];
    }

    /** Hands a finished block to the pool. */
    method Recycle(b: Block)
      requires Pooled(chain, ready, spare) && b !in ready && b != spare && b !in chain
      modifies this`spare, this`ready, b`start
      ensures Pooled(chain, ready, spare)
      ensures b.start.None?
      ensures if old(spare) == null then spare == b && ready == old(ready)
              else spare == old(spare) && ready == old(ready) + [b]
    {
      b.start := None;
      if spare == null {
        spare := b;
      } else {
        ready := ready + [b];
      }
    }

    /** Moves the head over `count` values of its block, and on to the next block past the last. */
    method MoveHead(count: nat)
      requires Shape() && count > 0 && head % (cap + 1) + count <= cap
      requires head % (cap + 1) + count == cap ==>
        headBlock.cells[cap - 1].state == WrittenTag(head / (cap + 1))
      modifies this, headBlock`start
      ensures Shape() && Place() == Advance(cap, old(Place()), count)
      ensures forall b :: b in chain ==> b in old(chain)
    {
      AdvanceFacts(count);
      if head % (cap + 1) + count == cap {
        Across(count);
      } else {
        Inside(count);
      }
    }

    lemma AdvanceFacts(count: nat)
      requires Shape() && head % (cap + 1) + count <= cap
      requires head % (cap + 1) + count == cap ==> headBlock.cells[cap - 1].state == WrittenTag(head / (cap + 1))
      ensures Ok(cap, Advance(cap, Place(), count))
      ensures head % (cap + 1) + count == cap ==> |chain| > 1
    {
      hide Chained, Pooled;
      assert Place().cells[0] == headBlock.cells[..];
      AdvanceOk(cap, Place(), count);
    }

    method Inside(count: nat)
      requires Shape() && head % (cap + 1) + count < cap && Ok(cap, Advance(cap, Place(), count))
      modifies this`head
      ensures Shape() && Place() == Advance(cap, old(Place()), count)
      ensures forall b :: b in chain ==> b in old(chain)
    {
      hide Ok, Chained, Pooled, CellsOf;
      WordSum(cap, head, count);
      head := head + count;
    }

    method Across(count: nat)
      requires Shape() && head % (cap + 1) + count == cap && |chain| > 1 && Ok(cap, Advance(cap, Place(), count))
      modifies this, headBlock`start
      ensures Shape() && Place() == Advance(cap, old(Place()), count)
      ensures forall b :: b in chain ==> b in old(chain)
    {
      hide Ok, Chained, Pooled, CellsOf;
      ghost var v := Place();
      var block := headBlock;
      RestChained(chain, head / (cap + 1));
      WordSum(cap, head, count);
      PoolApart(chain, ready, spare, block);
      headBlock := block.next;
      chain := chain[1..];
      head := head + count + 1;
      Recycle(block);
    }

    /** The receive of one value, without its notification. */
    method PopSingle() returns (value: Option<Value>, wake: bool)
      requires Valid()
      modifies this, headBlock`start
      ensures Valid()
      ensures var v := old(Place()); var cell := v.cells[0][v.head.off];
        if cell.state == WrittenTag(v.head.lap) then
          value == Some(cell.value) && Place() == Advance(cap, v, 1) && wake == (bounded && |senders.list| > 0)
        else value.None? && Place() == v && !wake && head == old(head) && headBlock == old(headBlock)
      ensures forall b :: b in chain ==> b in old(chain)
    {
      assert headBlock.cells[..] == Place().cells[0];
      var cell := headBlock.cells[head % (cap + 1)];
      if cell.state != WrittenTag(head / (cap + 1)) {
        return None, false;
      }
      MoveHead(1);
      value := Some(cell.value);
      wake := bounded && senders.count != 0;
    }

    /** One receive attempt: a value and its notification, or the verdict on what `closed` and `tail`
        were when it looked. */
    method TryRecvNonblocking(closed: bool, tail: nat) returns (got: Received, woken: seq<Tid>)
      requires Valid()
      modifies this, headBlock`start, senders
      ensures Valid() && Ok(cap, old(State()))
      ensures var one := Single(cap, bounded, old(State()));
        && State() == one.after && woken == one.woken
        && got == if |one.values| == 0 then Nothing(StateWhenEmpty(cap, closed, old(head), tail))
                  else Received(one.values[0])
      ensures got.Nothing? ==> head == old(head) && headBlock == old(headBlock)
      ensures forall b :: b in chain ==> b in old(chain)
    {
      hide Shape, Advance, Place, Ok, StateWhenEmpty;
      StateOk();
      ghost var v, list := Place(), senders.list;
      var value, wake := PopSingle();
      AdvanceSenders(cap, v, 1, list);
      NoneFirst(list);
      woken := [];
      if wake {
        woken := senders.NotifyOne();
      }
      got := if value.Some? then Received(value.value) else Nothing(StateWhenEmpty(cap, closed, head, tail));
    }

    /** Moves the written values of the head's block, at most `limit`, to the end of the buffer, and
        says how many senders may be notified. */
    method PopSingleBatch(buffer: Buffer, limit: nat) returns (count: nat, wake: nat)
      requires Valid()
      modifies this, headBlock`start, buffer
      ensures Valid() && Ok(cap, old(Place())) && count == BatchCount(cap, old(Place()), limit)
      ensures buffer.items == old(buffer.items) + BatchValues(cap, old(Place()), limit)
      ensures Place() == if count == 0 then old(Place()) else Advance(cap, old(Place()), count)
      ensures count == 0 ==> head == old(head)
      ensures wake == if !bounded then 0 else if count <= |senders.list| then count else |senders.list|
      ensures forall b :: b in chain ==> b in old(chain)
    {
      hide Shape, Advance, Ok, Place, State, BatchCount, BatchValues, Run, ValuesOf;
      HeadCells(limit);
      if limit == 0 {
        return 0, 0;
      }
      var offset := head % (cap + 1);
      var max := if limit <= cap - offset then limit else cap - offset;
      count := CopyRun(buffer, headBlock.cells, offset, WrittenTag(head / (cap + 1)), max);
      if count == 0 {
        return 0, 0;
      }
      MoveHead(count);
      wake := if !bounded then 0 else if count <= senders.count then count else senders.count;
    }

    /** What a batch takes, in the cells of the head's block. */
    lemma HeadCells(limit: nat)
      requires Shape()
      ensures headBlock.cells.Length == cap && head % (cap + 1) < cap && Ok(cap, Place())
      ensures var off := head % (cap + 1); var max := if limit <= cap - off then limit else cap - off;
        && BatchCount(cap, Place(), limit) == Run(headBlock.cells[..], off, WrittenTag(head / (cap + 1)), max)
        && BatchValues(cap, Place(), limit) == ValuesOf(headBlock.cells[..][off..off + BatchCount(cap, Place(), limit)])
      ensures BatchCount(cap, Place(), limit) == 0 ==> BatchValues(cap, Place(), limit) == []
    {
      assert headBlock.cells[..] == Place().cells[0];
    }

    /** One batch and its notification. */
    method TryRecvManyReady(buffer: Buffer, limit: nat) returns (count: nat, woken: seq<Tid>)
      requires Valid()
      modifies this, headBlock`start, buffer, senders
      ensures Valid() && Ok(cap, old(State()))
      ensures var b := Batch(cap, bounded, old(State()), limit);
        && State() == b.after && woken == b.woken && count == |b.values|
        && buffer.items == old(buffer.items) + b.values
      ensures count == 0 ==> head == old(head)
      ensures forall b :: b in chain ==> b in old(chain)
    {
      hide Shape, Advance, Run, Place, Ok, Batch, ValuesOf;
      StateOk();
      ghost var v, list := Place(), senders.list;
      var wake;
      count, wake := PopSingleBatch(buffer, limit);
      BatchParts(cap, bounded, v, list, limit, count);
      NoneFirst(list);
      woken := [];
      if wake != 0 {
        woken := senders.NotifyMany(wake);
      }
    }

    /** Batch after batch, until `limit` values are taken or nothing is ready. */
    method Fill(buffer: Buffer, limit: nat) returns (count: nat, woken: seq<Tid>)
      requires Valid()
      modifies this, (set b | b in chain :: b), buffer, senders
      ensures Valid() && Ok(cap, old(State()))
      ensures var s := Singles(cap, bounded, old(State()), limit);
        && State() == s.after && woken == s.woken && count == |s.values|
        && buffer.items == old(buffer.items) + s.values
    {
      hide Shape, Ok, Singles, Batch, Place;
      StateOk();
      ghost var v := State();
      count, woken := 0, [];
      NoSingles(cap, bounded, v);
      while count < limit
        invariant Valid() && count <= limit && forall b :: b in chain ==> b in old(chain)
        invariant Ok(cap, v)
        invariant var s := Singles(cap, bounded, v, count);
          && State() == s.after && woken == s.woken && count == |s.values|
          && buffer.items == old(buffer.items) + s.values
        decreases limit - count
      {
        StateOk();
        ghost var u := State();
        BatchIsSingles(cap, bounded, u, limit - count);
        var received, more := TryRecvManyReady(buffer, limit - count);
        if received == 0 {
          BatchNone(cap, bounded, u, limit - count);
          SinglesAdd(cap, bounded, v, count, limit - count);
          break;
        }
        SinglesAdd(cap, bounded, v, count, received);
        count := count + received;
        woken := woken + more;
      }
    }

    /** A poll of recv_many's wait for its first value: pending or failed, with nothing taken, or up to
        `limit` values at the end of the buffer. */
    method PollMany(future: Recv, buffer: Buffer, limit: nat, me: Tid, next: Id, closed: bool, tail: nat)
        returns (done: Polled, woken: seq<Tid>)
      requires limit > 0 && future.rx == this && future.Valid()
      requires forall i :: 0 <= i < |future.waiters.list| ==> future.waiters.list[i].id < next
      modifies this, (set b | b in chain :: b), buffer, senders, future`waiter, future.waiters
      ensures future.Valid() && Ok(cap, old(State()))
      ensures var s := Singles(cap, bounded, old(State()), limit);
        && State() == s.after && woken == s.woken && buffer.items == old(buffer.items) + s.values
        && done == if |s.values| > 0 then Ready(|s.values|) else ManyWaits(closed, CountValues(cap, old(head), tail))
      ensures future.Left(old(future.Others()), done.Pending?, me, next)
    {
      hide Shape, Ok, Single, Place, Recv.Left, Recv.Others;
      StateOk();
      ghost var v := State();
      var got;
      got, woken := future.Poll(me, next, closed, tail);
      SingleOk(cap, bounded, v);
      if !got.Found? {
        SingleNone(cap, bounded, v);
        return if got.Over? then Failed else Pending(got.awake), woken;
      }
      buffer.items := buffer.items + [got.value];
      var count, more := Fill(buffer, limit - 1);
      return Ready(1 + count), woken + more;
    }

    /** recv_many, up to its first wait: nothing to do for a limit of zero, an error only if the channel
        is closed and drained before anything is taken.  The future it waits on comes back with it. */
    method RecvMany(buffer: Buffer, limit: nat, waiters: WaiterList, me: Tid, next: Id, closed: bool, tail: nat)
        returns (done: Polled, future: Recv, woken: seq<Tid>)
      requires Valid() && waiters.Valid() && waiters != senders
      requires forall i :: 0 <= i < |waiters.list| ==> waiters.list[i].id < next
      modifies this, (set b | b in chain :: b), buffer, senders, waiters
      ensures fresh(future) && future.rx == this && future.waiters == waiters && future.Valid()
      ensures Ok(cap, old(State()))
      ensures var s := Singles(cap, bounded, old(State()), limit);
        && State() == s.after && woken == s.woken && buffer.items == old(buffer.items) + s.values
        && done == if |s.values| > 0 || limit == 0 then Ready(|s.values|)
                   else ManyWaits(closed, CountValues(cap, old(head), tail))
      ensures future.Left(old(waiters.list), done.Pending?, me, next)
    {
      hide Shape, Ok, Singles, Batch, Place;
      StateOk();
      ghost var v := State();
      NoSingles(cap, bounded, v);
      future := new Recv(this, waiters);
      if limit == 0 {
        return Ready(0), future, [];
      }
      BatchIsSingles(cap, bounded, v, limit);
      var count;
      count, woken := TryRecvManyReady(buffer, limit);
      if count == 0 {
        var polled;
        BatchNone(cap, bounded, v, limit);
        done, polled := PollMany(future, buffer, limit, me, next, closed, tail);
        woken := woken + polled;
      } else {
        var rest, more := Fill(buffer, limit - count);
        SinglesAdd(cap, bounded, v, count, limit - count);
        return Ready(count + rest), future, woken + more;
      }
    }

    lemma StateOk()
      requires Shape()
      ensures Ok(cap, State()) && headBlock in chain
    {
    }
  }

  /** What a batch that finds nothing says, by the number of claimed values. */
  function ManyWaits(closed: bool, claimed: nat): Polled {
    if closed && claimed == 0 then Failed else Pending(claimed != 0)
  }

  /** What a receive that finds nothing says. */
  function PollWaits(closed: bool, claimed: nat): Polling {
    if closed && claimed == 0 then Over else Parked(claimed != 0)
  }

  /** A pending receive of one value. */
  class Recv {
    const rx: Receiver
    const waiters: WaiterList
    var waiter: Option<Id>  // its registration, once it has one

    ghost predicate Valid()
      reads this, waiters, rx, rx.senders, rx.chain, set b | b in rx.chain :: b.cells
      reads rx.ready, if rx.spare == null then {} else {rx.spare}
    {
      rx.Valid() && waiters.Valid() && waiters != rx.senders
    }

    /** The list but for its own entry. */
    ghost function Others(): seq<Entry>
      reads this, waiters
    {
      if waiter.Some? then Without(waiters.list, waiter.value) else waiters.list
    }

    /** Of its own it leaves a new entry for task `me` at the end of the list, if it is parked, and
        nothing otherwise. */
    ghost predicate Left(others: seq<Entry>, parked: bool, me: Tid, next: Id)
      reads this, waiters
    {
      && waiter == (if parked then Some(next) else None)
      && waiters.list == others + if parked then [Entry(next, me)] else []
    }

    constructor (rx: Receiver, waiters: WaiterList)
      requires rx.Valid() && waiters.Valid() && waiters != rx.senders
      ensures Valid() && this.rx == rx && this.waiters == waiters && waiter.None?
    {
      hide Receiver.Valid, Receiver.Shape;
      this.rx, this.waiters, waiter := rx, waiters, None;
    }

    /** Gives up its registration; a notification that had absorbed it is passed on if `forward`. */
    method Unregister(forward: bool) returns (woken: seq<Tid>)
      requires waiters.Valid()
      modifies `waiter, waiters
      ensures waiters.Valid() && waiter.None?
      ensures var w := old(waiter); var list := old(waiters.list);
        if w.Some? && w.value !in Ids(list) && forward then
          waiters.list == Rest(list, 1) && woken == Wakers(First(list, 1))
        else waiters.list == old(Others()) && woken == []
      ensures var w := old(waiter); var list := old(waiters.list);
        w.Some? && w.value in Ids(list) ==> Survive(list, waiters.list, w.value)
    {
      woken := [];
      if waiter.Some? {
        WithoutGone(waiters.list, waiter.value);
        woken := waiters.Unregister(waiter.value, forward);
        waiter := None;
      }
    }

    /** The future is dropped. */
    method Cancel() returns (woken: seq<Tid>)
      requires Valid()
      modifies `waiter, waiters
      ensures Valid() && rx.State() == old(rx.State()) && waiter.None?
      ensures var w := old(waiter); var list := old(waiters.list);
        if w.Some? && w.value !in Ids(list) then waiters.list == Rest(list, 1) && woken == Wakers(First(list, 1))
        else waiters.list == old(Others()) && woken == []
      ensures var w := old(waiter); var list := old(waiters.list);
        w.Some? && w.value in Ids(list) ==> Survive(list, waiters.list, w.value)
    {
      hide Receiver.Shape, Receiver.State;
      woken := Unregister(true);
    }

    /** It registers, tries again, and parks.  Nothing has happened since the first attempt, so that the
        second ends as it did; what is claimed below the snapshot of the tail is still to be published,
        and then the future wakes itself. */
    method Park(me: Tid, next: Id, closed: bool, tail: nat) returns (awake: bool)
      requires Valid() && waiter.None? && forall i :: 0 <= i < |waiters.list| ==> waiters.list[i].id < next
      requires Ok(rx.cap, rx.State()) && |Single(rx.cap, rx.bounded, rx.State()).values| == 0
      modifies `waiter, waiters, rx, rx.headBlock`start, rx.senders
      ensures Valid() && rx.State() == old(rx.State())
      ensures awake <==> CountValues(rx.cap, old(rx.head), tail) != 0
      ensures waiter == Some(next) && waiters.list == old(waiters.list) + [Entry(next, me)]
      ensures forall b :: b in rx.chain ==> b in old(rx.chain)
    {
      hide Receiver.Shape, Receiver.State, Receiver.Place, Ok, Single, StateWhenEmpty, CountValues, ItemsBetween;
      SingleEmpty(rx.cap, rx.bounded, rx.State());
      NotListed(waiters.list, next);
      var id := waiters.Register(None, next, me);
      waiter := Some(id);
      var seen := tail;
      var again, none := rx.TryRecvNonblocking(closed, tail);
      ItemsBetweenCounts(rx.cap, rx.head, seen);
      awake := again == Nothing(Busy) || ItemsBetween(rx.cap, rx.head, seen) != 0;
    }

    /** A poll: it gives up its registration, tries, and parks if there is nothing. */
    method Poll(me: Tid, next: Id, closed: bool, tail: nat) returns (got: Polling, woken: seq<Tid>)
      requires Valid() && forall i :: 0 <= i < |waiters.list| ==> waiters.list[i].id < next
      modifies `waiter, waiters, rx, rx.headBlock`start, rx.senders
      ensures Valid() && Ok(rx.cap, old(rx.State()))
      ensures var one := Single(rx.cap, rx.bounded, old(rx.State()));
        && rx.State() == one.after && woken == one.woken
        && got == if |one.values| > 0 then Found(one.values[0])
                  else PollWaits(closed, CountValues(rx.cap, old(rx.head), tail))
      ensures Left(old(Others()), got.Parked?, me, next)
      ensures forall b :: b in rx.chain ==> b in old(rx.chain)
    {
      hide Receiver.Shape, Receiver.State, Receiver.Place, Ok, Single, StateWhenEmpty, CountValues;
      rx.StateOk();
      ghost var v := rx.State();
      OthersBelow(waiters.list, waiter, Others(), next);
      var none := Unregister(false);
      var first;
      first, woken := rx.TryRecvNonblocking(closed, tail);
      SingleEmpty(rx.cap, rx.bounded, v);
      if first.Received? {
        return Found(first.value), woken;
      }
      if first.state.Closed? {
        return Over, woken;
      }
      var awake := Park(me, next, closed, tail);
      return Parked(awake), woken;
    }
  }

  lemma NotListed(list: seq<Entry>, next: Id)
    requires forall i :: 0 <= i < |list| ==> list[i].id < next
    ensures next !in Ids(list)
  {
  }

  lemma WithoutGone(list: seq<Entry>, id: Id)
    ensures id !in Ids(list) ==> Without(list, id) == list
  {
    if IndexOf(list, id) < |list| {
      assert list[IndexOf(list, id)].id in Ids(list);
    }
  }

  lemma OthersBelow(list: seq<Entry>, waiter: Option<Id>, others: seq<Entry>, next: Id)
    requires others == if waiter.Some? then Without(list, waiter.value) else list
    requires forall i :: 0 <= i < |list| ==> list[i].id < next
    ensures forall i :: 0 <= i < |others| ==> others[i].id < next
  {
  }

  lemma SingleEmpty(cap: BlockCap, bounded: bool, v: View<Block>)
    requires Ok(cap, v)
    ensures |Single(cap, bounded, v).values| == 0 ==> Single(cap, bounded, v) == Taken(v, [], [])
  {
  }

  /** Copies the run of written cells from `offset` on, at most `max` of them. */
  method CopyRun(buffer: Buffer, cells: array<Cell>, offset: nat, tag: nat, max: nat) returns (count: nat)
    requires offset + max <= cells.Length
    modifies buffer
    ensures count == Run(cells[..], offset, tag, max)
    ensures buffer.items == old(buffer.items) + ValuesOf(cells[..][offset..offset + count])
  {
    hide ValuesOf;
    count := 0;
    ghost var all := cells[..];
    NoneOf(all, offset);
    while count < max && cells[offset + count].state == tag
      invariant count <= max && cells[..] == all
      invariant Run(all, offset, tag, max) == count + Run(all, offset + count, tag, max - count)
      invariant buffer.items == old(buffer.items) + ValuesOf(all[offset..offset + count])
    {
      OneMore(all, offset, offset + count);
      buffer.items := buffer.items + [cells[offset + count].value];
      count := count + 1;
    }
  }

  lemma NoneOf(cells: seq<Cell>, i: nat)
    requires i <= |cells|
    ensures ValuesOf(cells[i..i]) == []
  {
  }

  lemma OneMore(cells: seq<Cell>, i: nat, j: nat)
    requires i <= j < |cells|
    ensures ValuesOf(cells[i..j + 1]) == ValuesOf(cells[i..j]) + [cells[j].value]
  {
  }

  lemma AdvanceSenders(cap: BlockCap, v: View<Block>, count: nat, list: seq<Entry>)
    requires |v.chain| == |v.cells| > 0
    ensures Advance(cap, v.(senders := list), count) == Advance(cap, v, count).(senders := list)
  {
  }

  /** A batch, by the number of values it finds. */
  lemma BatchParts(cap: BlockCap, bounded: bool, v: View<Block>, list: seq<Entry>, limit: nat, count: nat)
    requires Ok(cap, v) && Ok(cap, v.(senders := list)) && count == BatchCount(cap, v, limit)
    ensures var b := Batch(cap, bounded, v.(senders := list), limit);
      && b.values == BatchValues(cap, v, limit) && |b.values| == count
      && b.after == (if count == 0 then v else Advance(cap, v, count))
                      .(senders := if bounded then Rest(list, count) else list)
      && b.woken == if bounded then Wakers(First(list, count)) else []
  {
    if count > 0 {
      AdvanceSenders(cap, v, count, list);
    } else {
      assert ValuesOf(v.cells[0][v.head.off..v.head.off]) == [];
    }
  }

  lemma NoneFirst(list: seq<Entry>)
    ensures |list| == 0 ==> forall n :: Rest(list, n) == list && First(list, n) == list && Wakers(First(list, n)) == []
    ensures forall n :: n > |list| ==> Rest(list, n) == Rest(list, |list|) && First(list, n) == First(list, |list|)
  {
  }

  lemma PoolApart(chain: seq<Block>, ready: seq<Block>, spare: Block?, b: Block)
    requires Pooled(chain, ready, spare) && |chain| > 0 && b in chain
    ensures Pooled(chain[1..], ready, spare) && b !in ready && b != spare
  {
  }

  lemma WordSum(cap: BlockCap, w: nat, count: nat)
    requires w % (cap + 1) + count <= cap
    ensures Split(cap, w + count) == Pos(w / (cap + 1), w % (cap + 1) + count)
    ensures w % (cap + 1) + count == cap ==> Split(cap, w + count + 1) == Pos(w / (cap + 1) + 1, 0)
  {
    var n := cap + 1;
    WordParts(n, w, count);
    if w % n + count == cap {
      WordParts(n, w + count, 0);
      DivStep(cap, w + count);
      assert (w + count + 1) % n == 0 by {
        assert w + count == (w / n) * n + cap;
        assert w + count + 1 == (w / n + 1) * n + 0;
        DivModUnique(n, w / n + 1, 0);
      }
    }
  }

  lemma WordParts(n: nat, w: nat, count: nat)
    requires n > 0 && w % n + count < n
    ensures (w + count) / n == w / n && (w + count) % n == w % n + count
  {
    var q, r := w / n, w % n;
    assert w + count == q * n + (r + count);
    DivModUnique(n, q, r + count);
  }
}
