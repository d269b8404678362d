/**
  The queue of an exclusive channel as its operations change it in place, run one after another:
  what is pushed is received in order, a push is refused exactly when the queue is full, and
  blocks go round between the chain and the pool.
*/
module SoloQueues {
  import opened Basics
  import opened Positions
  import opened Waiters
  import opened SoloSpec
  import opened SoloReceivers

  /** Every block, in the chain or in the pool. */
  ghost function Blocks(v: View<Block>): set<Block> {
    (set b | b in v.chain) + (set b | b in v.ready) + (if v.spare.Some? then {v.spare.value} else {})
  }

  /** The view holds `contents` from the head on, and nothing after it. */
  ghost predicate Holds(cap: BlockCap, v: View<Block>, contents: seq<Value>) {
    && (forall i: nat :: ReadyAt(cap, v, i) <==> i < |contents|)
    && (forall i: nat :: i < |contents| ==> ReadyAt(cap, v, i) && ValueAt(cap, v, i) == contents[i])
  }

  /** The position of the next claim is the one after the contents, in the last block; the tail is
      there or on the sentinel before it. */
  ghost predicate TailAfter(cap: BlockCap, v: View<Block>, count: nat, tail: Pos) {
    var e := v.head.off + count;
    && |v.chain| == e / cap + 1
    && (tail == Pos(v.head.lap + e / cap, e % cap)
        || (e % cap == 0 && v.head.lap + e / cap > 0 && tail == Pos(v.head.lap + e / cap - 1, cap)))
  }

  function NextLap(v: View<Block>): nat {
    v.head.lap + |v.chain|
  }

  /** The contents are there, the tail and its block come right after them, and there is room for
      them. */
  ghost predicate Fed(cap: BlockCap, capacity: Option<nat>, v: View<Block>, contents: seq<Value>, tail: Pos,
                      tailBlock: Block, blocks: set<Block>) {
    && Blocks(v) == blocks && |v.chain| > 0 && tailBlock == v.chain[|v.chain| - 1]
    && Holds(cap, v, contents) && TailAfter(cap, v, |contents|, tail)
    && (capacity.Some? ==> 0 < capacity.value && |contents| <= capacity.value)
  }

  /** Distinct blocks have distinct slots, and no slot carries a state of a lap to come. */
  ghost predicate Stale(cap: BlockCap, blocks: set<Block>, next: nat)
    reads set b | b in blocks :: b.cells
  {
    && (forall a, b :: a in blocks && b in blocks && a != b ==> a.cells != b.cells)
    && (forall b :: b in blocks ==> b.cells.Length == cap)
    && (forall b, j :: b in blocks && 0 <= j < b.cells.Length ==> b.cells[j].state < WrittenTag(next))
  }

  // ---- Receives keep it -------------------------------------------------------------------------

  /** After a series of receives the positions are counted from that many further on. */
  lemma {:induction false} ShiftSingles(cap: BlockCap, bounded: bool, v: View<Block>, n: nat, i: nat)
    requires Ok(cap, v)
    ensures var s := Singles(cap, bounded, v, n);
      (ReadyAt(cap, s.after, i) <==> ReadyAt(cap, v, i + |s.values|))
      && (ReadyAt(cap, s.after, i) ==> ValueAt(cap, s.after, i) == ValueAt(cap, v, i + |s.values|))
    decreases n
  {
    hide ReadyAt, ValueAt, Single;
    SingleStep(cap, bounded, v);
    if n > 0 && |Single(cap, bounded, v).values| > 0 {
      var one := Single(cap, bounded, v);
      SingleOk(cap, bounded, v);
      ShiftSingles(cap, bounded, one.after, n - 1, i);
      ShiftReady(cap, bounded, v, i + |Singles(cap, bounded, one.after, n - 1).values|);
    }
  }

  /** The blocks stay the same altogether, and so does the lap to come. */
  lemma {:induction false} SinglesBlocks(cap: BlockCap, bounded: bool, v: View<Block>, n: nat)
    requires Ok(cap, v)
    ensures var w := Singles(cap, bounded, v, n).after;
      Blocks(w) == Blocks(v) && w.head.lap + |w.chain| == v.head.lap + |v.chain| && |w.chain| > 0
      && w.chain[|w.chain| - 1] == v.chain[|v.chain| - 1] && Ok(cap, w)
    decreases n
  {
    hide Single, Blocks;
    if n > 0 && |Single(cap, bounded, v).values| > 0 {
      SingleOk(cap, bounded, v);
      SingleBlocks(cap, bounded, v);
      SinglesBlocks(cap, bounded, Single(cap, bounded, v).after, n - 1);
    } else if n > 0 {
      SingleNone(cap, bounded, v);
    }
  }

  lemma SingleBlocks(cap: BlockCap, bounded: bool, v: View<Block>)
    requires Ok(cap, v)
    ensures var w := Single(cap, bounded, v).after;
      Blocks(w) == Blocks(v) && w.head.lap + |w.chain| == v.head.lap + |v.chain| && |w.chain| > 0
      && w.chain[|w.chain| - 1] == v.chain[|v.chain| - 1]
  {
    SingleOk(cap, bounded, v);
    var w := Single(cap, bounded, v).after;
    if |w.chain| < |v.chain| {
      assert v.chain == [v.chain[0]] + w.chain;
      assert (set b | b in v.chain) == {v.chain[0]} + (set b | b in w.chain);
    }
  }

  /** A series of receives delivers the front of the contents, as much as the limit allows. */
  lemma SinglesDeliver(cap: BlockCap, bounded: bool, v: View<Block>, n: nat, contents: seq<Value>, tail: Pos)
    requires Ok(cap, v) && Holds(cap, v, contents) && TailAfter(cap, v, |contents|, tail)
    ensures var k := if n <= |contents| then n else |contents|; var s := Singles(cap, bounded, v, n);
      && s.values == contents[..k] && Ok(cap, s.after)
      && Holds(cap, s.after, contents[k..]) && TailAfter(cap, s.after, |contents| - k, tail)
  {
    hide ReadyAt, ValueAt, Ok, Singles;
    var s, k := Singles(cap, bounded, v, n), if n <= |contents| then n else |contents|;
    SinglesExact(cap, bounded, v, n);
    assert ReadyAt(cap, v, |s.values|) <==> |s.values| < |contents|;
    assert ReadyAt(cap, v, k) <==> k < |contents|;
    forall i: nat
      ensures ReadyAt(cap, s.after, i) <==> i < |contents| - k
      ensures ReadyAt(cap, s.after, i) ==> ValueAt(cap, s.after, i) == contents[k..][i]
    {
      ShiftSingles(cap, bounded, v, n, i);
    }
    TailStays(cap, bounded, v, n, |contents|, tail, k);
  }

  lemma TailStays(cap: BlockCap, bounded: bool, v: View<Block>, n: nat, count: nat, tail: Pos, k: nat)
    requires Ok(cap, v) && TailAfter(cap, v, count, tail) && k <= count && k == |Singles(cap, bounded, v, n).values|
    ensures TailAfter(cap, Singles(cap, bounded, v, n).after, count - k, tail)
  {
    hide Singles, ReadyAt, ValueAt, Ok, Rank, TailAfter, Blocks;
    var w := Singles(cap, bounded, v, n).after;
    SinglesExact(cap, bounded, v, n);
    SinglesBlocks(cap, bounded, v, n);
    RankParts(cap, v.head);
    RankParts(cap, w.head);
    TailMoves(cap, v, w, count, k, tail);
  }

  /** The end of the contents is where it was, counted from the new head. */
  lemma TailMoves(cap: BlockCap, v: View<Block>, w: View<Block>, count: nat, k: nat, tail: Pos)
    requires TailAfter(cap, v, count, tail) && k <= count && w.head.lap + |w.chain| == v.head.lap + |v.chain|
    requires w.head.lap * cap + w.head.off == v.head.lap * cap + v.head.off + k
    ensures TailAfter(cap, w, count - k, tail)
  {
    SameEnd(cap, v.head.lap, v.head.off + count, w.head.lap, w.head.off + (count - k));
  }

  lemma RankParts(cap: BlockCap, p: Pos)
    ensures Rank(cap, p) == p.lap * cap + p.off
  {
    BaseIsProduct(cap, p.lap);
  }

  lemma SameEnd(cap: BlockCap, la: nat, a: nat, lb: nat, b: nat)
    requires a + la * cap == b + lb * cap
    ensures la + a / cap == lb + b / cap && a % cap == b % cap
  {
    EndParts(cap, la, a);
    EndParts(cap, lb, b);
  }

  lemma EndParts(cap: BlockCap, l: nat, a: nat)
    ensures (a + l * cap) / cap == l + a / cap && (a + l * cap) % cap == a % cap
  {
    var q, r := a / cap, a % cap;
    assert a == q * cap + r;
    assert (l + q) * cap == l * cap + q * cap;
    DivModUnique(cap, l + q, r);
  }

  // ---- Pushes keep it ---------------------------------------------------------------------------

  /** A block joins the chain; its slots carry only states of earlier laps. */
  lemma HoldsExtended(cap: BlockCap, v: View<Block>, w: View<Block>, cells: seq<Cell>, contents: seq<Value>)
    requires Ok(cap, v) && Holds(cap, v, contents) && w.head == v.head && w.cells == v.cells + [cells] && |cells| == cap
    requires |w.chain| == |w.cells|
    requires forall j :: 0 <= j < cap ==> cells[j].state < WrittenTag(v.head.lap + |v.cells|)
    ensures Ok(cap, w) && Holds(cap, w, contents)
  {
    forall i: nat
      ensures ReadyAt(cap, w, i) <==> ReadyAt(cap, v, i)
      ensures ReadyAt(cap, w, i) ==> ValueAt(cap, w, i) == ValueAt(cap, v, i)
    {
      var q := (v.head.off + i) / cap;
      if q < |v.cells| { assert w.cells[q] == v.cells[q]; }
    }
    forall i | 0 <= i < |w.cells| && w.cells[i][cap - 1].state == WrittenTag(w.head.lap + i) ensures i + 1 < |w.cells| {
      if i < |v.cells| { assert w.cells[i] == v.cells[i]; }
    }
  }

  /** The slot after the contents is written. */
  lemma HoldsWritten(cap: BlockCap, v: View<Block>, w: View<Block>, contents: seq<Value>, x: Value, q: nat, r: nat)
    requires Ok(cap, v) && Holds(cap, v, contents)
    requires q == (v.head.off + |contents|) / cap && r == (v.head.off + |contents|) % cap
    requires q < |v.cells| && (r + 1 == cap ==> q + 1 < |v.cells|) && w.head == v.head && w.chain == v.chain
    requires w.cells == v.cells[q := v.cells[q][r := Cell(WrittenTag(v.head.lap + q), x)]]
    ensures Ok(cap, w) && Holds(cap, w, contents + [x])
  {
    hide ReadyAt, ValueAt;
    forall i: nat
      ensures ReadyAt(cap, w, i) <==> i <= |contents|
      ensures ReadyAt(cap, w, i) ==> ValueAt(cap, w, i) == (contents + [x])[i]
    {
      WrittenAt(cap, v, w, i, q, r, x);
      SameParts(cap, v.head.off + i, v.head.off + |contents|);
    }
    WrittenOk(cap, v, w, q, r, x);
  }

  /** Writing one slot changes what is ready at its position alone. */
  lemma WrittenAt(cap: BlockCap, v: View<Block>, w: View<Block>, i: nat, q: nat, r: nat, x: Value)
    requires Ok(cap, v) && q < |v.cells| && r < cap && w.head == v.head
    requires w.cells == v.cells[q := v.cells[q][r := Cell(WrittenTag(v.head.lap + q), x)]]
    ensures if (v.head.off + i) / cap == q && (v.head.off + i) % cap == r then
              ReadyAt(cap, w, i) && ValueAt(cap, w, i) == x
            else
              (ReadyAt(cap, w, i) <==> ReadyAt(cap, v, i))
              && (ReadyAt(cap, w, i) ==> ValueAt(cap, w, i) == ValueAt(cap, v, i))
  {
  }

  lemma WrittenOk(cap: BlockCap, v: View<Block>, w: View<Block>, q: nat, r: nat, x: Value)
    requires Ok(cap, v) && q < |v.cells| && r < cap && (r + 1 == cap ==> q + 1 < |v.cells|)
    requires w.head == v.head && w.chain == v.chain
    requires w.cells == v.cells[q := v.cells[q][r := Cell(WrittenTag(v.head.lap + q), x)]]
    ensures Ok(cap, w)
  {
    forall i | 0 <= i < |w.cells| && w.cells[i][cap - 1].state == WrittenTag(w.head.lap + i) ensures i + 1 < |w.cells| {
    }
  }

  lemma SameParts(cap: BlockCap, a: nat, b: nat)
    ensures a / cap == b / cap && a % cap == b % cap ==> a == b
  {
  }

  // ---- The queue --------------------------------------------------------------------------------

  class Queue {
    const cap: BlockCap
    const capacity: Option<nat>
    const rx: Receiver
    var tail: nat            // index word
    var cached: nat          // the head as the producers last saw it
    var tailBlock: Block
    ghost var contents: seq<Value>

    ghost var blocks: set<Block>

    /** What the receiver keeps, the contents, the end of the chain, and states of earlier laps
        everywhere. */
    ghost predicate Valid()
      reads this, rx, rx.senders, rx.chain, set b | b in rx.chain :: b.cells
      reads rx.ready, if rx.spare == null then {} else {rx.spare}
      reads set b | b in blocks :: b.cells
    {
      && rx.Valid() && rx.cap == cap && rx.bounded == capacity.Some?
      && Rank(cap, Split(cap, cached)) <= Rank(cap, rx.State().head)
      && Fed(cap, capacity, rx.State(), contents, Split(cap, tail), tailBlock, blocks)
      && Stale(cap, blocks, NextLap(rx.State()))
    }

    constructor (cap: BlockCap, capacity: Option<nat>)
      requires capacity != Some(0)
      ensures Valid() && contents == [] && this.cap == cap && this.capacity == capacity
    {
      var senders := new WaiterList();
      var receiver := new Receiver(cap, capacity.Some?, senders);
      this.cap, this.capacity, this.rx := cap, capacity, receiver;
      tail, cached, tailBlock, contents, blocks := 0, 0, receiver.headBlock, [], {receiver.headBlock};
      new;
      hide Valid, Receiver.Shape;
      FirstValid();
    }

    lemma FirstValid()
      requires rx.Valid() && rx.cap == cap && rx.bounded == capacity.Some? && capacity != Some(0)
      requires rx.head == 0 && rx.spare == null && rx.ready == [] && |rx.chain| == 1 && rx.headBlock.cells.Length == cap
      requires forall j :: 0 <= j < rx.headBlock.cells.Length ==> rx.headBlock.cells[j].state == 0
      requires tail == 0 && cached == 0 && tailBlock == rx.headBlock && contents == [] && blocks == {rx.headBlock}
      ensures Valid()
    {
      hide Ok, Chained, Pooled, Holds, TailAfter, Rank;
      rx.StateOk();
      StartsEmpty(cap, rx.State());
    }

    /** A receive takes the oldest value; if there is none, the channel is closed and drained or just
        empty, and never busy. */
    method TryRecv(closed: bool) returns (got: Received, woken: seq<Tid>)
      requires Valid()
      modifies `contents, rx, rx.headBlock`start, rx.senders
      ensures Valid()
      ensures if old(contents) == [] then got == Nothing(if closed then Closed else Empty) && contents == []
              else got == Received(old(contents)[0]) && contents == old(contents)[1..]
    {
      hide Fed, Stale, Ok, Single, Singles, Receiver.Shape, Receiver.State, Split, Rank, NextLap;
      rx.StateOk();
      ghost var v := rx.State();
      NothingLeft();
      got, woken := rx.TryRecvNonblocking(closed, tail);
      OneIsSingle(cap, rx.bounded, v);
      FedDeliver(cap, capacity, rx.bounded, v, 1, contents, Split(cap, tail), tailBlock, blocks);
      if got.Received? {
        contents := contents[1..];
      }
    }

    /** With nothing stored there is nothing between the head and the tail. */
    lemma NothingLeft()
      requires Valid()
      ensures contents == [] ==> CountValues(cap, rx.head, tail) == 0
    {
      hide Valid, ItemsBetween, Stocked, TailAfter, Rank, Split, Receiver.State, Receiver.Place, Receiver.Valid,
        Receiver.Shape;
      var pos := if tail % (cap + 1) == cap then tail + 1 else tail;
      ClaimFacts(pos);
      if contents == [] { CountShrinks(cap, rx.head, tail, pos); }
    }

    /** Up to `limit` values, the oldest first, are moved to the end of the buffer; with nothing to
        take the receive takes nothing, and fails if the channel is closed or else parks. */
    method RecvMany(buffer: Buffer, limit: nat, waiters: WaiterList, me: Tid, next: Id, closed: bool)
        returns (done: Polled, future: Recv, woken: seq<Tid>)
      requires Valid() && waiters.Valid() && waiters != rx.senders
      requires forall i :: 0 <= i < |waiters.list| ==> waiters.list[i].id < next
      modifies `contents, rx, (set b | b in rx.chain :: b), buffer, rx.senders, waiters
      ensures Valid() && future.rx == rx && future.waiters == waiters
      ensures var k := if limit <= |old(contents)| then limit else |old(contents)|;
        && buffer.items == old(buffer.items) + old(contents)[..k] && contents == old(contents)[k..]
        && done == if k > 0 || limit == 0 then Ready(k) else if closed then Failed else Pending(false)
      ensures future.Left(old(waiters.list), done.Pending?, me, next)
    {
      hide Fed, Stale, Ok, Singles, Receiver.Shape, Receiver.State, Split, Rank, NextLap, Recv.Left;
      rx.StateOk();
      ghost var v := rx.State();
      NothingLeft();
      done, future, woken := rx.RecvMany(buffer, limit, waiters, me, next, closed, tail);
      FedDeliver(cap, capacity, rx.bounded, v, limit, contents, Split(cap, tail), tailBlock, blocks);
      contents := contents[if limit <= |contents| then limit else |contents|..];
    }

    /** A block for the chain: the spare, the last pooled one, or a new one. */
    method TakeBlock() returns (b: Block)
      requires rx.Shape() && rx.cap == cap && Blocks(rx.State()) == blocks && Stale(cap, blocks, NextLap(rx.State()))
      modifies rx`spare, rx`ready
      ensures rx.Shape() && b !in rx.chain && b !in rx.ready && b != rx.spare
      ensures (b in blocks && b.start == old(b.start)) || (fresh(b) && fresh(b.cells))
      ensures rx.State().(spare := None, ready := []) == old(rx.State()).(spare := None, ready := [])
      ensures Blocks(rx.State()) + {b} == blocks + {b}
      ensures b.cells.Length == cap && forall j :: 0 <= j < cap ==> b.cells[j].state < WrittenTag(NextLap(rx.State()))
    {
      hide Ok, Chained, Pooled, CellsOf, Blocks, Stale, Split;
      ghost var v := rx.State();
      if rx.spare != null {
        b := rx.spare;
        SpareTaken(cap, rx.chain, rx.ready, b, v);
        SpareTaken(cap, rx.chain, rx.ready, b, rx.Place());
        StaleBlock(cap, blocks, NextLap(v), b);
        rx.spare := null;
      } else if |rx.ready| > 0 {
        b := rx.ready[|rx.ready| - 1];
        ReadyTaken(cap, rx.chain, rx.ready, v);
        ReadyTaken(cap, rx.chain, rx.ready, rx.Place());
        StaleBlock(cap, blocks, NextLap(v), b);
        rx.ready := rx.ready[..|rx.ready| - 1];
      } else {
        b := new Block(cap);
      }
    }

    /** The producer of a block's last slot installs the block of the next lap. */
    method InstallNext(block: Block, lap: nat)
      requires rx.Shape() && rx.cap == cap && Blocks(rx.State()) == blocks && Stale(cap, blocks, NextLap(rx.State()))
      requires |rx.chain| > 0 && block == tailBlock == rx.chain[|rx.chain| - 1] && lap + 1 == NextLap(rx.State())
      modifies rx`spare, rx`ready, rx`chain, blocks, `tailBlock, `blocks
      ensures rx.Shape() && Blocks(rx.State()) == blocks && Stale(cap, blocks, NextLap(rx.State()))
      ensures rx.State().head == old(rx.State().head) && rx.State().senders == old(rx.State().senders)
      ensures rx.chain == old(rx.chain) + [tailBlock]
        && CellsOf(rx.chain) == old(CellsOf(rx.chain)) + [tailBlock.cells[..]]
      ensures tailBlock.cells.Length == cap
        && forall j :: 0 <= j < cap ==> tailBlock.cells[j].state < WrittenTag(lap + 1)
      ensures blocks == old(blocks) + {tailBlock}
      ensures tailBlock in old(blocks) || (fresh(tailBlock) && fresh(tailBlock.cells))
    {
      hide Ok, Pooled, CellsOf, Blocks, Stale, Chained;
      InBlocks(rx.State());
      var next := TakeBlock();
      PoolApart(rx.chain, rx.ready, rx.spare, block);
      LinkBlock(block, next, lap + 1, rx.chain, rx.head / (cap + 1));
      Append(next);
    }

    /** `tail.block` moves to the block just linked. */
    method Append(next: Block)
      requires Ok(cap, rx.Place()) && rx.cap == cap && |rx.chain| > 0 && rx.headBlock == rx.chain[0]
        && Pooled(rx.chain, rx.ready, rx.spare)
      requires Chained(rx.chain + [next], rx.head / (cap + 1))
      requires CellsOf(rx.chain + [next]) == CellsOf(rx.chain) + [next.cells[..]]
      requires next !in rx.ready && next != rx.spare && Stale(cap, blocks, NextLap(rx.State()))
      requires Blocks(rx.State()) + {next} == blocks + {next}
      requires next in blocks || forall x :: x in blocks ==> x.cells != next.cells
      requires next.cells.Length == cap
        && forall j :: 0 <= j < cap ==> next.cells[j].state < WrittenTag(NextLap(rx.State()))
      modifies rx`chain, `tailBlock, `blocks
      ensures rx.Shape() && Blocks(rx.State()) == blocks && Stale(cap, blocks, NextLap(rx.State()))
      ensures tailBlock == next && rx.chain == old(rx.chain) + [next] && blocks == old(blocks) + {next}
    {
      hide Ok, Pooled, CellsOf, Blocks, Stale, Chained, Split;
      PoolGrows(rx.chain, next, rx.ready, rx.spare);
      ExtendedOk(cap, rx.Place(), next, next.cells[..]);
      StaleGrows(cap, blocks, NextLap(rx.State()), next);
      BlocksGrow(rx.State(), next, next.cells[..]);
      tailBlock := next;
      rx.chain := rx.chain + [next];
      blocks := blocks + {next};
    }

    /** A slot of the chain is written and published. */
    method WriteSlot(block: Block, offset: nat, lap: nat, x: Value, ghost k: nat)
      requires k < |rx.chain| && block == rx.chain[k] && offset < cap && lap < NextLap(rx.State())
      requires Stale(cap, blocks, NextLap(rx.State())) && (forall b :: b in rx.chain ==> b in blocks)
      requires forall i, j :: 0 <= i < j < |rx.chain| ==> rx.chain[i] != rx.chain[j]
      modifies block.cells
      ensures Stale(cap, blocks, NextLap(rx.State()))
      ensures CellsOf(rx.chain) ==
        old(CellsOf(rx.chain))[k := old(CellsOf(rx.chain))[k][offset := Cell(WrittenTag(lap), x)]]
    {
      ghost var was := CellsOf(rx.chain);
      block.cells[offset] := Cell(WrittenTag(lap), x);
      forall i | 0 <= i < |rx.chain|
        ensures CellsOf(rx.chain)[i] == was[k := was[k][offset := Cell(WrittenTag(lap), x)]][i]
      {
        if i != k { assert rx.chain[i].cells != block.cells; }
      }
    }

    /** A value goes in after the others, unless the queue is full. */
    method Push(x: Value) returns (ok: bool)
      requires Valid()
      modifies this, rx, blocks, tailBlock.cells
      ensures Valid()
      ensures ok == (capacity.None? || |old(contents)| < capacity.value)
      ensures contents == if ok then old(contents) + [x] else old(contents)
    {
      hide Valid;
      var pos;
      ok, pos := Claim();
      if ok {
        Store(x, pos);
      }
    }

    /** Skips a sentinel under the tail and checks the capacity, against the cached head first.
        Returns the position to claim. */
    method Claim() returns (ok: bool, pos: nat)
      requires Valid()
      modifies `tail, `cached
      ensures Valid() && tail == pos
      ensures ok == (capacity.None? || |contents| < capacity.value)
      ensures pos % (cap + 1) < cap
    {
      hide Valid, Stocked, TailAfter, Split, Rank, ItemsBetween;
      pos := if tail % (cap + 1) == cap then tail + 1 else tail;
      ClaimFacts(pos);
      tail := pos;
      ok := true;
      if capacity.Some? && ItemsBetween(cap, cached, pos) >= capacity.value {
        if ItemsBetween(cap, rx.head, pos) >= capacity.value {
          ok := false;
        } else {
          cached := rx.head;
        }
      }
      StockedValid();
    }

    /** What the producer counts: from the real head exactly the values stored, from the cached head
        no fewer. */
    lemma ClaimFacts(pos: nat)
      requires Valid() && pos == if tail % (cap + 1) == cap then tail + 1 else tail
      ensures Stocked(contents) && rx.senders.Valid() && rx.bounded == capacity.Some? && pos % (cap + 1) < cap
      ensures TailAfter(cap, rx.State(), |contents|, Split(cap, pos))
      ensures capacity.Some? ==> 0 < capacity.value && |contents| <= capacity.value
      ensures ItemsBetween(cap, rx.head, pos) == |contents| && ItemsBetween(cap, cached, pos) >= |contents|
      ensures Rank(cap, Split(cap, cached)) <= Rank(cap, rx.State().head) == Rank(cap, Split(cap, rx.head))
    {
      hide Ok, Chained, Pooled, Stale, Holds, Rank, CellsOf;
      rx.StateOk();
      NextPos(cap, rx.State(), |contents|, tail);
      CountWords(cap, cached, pos);
      CountWords(cap, rx.head, pos);
    }

    /** The claimed position is found in the last block; its value is written, after the next block
        is installed if the position is the block's last. */
    method Store(x: Value, pos: nat)
      requires Valid() && tail == pos && pos % (cap + 1) < cap && (capacity.Some? ==> |contents| < capacity.value)
      modifies this, rx, blocks, tailBlock.cells
      ensures Valid() && contents == old(contents) + [x]
    {
      hide Valid, Stocked, TailAfter, Rank, Receiver.State, Receiver.Place;
      ghost var last := |rx.chain| - 1;
      ValidStocked();
      var block, offset, lap := tailBlock, pos % (cap + 1), pos / (cap + 1);
      Prepare(block, offset, lap);
      tail := pos + 1;
      Publish(block, offset, lap, x, contents, last);
      contents := contents + [x];
      TailPast(pos, last);
      StockedValid();
    }

    /** The chain holds `values`, and the blocks and their slots are as they should be. */
    ghost predicate Stocked(values: seq<Value>)
      reads `blocks, `tailBlock, rx, rx.senders, rx.chain, set b | b in rx.chain :: b.cells
      reads rx.ready, if rx.spare == null then {} else {rx.spare}
      reads set b | b in blocks :: b.cells
    {
      && rx.Shape() && rx.cap == cap && Ok(cap, rx.State()) && Holds(cap, rx.State(), values)
      && Blocks(rx.State()) == blocks && Stale(cap, blocks, NextLap(rx.State()))
      && |rx.chain| > 0 && tailBlock == rx.chain[|rx.chain| - 1]
    }

    lemma ValidStocked()
      requires Valid() && tail % (cap + 1) < cap
      ensures Stocked(contents) && tailBlock in blocks && rx.senders.Valid() && rx.cap == cap
      ensures rx.bounded == capacity.Some? && Rank(cap, Split(cap, cached)) <= Rank(cap, rx.State().head)
      ensures |rx.chain| > 0 && (rx.State().head.off + |contents|) / cap == |rx.chain| - 1
      ensures (rx.State().head.off + |contents|) % cap == tail % (cap + 1)
      ensures tail / (cap + 1) + 1 == rx.State().head.lap + |rx.chain|
    {
      hide Ok, Receiver.Shape, Stale, Holds, Rank, CellsOf;
      rx.StateOk();
      HeadOff(cap, rx.State());
      NextPos(cap, rx.State(), |contents|, tail);
    }

    /** After a push the tail is right after the contents again. */
    lemma TailPast(pos: nat, k: nat)
      requires Stocked(contents) && |contents| > 0 && tail == pos + 1
      requires k == (rx.State().head.off + (|contents| - 1)) / cap
      requires pos % (cap + 1) == (rx.State().head.off + (|contents| - 1)) % cap
      requires pos / (cap + 1) == rx.State().head.lap + k
      requires |rx.chain| == k + 1 + (if pos % (cap + 1) + 1 == cap then 1 else 0)
      ensures TailAfter(cap, rx.State(), |contents|, Split(cap, tail))
    {
      hide Ok, Receiver.Shape, Stale, Holds, Blocks;
      TailNext(cap, rx.State(), rx.State().head.off + (|contents| - 1), pos, k, pos % (cap + 1));
    }

    lemma StockedValid()
      requires Stocked(contents) && rx.senders.Valid() && rx.bounded == capacity.Some?
      requires Rank(cap, Split(cap, cached)) <= Rank(cap, rx.State().head)
      requires TailAfter(cap, rx.State(), |contents|, Split(cap, tail))
      requires capacity.Some? ==> 0 < capacity.value && |contents| <= capacity.value
      ensures Valid()
    {
      hide Ok, Receiver.Shape, Stale, Holds, Rank, CellsOf, Blocks, TailAfter, Split;
    }

    /** The producer of a block's last slot has installed the next block. */
    method Prepare(block: Block, offset: nat, lap: nat)
      requires Stocked(contents) && block == tailBlock && lap + 1 == rx.State().head.lap + |rx.chain|
      modifies rx`spare, rx`ready, rx`chain, blocks, `tailBlock, `blocks
      ensures Stocked(contents) && rx.State().head == old(rx.State().head) && rx.head == old(rx.head)
      ensures |rx.chain| == old(|rx.chain|) + (if offset + 1 == cap then 1 else 0)
      ensures rx.chain[old(|rx.chain|) - 1] == block
    {
      hide Ok, Receiver.Shape, Stale, Holds, Blocks, CellsOf;
      ghost var v := rx.State();
      if offset + 1 == cap {
        InstallNext(block, lap);
        HoldsExtended(cap, v, rx.State(), tailBlock.cells[..], contents);
      }
    }

    /** The value of the claimed position is written and published. */
    method Publish(block: Block, offset: nat, lap: nat, x: Value, ghost values: seq<Value>, ghost k: nat)
      requires Stocked(values) && k < |rx.chain| && block == rx.chain[k] && lap == rx.State().head.lap + k
      requires k == (rx.State().head.off + |values|) / cap && offset == (rx.State().head.off + |values|) % cap
      requires offset + 1 == cap ==> k + 1 < |rx.chain|
      modifies block.cells
      ensures Stocked(values + [x]) && rx.State().head == old(rx.State().head)
    {
      hide Ok, Stale, Holds, Blocks, CellsOf, Chained, Pooled;
      ghost var v := rx.State();
      InBlocks(v);
      ChainDistinct(rx.chain, rx.head / (cap + 1));
      WriteSlot(block, offset, lap, x, k);
      HoldsWritten(cap, v, rx.State(), values, x, k, offset);
      SameOk(cap, rx.State());
      SameBlocks(v, rx.State());
    }
  }

  lemma CountShrinks(cap: BlockCap, head: nat, tail: nat, pos: nat)
    requires tail <= pos <= tail + 1 && ItemsBetween(cap, head, pos) == 0
    ensures CountValues(cap, head, tail) == 0
  {
    ItemsBetweenCounts(cap, head, pos);
  }

  lemma HeadOff(cap: BlockCap, v: View<Block>)
    requires Ok(cap, v)
    ensures v.head.off < cap
  {
  }

  lemma SameBlocks(v: View<Block>, w: View<Block>)
    requires v.chain == w.chain && v.ready == w.ready && v.spare == w.spare
    ensures Blocks(v) == Blocks(w)
  {
  }

  lemma ChainDistinct(chain: seq<Block>, lap: nat)
    requires Chained(chain, lap)
    ensures forall i, j :: 0 <= i < j < |chain| ==> chain[i] != chain[j]
  {
  }

  lemma SameOk(cap: BlockCap, v: View<Block>)
    ensures Ok(cap, v) == Ok(cap, v.(senders := []))
  {
  }

  /** Where the next claim is: right after the contents. */
  lemma NextPos(cap: BlockCap, v: View<Block>, n: nat, tail: nat)
    requires TailAfter(cap, v, n, Split(cap, tail)) && v.head.off <= cap
    ensures var pos := if tail % (cap + 1) == cap then tail + 1 else tail; var e := v.head.off + n;
      && Split(cap, pos) == Pos(v.head.lap + e / cap, e % cap)
      && Rank(cap, Split(cap, pos)) == Rank(cap, v.head) + n
  {
    hide Rank;
    SplitWord(cap, tail);
    if tail % (cap + 1) == cap {
      WordNext(cap, Split(cap, tail));
      WordSplit(cap, Next(cap, Split(cap, tail)));
    }
    EndRank(cap, v.head, n);
  }

  lemma EndRank(cap: BlockCap, head: Pos, n: nat)
    ensures var e := head.off + n; Rank(cap, Pos(head.lap + e / cap, e % cap)) == Rank(cap, head) + n
  {
    hide Rank;
    var e := head.off + n;
    var q, r := e / cap, e % cap;
    RankParts(cap, head);
    RankParts(cap, Pos(head.lap + q, r));
    assert e == q * cap + r;
    assert (head.lap + q) * cap == head.lap * cap + q * cap;
  }

  /** The count the producer makes, of index words, is the number of positions between. */
  lemma CountWords(cap: BlockCap, head: nat, pos: nat)
    ensures ItemsBetween(cap, head, pos) == Items(cap, Split(cap, head), Split(cap, pos))
  {
    SplitWord(cap, head);
    SplitWord(cap, pos);
    ItemsBetweenIsItems(cap, Split(cap, head), Split(cap, pos));
  }

  /** One position further on is the next slot, or the sentinel before the next block. */
  lemma TailNext(cap: BlockCap, w: View<Block>, e: nat, pos: nat, q: nat, r: nat)
    requires q == e / cap && r == e % cap && e >= w.head.off
    requires pos % (cap + 1) == r && pos / (cap + 1) == w.head.lap + q
    requires |w.chain| == q + 1 + (if r + 1 == cap then 1 else 0)
    ensures TailAfter(cap, w, e + 1 - w.head.off, Split(cap, pos + 1))
  {
    NextWord(cap, pos);
    NextEnd(cap, e);
  }

  lemma NextEnd(cap: BlockCap, e: nat)
    ensures e % cap + 1 == cap ==> (e + 1) / cap == e / cap + 1 && (e + 1) % cap == 0
    ensures e % cap + 1 < cap ==> (e + 1) / cap == e / cap && (e + 1) % cap == e % cap + 1
  {
    var q, r := e / cap, e % cap;
    assert e == q * cap + r;
    if r + 1 == cap {
      assert e + 1 == (q + 1) * cap + 0;
      DivModUnique(cap, q + 1, 0);
    } else {
      DivModUnique(cap, q, r + 1);
    }
  }

  lemma NextWord(cap: BlockCap, w: nat)
    ensures Split(cap, w + 1) == Next(cap, Split(cap, w))
  {
    SplitWord(cap, w);
    WordNext(cap, Split(cap, w));
    WordSplit(cap, Next(cap, Split(cap, w)));
  }

  /** The new block is linked behind the last one, its start stored last. */
  method LinkBlock(block: Block, next: Block, start: nat, ghost chain: seq<Block>, ghost lap: nat)
    requires Chained(chain, lap) && start == lap + |chain| && |chain| > 0 && block == chain[|chain| - 1]
      && next !in chain
    modifies block`next, next`prev, next`next, next`start
    ensures Chained(chain + [next], lap) && CellsOf(chain + [next]) == CellsOf(chain) + [next.cells[..]]
  {
    next.prev := block;
    next.next := null;
    next.start := Some(start);
    block.next := next;
    ChainGrows(chain, next, lap);
  }

  lemma InBlocks(v: View<Block>)
    ensures forall b :: b in v.chain ==> b in Blocks(v)
  {
  }

  lemma PoolGrows(chain: seq<Block>, next: Block, ready: seq<Block>, spare: Block?)
    requires Pooled(chain, ready, spare) && next !in ready && next != spare
    ensures Pooled(chain + [next], ready, spare)
  {
  }

  lemma ExtendedOk(cap: BlockCap, v: View<Block>, b: Block, cells: seq<Cell>)
    requires Ok(cap, v) && |cells| == cap && forall j :: 0 <= j < cap ==> cells[j].state < WrittenTag(NextLap(v))
    ensures Ok(cap, v.(chain := v.chain + [b], cells := v.cells + [cells]))
  {
  }

  lemma StaleGrows(cap: BlockCap, blocks: set<Block>, next: nat, b: Block)
    requires Stale(cap, blocks, next) && b.cells.Length == cap
    requires b in blocks || forall x :: x in blocks ==> x.cells != b.cells
    requires forall j :: 0 <= j < cap ==> b.cells[j].state < WrittenTag(next)
    ensures Stale(cap, blocks + {b}, next + 1)
  {
  }

  lemma BlocksGrow(v: View<Block>, b: Block, cells: seq<Cell>)
    ensures Blocks(v.(chain := v.chain + [b], cells := v.cells + [cells])) == Blocks(v) + {b}
  {
    assert (set x | x in v.chain + [b]) == (set x | x in v.chain) + {b};
  }

  /** A block is linked behind the last one. */
  lemma ChainGrows(chain: seq<Block>, next: Block, lap: nat)
    requires |chain| > 0 && next !in chain && next.next == null && next.start == Some(lap + |chain|)
    requires forall i :: 0 <= i < |chain| - 1 ==> chain[i].next == Following(chain, i)
    requires chain[|chain| - 1].next == next
    requires forall i :: 0 <= i < |chain| ==> chain[i].start == Some(lap + i)
    requires forall i, j :: 0 <= i < j < |chain| ==> chain[i] != chain[j]
    ensures Chained(chain + [next], lap) && CellsOf(chain + [next]) == CellsOf(chain) + [next.cells[..]]
  {
    var longer := chain + [next];
    forall i | 0 <= i < |longer| ensures longer[i].next == Following(longer, i) && longer[i].start == Some(lap + i) {
      if i < |chain| - 1 { assert longer[i] == chain[i] && Following(longer, i) == Following(chain, i); }
    }
  }

  lemma SpareTaken(cap: BlockCap, chain: seq<Block>, ready: seq<Block>, spare: Block, v: View<Block>)
    requires Pooled(chain, ready, spare) && v.spare == Some(spare)
    ensures Pooled(chain, ready, null) && spare !in chain && spare !in ready
    ensures Blocks(v.(spare := None)) + {spare} == Blocks(v) && Ok(cap, v) == Ok(cap, v.(spare := None))
  {
  }

  lemma ReadyTaken(cap: BlockCap, chain: seq<Block>, ready: seq<Block>, v: View<Block>)
    requires Pooled(chain, ready, null) && v.ready == ready && |ready| > 0
    ensures var (b, rest) := (ready[|ready| - 1], ready[..|ready| - 1]);
      && Pooled(chain, rest, null) && b !in chain && b !in rest
      && Blocks(v.(ready := rest)) + {b} == Blocks(v) && Ok(cap, v) == Ok(cap, v.(ready := rest))
  {
    var b, rest := ready[|ready| - 1], ready[..|ready| - 1];
    assert ready == rest + [b];
    assert (set x | x in ready) == (set x | x in rest) + {b};
  }

  lemma StaleBlock(cap: BlockCap, blocks: set<Block>, next: nat, b: Block)
    requires Stale(cap, blocks, next) && b in blocks
    ensures b.cells.Length == cap && forall j :: 0 <= j < cap ==> b.cells[j].state < WrittenTag(next)
  {
  }

  lemma OneIsSingle(cap: BlockCap, bounded: bool, v: View<Block>)
    requires Ok(cap, v)
    ensures Singles(cap, bounded, v, 1).after == Single(cap, bounded, v).after
    ensures Singles(cap, bounded, v, 1).values == Single(cap, bounded, v).values
    ensures |Single(cap, bounded, v).values| <= 1
  {
    SingleOk(cap, bounded, v);
  }

  lemma FedDeliver(cap: BlockCap, capacity: Option<nat>, bounded: bool, v: View<Block>, n: nat, contents: seq<Value>,
                   tail: Pos, tailBlock: Block, blocks: set<Block>)
    requires Ok(cap, v) && Fed(cap, capacity, v, contents, tail, tailBlock, blocks)
    ensures var k := if n <= |contents| then n else |contents|; var s := Singles(cap, bounded, v, n);
      && s.values == contents[..k] && NextLap(s.after) == NextLap(v) && Rank(cap, s.after.head) >= Rank(cap, v.head)
      && Fed(cap, capacity, s.after, contents[k..], tail, tailBlock, blocks)
  {
    hide Singles, Ok, Holds, TailAfter, Blocks;
    SinglesDeliver(cap, bounded, v, n, contents, tail);
    SinglesBlocks(cap, bounded, v, n);
    SinglesExact(cap, bounded, v, n);
  }

  lemma StartsEmpty(cap: BlockCap, v: View<Block>)
    requires Ok(cap, v) && v.head == Pos(0, 0) && |v.cells| == 1
      && forall j :: 0 <= j < cap ==> v.cells[0][j].state == 0
    ensures Holds(cap, v, []) && TailAfter(cap, v, 0, Pos(0, 0))
  {
    DivModUnique(cap, 0, 0);
    forall i: nat ensures !ReadyAt(cap, v, i) {
      if i / cap == 0 { assert v.cells[0][i % cap].state == 0; }
    }
  }
}
