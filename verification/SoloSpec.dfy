/**
  The exclusive receive path on values: what a single receive and a batch do to the head, the
  blocks, the pool and the waiting senders, and how the two compare.
*/
module SoloSpec {
  import opened Basics
  import opened Positions
  import opened Waiters

  /** A slot: its state word and its value. */
  datatype Cell = Cell(state: nat, value: Value)

  /** What a receiver works on: the head, the chain of blocks from the head's on with their cells,
      the pooled blocks, and the senders waiting for room. */
  datatype View<B> = View(
    head: Pos,
    chain: seq<B>,
    cells: seq<seq<Cell>>,
    spare: Option<B>,
    ready: seq<B>,
    senders: seq<Entry>)

  /** The values delivered, in order, and the senders woken, in order. */
  datatype Taken<B> = Taken(after: View<B>, values: seq<Value>, woken: seq<Tid>)

  /** The head rests on a value position of the first block; a block whose last value is written
      has a successor. */
  ghost predicate Ok<B>(cap: BlockCap, v: View<B>) {
    && |v.chain| == |v.cells| > 0 && v.head.off < cap
    && (forall i :: 0 <= i < |v.cells| ==> |v.cells[i]| == cap)
    && (forall i :: 0 <= i < |v.cells| && v.cells[i][cap - 1].state == WrittenTag(v.head.lap + i) ==> i + 1 < |v.cells|)
  }

  function Recycled<B>(v: View<B>, b: B): View<B> {
    if v.spare.None? then v.(spare := Some(b)) else v.(ready := v.ready + [b])
  }

  /** The head moves over `count` values of its block; past the last one it enters the next block
      and the old one is recycled. */
  function Advance<B>(cap: BlockCap, v: View<B>, count: nat): View<B>
    requires |v.chain| == |v.cells| > 0
  {
    if v.head.off + count == cap then
      Recycled(v.(head := Pos(v.head.lap + 1, 0), chain := v.chain[1..], cells := v.cells[1..]), v.chain[0])
    else v.(head := Pos(v.head.lap, v.head.off + count))
  }

  /** The length of the written run of at most `limit` cells from `i` on. */
  function Run(cells: seq<Cell>, i: nat, tag: nat, limit: nat): (n: nat)
    requires i + limit <= |cells|
    ensures n <= limit && forall j :: i <= j < i + n ==> cells[j].state == tag
    ensures n < limit ==> cells[i + n].state != tag
    decreases limit
  {
    if limit == 0 || cells[i].state != tag then 0 else 1 + Run(cells, i + 1, tag, limit - 1)
  }

  function ValuesOf(cells: seq<Cell>): (vs: seq<Value>)
    ensures |vs| == |cells| && forall i :: 0 <= i < |vs| ==> vs[i] == cells[i].value
  {
    seq(|cells|, i requires 0 <= i < |cells| => cells[i].value)
  }

  /** Up to `n` waiting senders are notified, in a bounded channel. */
  function Notified<B>(bounded: bool, v: View<B>, n: nat, values: seq<Value>): Taken<B> {
    if bounded then Taken(v.(senders := Rest(v.senders, n)), values, Wakers(First(v.senders, n)))
    else Taken(v, values, [])
  }

  /** How many values a batch of at most `limit` takes: the written run from the head on, within the
      head's block. */
  function BatchCount<B>(cap: BlockCap, v: View<B>, limit: nat): (n: nat)
    requires Ok(cap, v)
    ensures n <= limit && v.head.off + n <= cap
  {
    Run(v.cells[0], v.head.off, WrittenTag(v.head.lap), if limit <= cap - v.head.off then limit else cap - v.head.off)
  }

  function BatchValues<B>(cap: BlockCap, v: View<B>, limit: nat): (values: seq<Value>)
    requires Ok(cap, v)
    ensures |values| == BatchCount(cap, v, limit)
  {
    ValuesOf(v.cells[0][v.head.off..v.head.off + BatchCount(cap, v, limit)])
  }

  /** The written values of the head's block, at most `limit` of them, taken with one move of the
      head and one notification. */
  function Batch<B>(cap: BlockCap, bounded: bool, v: View<B>, limit: nat): Taken<B>
    requires Ok(cap, v)
  {
    var count := BatchCount(cap, v, limit);
    if count == 0 then Taken(v, [], [])
    else Notified(bounded, Advance(cap, v, count), count, BatchValues(cap, v, limit))
  }

  /** One receive, followed by its notification. */
  function Single<B>(cap: BlockCap, bounded: bool, v: View<B>): Taken<B>
    requires Ok(cap, v)
  {
    var cell := v.cells[0][v.head.off];
    if cell.state != WrittenTag(v.head.lap) then Taken(v, [], [])
    else Notified(bounded, Advance(cap, v, 1), 1, [cell.value])
  }

  lemma AdvanceOk<B>(cap: BlockCap, v: View<B>, count: nat)
    requires Ok(cap, v) && v.head.off + count <= cap
    requires v.head.off + count == cap ==> v.cells[0][cap - 1].state == WrittenTag(v.head.lap)
    ensures Ok(cap, Advance(cap, v, count))
  {
    var v' := Advance(cap, v, count);
    if v.head.off + count == cap {
      forall i | 0 <= i < |v'.cells| && v'.cells[i][cap - 1].state == WrittenTag(v'.head.lap + i)
        ensures i + 1 < |v'.cells|
      {
        assert v'.cells[i] == v.cells[i + 1];
      }
    }
  }

  lemma SingleOk<B>(cap: BlockCap, bounded: bool, v: View<B>)
    requires Ok(cap, v)
    ensures Ok(cap, Single(cap, bounded, v).after) && |Single(cap, bounded, v).values| <= 1
  {
    if v.cells[0][v.head.off].state == WrittenTag(v.head.lap) {
      AdvanceOk(cap, v, 1);
    }
  }

  /** Single receives, each followed by its own notification, until `n` values are delivered or
      nothing is ready. */
  function Singles<B>(cap: BlockCap, bounded: bool, v: View<B>, n: nat): Taken<B>
    requires Ok(cap, v)
    decreases n
  {
    if n == 0 then Taken(v, [], [])
    else
      var one := Single(cap, bounded, v);
      if |one.values| == 0 then one
      else
        SingleOk(cap, bounded, v);
        var more := Singles(cap, bounded, one.after, n - 1);
        Taken(more.after, one.values + more.values, one.woken + more.woken)
  }

  // ---- A batch is so many singles ---------------------------------------------------------------

  /** Taking `n` values of a block one by one, moving the head and notifying each time, is taking
      them at once. */
  lemma {:induction false} RunOfSingles<B>(cap: BlockCap, bounded: bool, v: View<B>, n: nat)
    requires Ok(cap, v) && v.head.off + n <= cap
    requires forall j :: v.head.off <= j < v.head.off + n ==> v.cells[0][j].state == WrittenTag(v.head.lap)
    requires n > 0
    ensures Singles(cap, bounded, v, n) == RunTaken(cap, bounded, v, n)
    decreases n
  {
    hide Single, RunTaken;
    if n == 1 {
      OneSingle(cap, bounded, v);
    } else {
      var one := Single(cap, bounded, v);
      SingleOk(cap, bounded, v);
      SingleInside(cap, bounded, v);
      RunOfSingles(cap, bounded, one.after, n - 1);
      RunSplits(cap, bounded, v, n);
    }
  }

  /** `n` values of the head's block taken at once. */
  function RunTaken<B>(cap: BlockCap, bounded: bool, v: View<B>, n: nat): Taken<B>
    requires Ok(cap, v) && v.head.off + n <= cap
  {
    Notified(bounded, Advance(cap, v, n), n, ValuesOf(v.cells[0][v.head.off..v.head.off + n]))
  }

  /** A receive that stays inside its block only moves the head and notifies. */
  lemma SingleInside<B>(cap: BlockCap, bounded: bool, v: View<B>)
    requires Ok(cap, v) && v.head.off + 1 < cap && v.cells[0][v.head.off].state == WrittenTag(v.head.lap)
    ensures Single(cap, bounded, v) == Taken(
      v.(head := Pos(v.head.lap, v.head.off + 1), senders := if bounded then Rest(v.senders, 1) else v.senders),
      [v.cells[0][v.head.off].value], if bounded then Wakers(First(v.senders, 1)) else [])
  {
  }

  lemma RunSplits<B>(cap: BlockCap, bounded: bool, v: View<B>, n: nat)
    requires Ok(cap, v) && v.head.off + n <= cap && n > 1
    ensures var one := v.(head := Pos(v.head.lap, v.head.off + 1), senders := if bounded then Rest(v.senders,
      1) else v.senders);
      && Ok(cap, one)
      && var more := RunTaken(cap, bounded, one, n - 1);
         RunTaken(cap, bounded, v, n) == Taken(more.after, [v.cells[0][v.head.off].value] + more.values,
                                               (if bounded then Wakers(First(v.senders, 1)) else []) + more.woken)
  {
    MoreNotified(v.senders, n);
    assert ValuesOf(v.cells[0][v.head.off..v.head.off + n]) ==
      [v.cells[0][v.head.off].value] + ValuesOf(v.cells[0][v.head.off + 1..v.head.off + n]);
  }

  lemma OneSingle<B>(cap: BlockCap, bounded: bool, v: View<B>)
    requires Ok(cap, v) && v.cells[0][v.head.off].state == WrittenTag(v.head.lap)
    ensures Singles(cap, bounded, v, 1) == RunTaken(cap, bounded, v, 1)
  {
    var one := Single(cap, bounded, v);
    SingleOk(cap, bounded, v);
    assert ValuesOf(v.cells[0][v.head.off..v.head.off + 1]) == one.values;
    assert one.values + [] == one.values && one.woken + [] == one.woken;
  }

  lemma MoreNotified(list: seq<Entry>, n: nat)
    requires n > 0
    ensures Rest(Rest(list, 1), n - 1) == Rest(list, n)
    ensures Wakers(First(list, 1)) + Wakers(First(Rest(list, 1), n - 1)) == Wakers(First(list, n))
  {
    ManyIsOneByOne(list, n);
    ManyIsOneByOne(Rest(list, 1), n - 1);
  }

  lemma NoSingles<B>(cap: BlockCap, bounded: bool, v: View<B>)
    requires Ok(cap, v)
    ensures Singles(cap, bounded, v, 0) == Taken(v, [], [])
  {
  }

  lemma NotifiedOk<B>(cap: BlockCap, bounded: bool, v: View<B>, n: nat, values: seq<Value>)
    requires Ok(cap, v)
    ensures Ok(cap, Notified(bounded, v, n, values).after) && Notified(bounded, v, n, values).values == values
  {
  }

  /** A batch of `k` values leaves exactly what `k` single receives leave, each followed by its own
      notification: the same values, head, chain, pool, waiting senders and wake-ups. */
  lemma BatchIsSingles<B>(cap: BlockCap, bounded: bool, v: View<B>, limit: nat)
    requires Ok(cap, v)
    ensures var b := Batch(cap, bounded, v, limit);
      Ok(cap, b.after) && |b.values| <= limit && b == Singles(cap, bounded, v, |b.values|)
  {
    hide Single, Singles, Advance, Notified;
    var max := if limit <= cap - v.head.off then limit else cap - v.head.off;
    var count := Run(v.cells[0], v.head.off, WrittenTag(v.head.lap), max);
    if count == 0 {
      NoSingles(cap, bounded, v);
    } else {
      RunOfSingles(cap, bounded, v, count);
      AdvanceOk(cap, v, count);
      NotifiedOk(cap, bounded, Advance(cap, v, count), count, ValuesOf(v.cells[0][v.head.off..v.head.off + count]));
    }
  }

  // ---- What a series of receives delivers -------------------------------------------------------

  /** The i-th value position from the head on is written. */
  predicate ReadyAt<B>(cap: BlockCap, v: View<B>, i: nat) {
    var r := v.head.off + i;
    r / cap < |v.cells| && r % cap < |v.cells[r / cap]|
    && v.cells[r / cap][r % cap].state == WrittenTag(v.head.lap + r / cap)
  }

  function ValueAt<B>(cap: BlockCap, v: View<B>, i: nat): Value
    requires ReadyAt(cap, v, i)
  {
    v.cells[(v.head.off + i) / cap][(v.head.off + i) % cap].value
  }

  /** After one receive the positions are counted from one further on. */
  lemma ShiftReady<B>(cap: BlockCap, bounded: bool, v: View<B>, i: nat)
    requires Ok(cap, v) && v.cells[0][v.head.off].state == WrittenTag(v.head.lap)
    ensures var v' := Single(cap, bounded, v).after;
      (ReadyAt(cap, v', i) <==> ReadyAt(cap, v, i + 1))
      && (ReadyAt(cap, v', i) ==> ValueAt(cap, v', i) == ValueAt(cap, v, i + 1))
  {
    hide ReadyAt, ValueAt;
    if v.head.off + 1 == cap {
      SingleAcross(cap, bounded, v);
      ShiftAcross(cap, v, Single(cap, bounded, v).after, i);
    } else {
      SingleInside(cap, bounded, v);
      ShiftInside(cap, v, Single(cap, bounded, v).after, i);
    }
  }

  /** A receive that empties its block enters the next one. */
  lemma SingleAcross<B>(cap: BlockCap, bounded: bool, v: View<B>)
    requires Ok(cap, v) && v.head.off + 1 == cap && v.cells[0][v.head.off].state == WrittenTag(v.head.lap)
    ensures var w := Single(cap, bounded, v).after; w.head == Pos(v.head.lap + 1, 0) && w.cells == v.cells[1..]
  {
  }

  lemma ShiftInside<B>(cap: BlockCap, v: View<B>, w: View<B>, i: nat)
    requires w.head == Pos(v.head.lap, v.head.off + 1) && w.cells == v.cells
    ensures ReadyAt(cap, w, i) <==> ReadyAt(cap, v, i + 1)
    ensures ReadyAt(cap, w, i) ==> ValueAt(cap, w, i) == ValueAt(cap, v, i + 1)
  {
    assert w.head.off + i == v.head.off + (i + 1);
  }

  lemma ShiftAcross<B>(cap: BlockCap, v: View<B>, w: View<B>, i: nat)
    requires |v.cells| > 0 && v.head.off + 1 == cap && w.head == Pos(v.head.lap + 1, 0) && w.cells == v.cells[1..]
    ensures ReadyAt(cap, w, i) <==> ReadyAt(cap, v, i + 1)
    ensures ReadyAt(cap, w, i) ==> ValueAt(cap, w, i) == ValueAt(cap, v, i + 1)
  {
    var q, r := i / cap, i % cap;
    assert i == q * cap + r;
    assert v.head.off + (i + 1) == (q + 1) * cap + r;
    DivModUnique(cap, q + 1, r);
  }

  lemma FirstReady<B>(cap: BlockCap, v: View<B>)
    requires Ok(cap, v)
    ensures ReadyAt(cap, v, 0) <==> v.cells[0][v.head.off].state == WrittenTag(v.head.lap)
    ensures ReadyAt(cap, v, 0) ==> ValueAt(cap, v, 0) == v.cells[0][v.head.off].value
  {
    DivModUnique(cap, 0, v.head.off);
  }

  /** A series of receives delivers the values of consecutive positions from the old head on, stops
      only at its limit or at a position that is not written, and leaves the head just after them. */
  lemma {:induction false} SinglesExact<B>(cap: BlockCap, bounded: bool, v: View<B>, n: nat)
    requires Ok(cap, v)
    ensures var s := Singles(cap, bounded, v, n); var k := |s.values|;
      && k <= n && Ok(cap, s.after)
      && (forall i :: 0 <= i < k ==> ReadyAt(cap, v, i) && s.values[i] == ValueAt(cap, v, i))
      && (k < n ==> !ReadyAt(cap, v, k))
      && Rank(cap, s.after.head) == Rank(cap, v.head) + k
    decreases n
  {
    hide Single, Rank, ReadyAt, ValueAt;
    FirstReady(cap, v);
    SingleStep(cap, bounded, v);
    if n > 0 && v.cells[0][v.head.off].state == WrittenTag(v.head.lap) {
      var one := Single(cap, bounded, v);
      SingleOk(cap, bounded, v);
      SinglesExact(cap, bounded, one.after, n - 1);
      var s, more := Singles(cap, bounded, v, n), Singles(cap, bounded, one.after, n - 1);
      forall i | 0 <= i < |s.values| ensures ReadyAt(cap, v, i) && s.values[i] == ValueAt(cap, v, i) {
        if i > 0 { ShiftReady(cap, bounded, v, i - 1); }
      }
      ShiftReady(cap, bounded, v, |more.values|);
    }
  }

  /** One receive delivers the value at the head and moves on by one position, or does nothing. */
  lemma SingleStep<B>(cap: BlockCap, bounded: bool, v: View<B>)
    requires Ok(cap, v)
    ensures var one := Single(cap, bounded, v);
      if v.cells[0][v.head.off].state == WrittenTag(v.head.lap) then
        one.values == [v.cells[0][v.head.off].value] && Rank(cap, one.after.head) == Rank(cap, v.head) + 1
      else one == Taken(v, [], [])
  {
  }

  /** Series add up. */
  lemma {:induction false} SinglesAdd<B>(cap: BlockCap, bounded: bool, v: View<B>, m: nat, n: nat)
    requires Ok(cap, v) && |Singles(cap, bounded, v, m).values| == m
    ensures Ok(cap, Singles(cap, bounded, v, m).after)
    ensures var a := Singles(cap, bounded, v, m); var b := Singles(cap, bounded, a.after, n);
      Singles(cap, bounded, v, m + n) == Taken(b.after, a.values + b.values, a.woken + b.woken)
    decreases m
  {
    hide Single, Ok, Rank, ReadyAt, ValueAt;
    SinglesExact(cap, bounded, v, m);
    if m == 0 {
      var b := Singles(cap, bounded, v, n);
      assert [] + b.values == b.values && [] + b.woken == b.woken;
    } else {
      var one := Single(cap, bounded, v);
      SingleOk(cap, bounded, v);
      SinglesAdd(cap, bounded, one.after, m - 1, n);
      var a, a1 := Singles(cap, bounded, v, m), Singles(cap, bounded, one.after, m - 1);
      var b := Singles(cap, bounded, a.after, n);
      assert one.values + (a1.values + b.values) == a.values + b.values;
      assert one.woken + (a1.woken + b.woken) == a.woken + b.woken;
    }
  }

  /** A batch that finds nothing means nothing is ready. */
  lemma BatchNone<B>(cap: BlockCap, bounded: bool, v: View<B>, limit: nat)
    requires Ok(cap, v) && limit > 0 && |Batch(cap, bounded, v, limit).values| == 0
    ensures Singles(cap, bounded, v, limit) == Taken(v, [], []) == Batch(cap, bounded, v, limit)
  {
  }

  lemma SingleNone<B>(cap: BlockCap, bounded: bool, v: View<B>)
    requires Ok(cap, v) && |Single(cap, bounded, v).values| == 0
    ensures Single(cap, bounded, v) == Taken(v, [], [])
  {
  }

  /** A series that was cut short stays as it is for any larger limit. */
  lemma {:induction false} SinglesStop<B>(cap: BlockCap, bounded: bool, v: View<B>, m: nat, n: nat)
    requires Ok(cap, v) && m <= n && |Singles(cap, bounded, v, m).values| < m
    ensures Singles(cap, bounded, v, n) == Singles(cap, bounded, v, m)
    decreases m
  {
    var one := Single(cap, bounded, v);
    SingleOk(cap, bounded, v);
    if |one.values| > 0 {
      SinglesStop(cap, bounded, one.after, m - 1, n - 1);
    }
  }
}
