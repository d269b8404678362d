/**
  Queue positions.

  The queue addresses its slots by unbounded index words.  Every use of a word splits it into
  the lap (the high part) and the offset inside the lap (the low part); the last offset of a
  lap is a sentinel that never holds a value.  A position is kept here as that pair, for a
  block capacity `cap`, so that a lap covers `cap + 1` words.  The lemmas at the end tie the
  pairs back to the words: adding one, comparing and counting agree with the arithmetic on
  words.
*/
module Positions {
  /** Values per block.  The program uses 3 or 63; only that there are two is needed. */
  type BlockCap = n: nat | 2 <= n witness 63

  datatype Pos = Pos(lap: nat, off: nat)

  /** The last position of a lap: skipped by everyone, never holds a value. */
  predicate IsSentinel(cap: nat, p: Pos) {
    p.off == cap
  }

  predicate Before(p: Pos, q: Pos) {
    p.lap < q.lap || (p.lap == q.lap && p.off < q.off)
  }

  predicate AtMost(p: Pos, q: Pos) {
    p == q || Before(p, q)
  }

  /** The position one further on. */
  function Next(cap: nat, p: Pos): Pos {
    if p.off == cap then Pos(p.lap + 1, 0) else Pos(p.lap, p.off + 1)
  }

  /** Values in the first `lap` laps. */
  function Base(cap: nat, lap: nat): nat {
    if lap == 0 then 0 else Base(cap, lap - 1) + cap
  }

  /** Number of value positions before `p`. */
  function Rank(cap: nat, p: Pos): nat {
    Base(cap, p.lap) + p.off
  }

  /** Number of value positions in `[head, tail)`, zero when the head is not before the tail. */
  function Items(cap: nat, head: Pos, tail: Pos): nat {
    if Rank(cap, head) <= Rank(cap, tail) then Rank(cap, tail) - Rank(cap, head) else 0
  }

  lemma {:induction false} BaseMonotone(cap: nat, a: nat, b: nat)
    requires a <= b
    ensures Base(cap, a) <= Base(cap, b)
    ensures a < b ==> Base(cap, a) + cap <= Base(cap, b)
    decreases b
  {
    if a < b {
      BaseMonotone(cap, a, b - 1);
    }
  }

  lemma RankMonotone(cap: nat, p: Pos, q: Pos)
    requires p.off <= cap && AtMost(p, q)
    ensures Rank(cap, p) <= Rank(cap, q)
  {
    BaseMonotone(cap, p.lap, q.lap);
  }

  /** Between value positions the rank is a strict order, so it determines the position. */
  lemma RankStrict(cap: nat, p: Pos, q: Pos)
    requires p.off < cap && Before(p, q)
    ensures Rank(cap, p) < Rank(cap, q)
  {
    BaseMonotone(cap, p.lap, q.lap);
  }

  lemma RankInjective(cap: nat, p: Pos, q: Pos)
    requires p.off < cap && q.off < cap && Rank(cap, p) == Rank(cap, q)
    ensures p == q
  {
    if p != q {
      if Before(p, q) { RankStrict(cap, p, q); } else { RankStrict(cap, q, p); }
    }
  }

  lemma RankNext(cap: nat, p: Pos)
    requires p.off <= cap
    ensures Rank(cap, Next(cap, p)) == Rank(cap, p) + if p.off == cap then 0 else 1
  {
  }

  // ---- Index words ------------------------------------------------------------------------------

  /** The index word of a position. */
  function Word(cap: nat, p: Pos): nat {
    p.lap * (cap + 1) + p.off
  }

  /** The lap and offset of an index word. */
  function Split(cap: nat, w: nat): Pos {
    Pos(w / (cap + 1), w % (cap + 1))
  }

  /** The count as the queue computes it, on index words. */
  function ItemsBetween(cap: nat, head: nat, tail: nat): int {
    if head >= tail then 0 else (tail - head) - (tail / (cap + 1) - head / (cap + 1))
  }

  /** The count by its meaning: one for every word of `[head, tail)` that is not a sentinel. */
  function CountValues(cap: nat, head: nat, tail: nat): nat
    decreases tail
  {
    if head >= tail then 0
    else CountValues(cap, head, tail - 1) + if (tail - 1) % (cap + 1) == cap then 0 else 1
  }

  lemma DivModUnique(n: nat, q: nat, r: nat)
    requires r < n
    ensures (q * n + r) / n == q && (q * n + r) % n == r
  {
    var x := q * n + r;
    var q2, r2 := x / n, x % n;
    assert x == q2 * n + r2;
    if q2 < q {
      assert (q - q2) * n == q * n - q2 * n;
      MulAtLeast(q - q2, n);
    } else if q2 > q {
      assert (q2 - q) * n == q2 * n - q * n;
      MulAtLeast(q2 - q, n);
    }
  }

  lemma MulAtLeast(a: nat, n: nat)
    requires a >= 1
    ensures a * n >= n
  {
    assert a * n == (a - 1) * n + n;
  }

  /** Words and positions determine each other. */
  lemma WordSplit(cap: nat, p: Pos)
    requires p.off <= cap
    ensures Split(cap, Word(cap, p)) == p
  {
    DivModUnique(cap + 1, p.lap, p.off);
  }

  lemma SplitWord(cap: nat, w: nat)
    ensures Split(cap, w).off <= cap && Word(cap, Split(cap, w)) == w
  {
  }

  /** Adding one to the word is moving to the next position. */
  lemma WordNext(cap: nat, p: Pos)
    requires p.off <= cap
    ensures Word(cap, Next(cap, p)) == Word(cap, p) + 1
  {
    assert (p.lap + 1) * (cap + 1) == p.lap * (cap + 1) + (cap + 1);
  }

  /** Words are compared as positions are. */
  lemma WordOrder(cap: nat, p: Pos, q: Pos)
    requires p.off <= cap && q.off <= cap
    ensures Before(p, q) <==> Word(cap, p) < Word(cap, q)
  {
    if p.lap < q.lap {
      MulAtLeast(q.lap - p.lap, cap + 1);
      assert (q.lap - p.lap) * (cap + 1) == q.lap * (cap + 1) - p.lap * (cap + 1);
    } else if q.lap < p.lap {
      MulAtLeast(p.lap - q.lap, cap + 1);
      assert (p.lap - q.lap) * (cap + 1) == p.lap * (cap + 1) - q.lap * (cap + 1);
    }
  }

  lemma {:induction false} BaseIsProduct(cap: nat, lap: nat)
    ensures Base(cap, lap) == lap * cap
  {
    if lap > 0 {
      BaseIsProduct(cap, lap - 1);
      assert lap * cap == (lap - 1) * cap + cap;
    }
  }

  /** One word further, the quotient grows exactly when the word left behind is a sentinel. */
  lemma DivStep(cap: nat, w: nat)
    ensures (w + 1) / (cap + 1) == w / (cap + 1) + if w % (cap + 1) == cap then 1 else 0
  {
    var n := cap + 1;
    var q, r := w / n, w % n;
    assert w == q * n + r;
    if r == cap {
      assert w + 1 == (q + 1) * n + 0;
      DivModUnique(n, q + 1, 0);
    } else {
      assert w + 1 == q * n + (r + 1);
      DivModUnique(n, q, r + 1);
    }
  }

  /** The queue's formula counts exactly the non-sentinel words, for every pair of words. */
  lemma {:induction false} ItemsBetweenCounts(cap: nat, head: nat, tail: nat)
    ensures ItemsBetween(cap, head, tail) == CountValues(cap, head, tail)
    decreases tail
  {
    if head < tail {
      ItemsBetweenCounts(cap, head, tail - 1);
      DivStep(cap, tail - 1);
    }
  }

  /** On words of positions the formula is the difference of ranks. */
  lemma ItemsBetweenIsItems(cap: nat, head: Pos, tail: Pos)
    requires head.off <= cap && tail.off <= cap
    ensures ItemsBetween(cap, Word(cap, head), Word(cap, tail)) == Items(cap, head, tail)
  {
    WordOrder(cap, head, tail);
    WordOrder(cap, tail, head);
    WordSplit(cap, head);
    WordSplit(cap, tail);
    BaseIsProduct(cap, head.lap);
    BaseIsProduct(cap, tail.lap);
    assert head.lap * (cap + 1) == head.lap * cap + head.lap;
    assert tail.lap * (cap + 1) == tail.lap * cap + tail.lap;
    if AtMost(tail, head) {
      RankMonotone(cap, tail, head);
    } else {
      RankMonotone(cap, head, tail);
    }
  }

  /** The word in a slot's state once the value of lap `lap` is published; zero before any. */
  function WrittenTag(lap: nat): nat {
    4 * lap + 1
  }

  /** A state word names its lap: two laps never share one, and none is the initial zero. */
  lemma WrittenTagNamesLap(a: nat, b: nat)
    ensures WrittenTag(a) == WrittenTag(b) <==> a == b
    ensures WrittenTag(a) != 0
  {
  }
}
