/**
  How far behind `tail.block` may be.

  The installer of a block stores the block's start before it moves `tail.block`.  A producer with
  an old pointer to a block that is recycled and installed again for the producer's own lap can
  therefore find it before `tail.block` points there: it finds it early.  If the producer of a
  lap's last slot does so, its own installation overtakes the pending one, which then moves
  `tail.block` backwards.

  The invariant below is about the slots from offset `g` on.  It says that no claim of such a slot
  is found early, for as long as few pushes can be in flight (`FewNow`): no pointer of theirs gets
  old enough.  With `g == 0` nothing is found early at all; with `g == cap - 1` no installation is
  overtaken, and `tail.block` never moves backwards.
*/
module TailBlock {
  import opened Basics
  import opened Positions
  import opened QueueModel
  import opened QueueInvariant
  import opened QueueFrames
  import opened QueueStepOk
  import opened QueueTheorems
  import QueueSafety

  /** Between storing the new block's start and moving `tail.block` to it. */
  predicate Linking(pc: Pc) {
    pc.Installing? && (pc.install.LinkNext? || pc.install.MoveTail?)
  }

  predicate Lagging(c: Config, serves: seq<Id>, writer: map<Pos, Tid>, pcs: seq<Pc>) {
    |serves| >= 2 && Pos(|serves| - 2, c.cap - 1) in writer
    && var w := writer[Pos(|serves| - 2, c.cap - 1)]; w < |pcs| && Linking(pcs[w])
  }

  /** The lap `tail.block` has reached. */
  function TailLap(c: Config, serves: seq<Id>, writer: map<Pos, Tid>, pcs: seq<Pc>): int {
    |serves| - if Lagging(c, serves, writer, pcs) then 2 else 1
  }

  /** The block a lookup has in hand. */
  function InHand(pc: Pc): Option<Id> {
    match pc
    case Finding(_, CheckFast(b)) => Some(b)
    case Finding(_, CheckSlow(b, _)) => Some(b)
    case Finding(_, WalkPrev(b, _)) => Some(b)
    case _ => None
  }

  /** Block `b` served lap `lap - 1` or a later one, up to lap `last`. */
  ghost predicate Near(serves: seq<Id>, lap: nat, last: int, b: Id) {
    exists j :: 0 <= j < |serves| && lap <= j + 1 && j <= last && serves[j] == b
  }

  /** A claim at offset `g` or beyond has a block in hand that served the lap before its own, or a later
      one. */
  ghost predicate HandOk(g: nat, serves: seq<Id>, last: int, p: Pos, b: Id) {
    p.off >= g ==> Near(serves, p.lap, last, b)
  }

  /** The claim of `p` still looks for its block. */
  predicate Looking(writer: map<Pos, Tid>, pcs: seq<Pc>, p: Pos) {
    p in writer && writer[p] < |pcs| && pcs[writer[p]].Finding?
  }

  ghost predicate TailOk(c: Config, g: nat, tail: Pos, tailBlock: Id, serves: seq<Id>, writer: map<Pos, Tid>,
                         pcs: seq<Pc>) {
    var last := TailLap(c, serves, writer, pcs);
    && 0 <= last < |serves| && serves[last] == tailBlock
    && (forall t :: 0 <= t < |pcs| && Linking(pcs[t]) ==> pcs[t].m.p.lap + 2 == |serves|)
    && (forall p: Pos :: g <= p.off < c.cap && Before(p, tail) && p.lap > last ==> Looking(writer, pcs, p))
    && (forall t :: 0 <= t < |pcs| && InHand(pcs[t]).Some? ==>
          HandOk(g, serves, last, pcs[t].m.p, InHand(pcs[t]).value))
  }

  ghost predicate TailInv(c: Config, g: nat, s: State) {
    g < c.cap && TailOk(c, g, s.tail, s.tailBlock, s.serves, s.writer, s.pcs)
  }

  /** Too few pushes in flight for a claim at offset `g` or beyond to hold an old pointer. */
  predicate FewNow(c: Config, g: nat, s: State) {
    || (g == 0 && |s.writer| <= c.cap + 1)
    || (c.capacity.Some? && c.capacity.value <= c.cap + 1 + g)
  }

  // ---- Counting claims --------------------------------------------------------------------------

  function LapSlots(k: nat, n: nat): set<Pos> {
    if n == 0 then {} else LapSlots(k, n - 1) + {Pos(k, n - 1)}
  }

  lemma {:induction false} LapSlotsAre(k: nat, n: nat)
    ensures |LapSlots(k, n)| == n && forall p :: p in LapSlots(k, n) <==> p.lap == k && p.off < n
    decreases n
  {
    if n > 0 { LapSlotsAre(k, n - 1); }
  }

  lemma SubsetSize(a: set<Pos>, b: set<Pos>)
    requires a <= b
    ensures |a| <= |b|
  {
    assert b == a + (b - a);
  }

  lemma SameSize(w: map<Pos, Tid>)
    ensures |w.Keys| == |w|
  {
  }

  /** A lap and two positions outside it. */
  lemma LapAndTwo(k: nat, n: nat, p: Pos, q: Pos)
    requires p.lap != k && q.lap != k && p != q
    ensures |LapSlots(k, n) + {p, q}| == n + 2
  {
    LapSlotsAre(k, n);
    assert |LapSlots(k, n) + {p}| == n + 1;
    assert LapSlots(k, n) + {p} + {q} == LapSlots(k, n) + {p, q};
  }

  /** Keys numbered apart below `n` are at most `n`. */
  lemma {:induction false} AtMostN(keys: set<Pos>, f: map<Pos, nat>, n: nat)
    requires forall p :: p in keys ==> p in f && f[p] < n
    requires forall p, q :: p in keys && q in keys && f[p] == f[q] ==> p == q
    ensures |keys| <= n
    decreases n
  {
    if n == 0 {
      assert keys == {};
    } else if p :| p in keys && f[p] == n - 1 {
      AtMostN(keys - {p}, f, n - 1);
    } else {
      AtMostN(keys, f, n - 1);
    }
  }

  lemma LookupClaim(c: Config, s: State, t: Tid, m: Msg)
    requires Inv(c, s) && t < |s.pcs| && s.pcs[t].Finding? && s.pcs[t].m == m
    ensures m.p in s.writer && s.writer[m.p] == t && m.p.off < c.cap && Before(m.p, s.tail)
    ensures AtMost(s.head, m.p) && s.headLap <= m.p.lap
  {
    hide MemoryOk, ReadersOk, GotOk, MovingOk;
    Knows(c, s, t);
  }

  lemma WriterPos(c: Config, s: State, p: Pos)
    requires Inv(c, s) && p in s.writer
    ensures s.writer[p] < |s.pcs| && ClaimOf(s.pcs[s.writer[p]]).Some? && ClaimOf(s.pcs[s.writer[p]]).value.p == p
    ensures p.off < c.cap && AtMost(s.head, p) && Before(p, s.tail) && s.headLap <= p.lap
  {
    hide MemoryOk, ReadersOk, GotOk, MovingOk, ThreadsOk;
  }

  /** The last slot of the lap `tail.block` has reached is pending once claims are a lap further. */
  lemma LastPending(c: Config, s: State, last: nat)
    requires Inv(c, s) && last == TailLap(c, s.serves, s.writer, s.pcs)
    requires Before(Pos(last + 1, c.cap), s.tail)
    ensures Pos(last, c.cap - 1) in s.writer
  {
    hide HeadTailOk, CountsOk, StartOk, LinksOk, MarksOk, TagsOk, ContentOk, PoolOk, OrderOk, DutyOk, ThreadsOk;
    if !Lagging(c, s.serves, s.writer, s.pcs) && Pos(last, c.cap - 1) !in s.writer {
      PublishedLinked(c, s, last);
    }
  }

  /** A block whose last value is published has a successor. */
  lemma PublishedLinked(c: Config, s: State, k: nat)
    requires SharedOk(c, s) && s.headLap <= k < |s.serves| && Published(c, s.tail, s.writer, Pos(k, c.cap - 1))
    ensures k + 1 < |s.serves|
  {
    hide HeadTailOk, CountsOk, LiveOk, StartOk, MarksOk, TagsOk, ContentOk, PoolOk, OrderOk, DutyOk;
    assert s.serves[k] in s.nextOf;
  }

  /** The last slot of the lap `tail.block` has reached is pending, and the guarded slots of the next lap:
      what a lookup has to see to load a block two laps old. */
  lemma FarAhead(c: Config, g: nat, s: State, p: Pos)
    requires Inv(c, s) && TailInv(c, g, s) && p in s.writer
    requires p.lap >= TailLap(c, s.serves, s.writer, s.pcs) + 2
    ensures var last := TailLap(c, s.serves, s.writer, s.pcs);
      && Before(p, s.tail) && Pos(last, c.cap - 1) in s.writer
      && (forall q: Pos :: last < q.lap < p.lap && g <= q.off < c.cap ==> q in s.writer)
  {
    hide Inv, Lagging, HandOk;
    WriterPos(c, s, p);
    LastPending(c, s, TailLap(c, s.serves, s.writer, s.pcs));
  }

  /** With at most a lap's worth of pushes in flight nothing is two laps ahead of `tail.block`. */
  lemma NotFarByCount(c: Config, s: State, p: Pos)
    requires Inv(c, s) && TailInv(c, 0, s) && |s.writer| <= c.cap + 1 && p in s.writer
    ensures p.lap <= TailLap(c, s.serves, s.writer, s.pcs) + 1
  {
    hide Inv, TailOk, Lagging;
    var last := TailLap(c, s.serves, s.writer, s.pcs);
    if p.lap >= last + 2 {
      LastRange(c, 0, s);
      FarAhead(c, 0, s, p);
      LapAndTwo(last + 1, c.cap, Pos(last, c.cap - 1), p);
      LapSlotsAre(last + 1, c.cap);
      SubsetSize(LapSlots(last + 1, c.cap) + {Pos(last, c.cap - 1), p}, s.writer.Keys);
      SameSize(s.writer);
    }
  }

  lemma LastRange(c: Config, g: nat, s: State)
    requires TailInv(c, g, s)
    ensures |s.serves| - 2 <= TailLap(c, s.serves, s.writer, s.pcs) < |s.serves|
    ensures 0 <= TailLap(c, s.serves, s.writer, s.pcs)
    ensures s.serves[TailLap(c, s.serves, s.writer, s.pcs)] == s.tailBlock
  {
    hide Lagging, HandOk;
  }

  /** Nor, at offset `g` or beyond, if the capacity does not reach from the one to the other. */
  lemma NotFarByCapacity(c: Config, g: nat, s: State, p: Pos)
    requires Inv(c, s) && TailInv(c, g, s) && p in s.writer && p.off >= g
    requires c.capacity.Some? && c.capacity.value <= c.cap + 1 + g
    ensures p.lap <= TailLap(c, s.serves, s.writer, s.pcs) + 1
  {
    hide Inv, TailOk, Lagging, Rank;
    var last := TailLap(c, s.serves, s.writer, s.pcs);
    if p.lap >= last + 2 {
      LastRange(c, g, s);
      FarAhead(c, g, s, p);
      WriterRank(c, s, Pos(last, c.cap - 1));
      WriterRank(c, s, p);
      FarRank(c.cap, last, p);
    }
  }

  lemma FarRank(cap: nat, last: nat, p: Pos)
    requires cap > 0 && p.lap >= last + 2
    ensures Rank(cap, p) >= Rank(cap, Pos(last, cap - 1)) + cap + 1 + p.off
  {
    BaseMonotone(cap, last + 2, p.lap);
    assert Base(cap, last + 2) == Base(cap, last) + cap + cap;
  }

  lemma WriterRank(c: Config, s: State, p: Pos)
    requires Inv(c, s) && p in s.writer && c.capacity.Some?
    ensures p.off < c.cap && Rank(c.cap, s.head) <= Rank(c.cap, p) < Rank(c.cap, s.head) + c.capacity.value
  {
    hide LiveOk, StartOk, LinksOk, MarksOk, TagsOk, ContentOk, PoolOk, OrderOk, ReadersOk, GotOk, MovingOk,
      ThreadsOk, Rank;
    RankMonotone(c.cap, s.head, p);
    RankStrict(c.cap, p, s.tail);
  }

  /** A thread has at most one push in flight. */
  lemma FewThreads(c: Config, s: State)
    requires Inv(c, s)
    ensures |s.writer| <= |s.pcs|
  {
    hide Inv;
    forall p | p in s.writer ensures s.writer[p] < |s.pcs| && ClaimOf(s.pcs[s.writer[p]]).Some?
      && ClaimOf(s.pcs[s.writer[p]]).value.p == p {
      WriterPos(c, s, p);
    }
    AtMostN(s.writer.Keys, s.writer, |s.pcs|);
    SameSize(s.writer);
  }

  // ---- Every step keeps it ----------------------------------------------------------------------

  /** A move that touches none of it. */
  lemma TailMove(c: Config, g: nat, s: State, t: Tid, pc: Pc)
    requires TailInv(c, g, s) && t < |s.pcs|
    requires Linking(pc) == Linking(s.pcs[t]) && (Linking(pc) ==> pc.m == s.pcs[t].m)
    requires s.pcs[t].Finding? ==> pc.Finding?
    requires InHand(pc).Some? ==>
      HandOk(g, s.serves, TailLap(c, s.serves, s.writer, s.pcs), pc.m.p, InHand(pc).value)
    ensures TailOk(c, g, s.tail, s.tailBlock, s.serves, s.writer, s.pcs[t := pc])
  {
    hide HandOk;
    assert Lagging(c, s.serves, s.writer, s.pcs[t := pc]) == Lagging(c, s.serves, s.writer, s.pcs);
  }

  /** A lookup of a guarded claim that has found its block was not ahead of `tail.block`. */
  lemma FoundBehind(c: Config, g: nat, s: State, t: Tid, m: Msg, b: Id)
    requires Inv(c, s) && TailInv(c, g, s) && t < |s.pcs| && s.pcs[t].Finding? && s.pcs[t].m == m
    requires InHand(s.pcs[t]) == Some(b) && StartIs(s, b, m.p.lap) && m.p.off >= g
    ensures m.p.lap <= TailLap(c, s.serves, s.writer, s.pcs)
  {
    hide Inv, Lagging;
    assert HandOk(g, s.serves, TailLap(c, s.serves, s.writer, s.pcs), m.p, b);
    FoundLap(c, s, b, m.p.lap);
    LastRange(c, g, s);
    LaggingLive(c, s);
  }

  lemma FoundLap(c: Config, s: State, b: Id, lap: nat)
    requires Inv(c, s) && StartIs(s, b, lap)
    ensures lap < |s.serves| && s.serves[lap] == b
  {
    hide HeadTailOk, CountsOk, LiveOk, LinksOk, MarksOk, TagsOk, ContentOk, PoolOk, OrderOk, DutyOk, ThreadsOk;
  }

  /** While the newest installer is between its stores, the last two blocks are distinct. */
  lemma LaggingLive(c: Config, s: State)
    requires Inv(c, s)
    ensures Lagging(c, s.serves, s.writer, s.pcs) ==> s.serves[|s.serves| - 2] != s.serves[|s.serves| - 1]
  {
    hide HeadTailOk, CountsOk, StartOk, LinksOk, MarksOk, TagsOk, ContentOk, PoolOk, OrderOk, ReadersOk, GotOk,
      MovingOk,
      ThreadsOk, Linking;
  }

  /** The position of a claim is found: it is no longer among those looking. */
  lemma TailFound(c: Config, g: nat, s: State, t: Tid, pc: Pc)
    requires Inv(c, s) && TailInv(c, g, s) && t < |s.pcs| && s.pcs[t].Finding? && !pc.Finding? && !Linking(pc)
    requires s.pcs[t].m.p.off >= g ==> s.pcs[t].m.p.lap <= TailLap(c, s.serves, s.writer, s.pcs)
    ensures TailOk(c, g, s.tail, s.tailBlock, s.serves, s.writer, s.pcs[t := pc])
  {
    hide Inv, HandOk;
    LookupClaim(c, s, t, s.pcs[t].m);
    assert Lagging(c, s.serves, s.writer, s.pcs[t := pc]) == Lagging(c, s.serves, s.writer, s.pcs);
    forall p: Pos | g <= p.off < c.cap && Before(p, s.tail) && p.lap > TailLap(c, s.serves, s.writer, s.pcs)
      ensures Looking(s.writer, s.pcs, p) && s.writer[p] != t
    {
      assert Looking(s.writer, s.pcs, p);
      if s.writer[p] == t { WriterPos(c, s, p); }
    }
  }

  lemma FindTail(c: Config, g: nat, s: State, t: Tid, m: Msg, pc: FindPc)
    requires Inv(c, s) && TailInv(c, g, s) && FewNow(c, g, s) && t < |s.pcs| && s.pcs[t] == Finding(m, pc)
    ensures TailOk(c, g, s.tail, s.tailBlock, s.serves, s.writer,
                   s.pcs[t := StepFind(c, s, t, m, pc).pc])
  {
    hide Inv, TailOk, Lagging, HandOk, FewNow;
    var now := StepFind(c, s, t, m, pc).pc;
    match pc
    case FindFast => LoadedOk(c, g, s, t, m); TailMove(c, g, s, t, now);
    case FindSlow => LoadedOk(c, g, s, t, m); TailMove(c, g, s, t, now);
    case CheckFast(b) => CheckTail(c, g, s, t, m, b, now);
    case CheckSlow(b, _) => CheckTail(c, g, s, t, m, b, now);
    case WalkPrev(b, seen) => WalkTail(c, g, s, t, m, b, seen);
  }

  /** A load of `tail.block` gives a block near enough. */
  lemma LoadedOk(c: Config, g: nat, s: State, t: Tid, m: Msg)
    requires Inv(c, s) && TailInv(c, g, s) && FewNow(c, g, s) && t < |s.pcs| && s.pcs[t].Finding? && s.pcs[t].m == m
    ensures HandOk(g, s.serves, TailLap(c, s.serves, s.writer, s.pcs), m.p, s.tailBlock)
  {
    hide Inv, Lagging, TailOk;
    LookupClaim(c, s, t, m);
    LastRange(c, g, s);
    if m.p.off >= g && m.p.lap >= TailLap(c, s.serves, s.writer, s.pcs) + 2 {
      if c.capacity.Some? && c.capacity.value <= c.cap + 1 + g {
        NotFarByCapacity(c, g, s, m.p);
      } else {
        NotFarByCount(c, s, m.p);
      }
    }
  }

  lemma HandKnown(c: Config, g: nat, s: State, t: Tid)
    requires TailInv(c, g, s) && t < |s.pcs| && InHand(s.pcs[t]).Some?
    ensures s.pcs[t].Finding?
      && HandOk(g, s.serves, TailLap(c, s.serves, s.writer, s.pcs), s.pcs[t].m.p,
                InHand(s.pcs[t]).value)
  {
    hide Lagging, HandOk;
  }

  lemma CheckTail(c: Config, g: nat, s: State, t: Tid, m: Msg, b: Id, now: Pc)
    requires Inv(c, s) && TailInv(c, g, s) && t < |s.pcs| && s.pcs[t].Finding? && s.pcs[t].m == m
      && InHand(s.pcs[t]) == Some(b)
    requires StartIs(s, b, m.p.lap) ==> now == Found(c, m, b)
    requires !StartIs(s, b, m.p.lap) ==>
      now == Finding(m, FindSlow) || (now.Finding? && now.m == m && InHand(now) == Some(b))
    ensures TailOk(c, g, s.tail, s.tailBlock, s.serves, s.writer, s.pcs[t := now])
  {
    hide Inv, TailInv, TailOk, HandOk, Lagging;
    if StartIs(s, b, m.p.lap) {
      if m.p.off >= g { FoundBehind(c, g, s, t, m, b); }
      TailFound(c, g, s, t, now);
    } else {
      HandKnown(c, g, s, t);
      TailMove(c, g, s, t, now);
    }
  }

  /** One link back from the block of lap `seen` is the block of the lap before. */
  lemma WalkTail(c: Config, g: nat, s: State, t: Tid, m: Msg, b: Id, seen: nat)
    requires Inv(c, s) && TailInv(c, g, s) && t < |s.pcs| && s.pcs[t] == Finding(m, WalkPrev(b, seen))
    ensures TailOk(c, g, s.tail, s.tailBlock, s.serves, s.writer,
                   s.pcs[t := StepFind(c, s, t, m, WalkPrev(b, seen)).pc])
  {
    hide Inv, TailInv, TailOk, Lagging;
    WalkLink(c, s, t, m, b, seen);
    LookupClaim(c, s, t, m);
    LastRange(c, g, s);
    assert s.serves[seen - 1] == s.prevOf[b];
    TailMove(c, g, s, t, Finding(m, CheckSlow(s.prevOf[b], Some(seen - 1))));
  }

  lemma WalkLink(c: Config, s: State, t: Tid, m: Msg, b: Id, seen: nat)
    requires Inv(c, s) && t < |s.pcs| && s.pcs[t] == Finding(m, WalkPrev(b, seen))
    ensures m.p.lap < seen < |s.serves| && b in s.prevOf && s.prevOf[b] == s.serves[seen - 1]
  {
    hide HeadTailOk, CountsOk, StartOk, MarksOk, TagsOk, ContentOk, PoolOk, OrderOk, ReadersOk, GotOk, MovingOk;
    Knows(c, s, t);
  }

  // ---- Claiming ---------------------------------------------------------------------------------

  lemma ClaimTail(c: Config, g: nat, s: State, t: Tid, ch: Choice, v: Value, pc: ClaimPc)
    requires Inv(c, s) && TailInv(c, g, s) && t < |s.pcs| && s.pcs[t] == Claiming(v, pc)
    ensures var o := StepClaim(c, s, t, ch, v, pc); AfterOk(c, g, s, t, o)
  {
    hide Inv, TailInv, TailOk;
    var o := StepClaim(c, s, t, ch, v, pc);
    ClaimCases(c, s, t, ch, v, pc);
    assert ClaimCase(c, s, t, v, o);
    if o.pc.Finding? {
      TakenTail(c, g, s, t, v);
    } else {
      SkippedTail(c, g, s, t, o.pc, o.after.tail);
    }
  }

  /** A claim step takes the tail position, skips a sentinel, or leaves the tail alone. */
  ghost predicate ClaimCase(c: Config, s: State, t: Tid, v: Value, o: Outcome) {
    && o.after.tailBlock == s.tailBlock && o.after.serves == s.serves && o.after.pcs == s.pcs
    && if o.pc.Finding? then
         && s.tail.off < c.cap && o.pc == Finding(Msg(s.tail, v), FindFast)
         && o.after.tail == Next(c.cap, s.tail) && o.after.writer == s.writer[s.tail := t]
       else
         && (o.pc.Claiming? || o.pc.ReportFull?) && o.after.writer == s.writer
         && (o.after.tail == s.tail || (s.tail.off == c.cap && o.after.tail == Next(c.cap, s.tail)))
  }

  lemma ClaimCases(c: Config, s: State, t: Tid, ch: Choice, v: Value, pc: ClaimPc)
    requires Inv(c, s) && t < |s.pcs| && s.pcs[t] == Claiming(v, pc)
    ensures ClaimCase(c, s, t, v, StepClaim(c, s, t, ch, v, pc))
  {
    hide Inv, Items, Next, TailTaken, SkipSentinel, ClaimCase;
    TailRange(c, s, t, v, pc);
    ClaimEffects(c, s, t, v);
    match pc
    case Claim => if ch.UseCas? {} else if IsSentinel(c.cap, s.tail) {}
    case ClaimCas(t0) => if ch.Fail? || s.tail != t0 {} else if IsSentinel(c.cap, t0) {}
    case BoundLoad =>
    case BoundLook(t0) =>
      if IsSentinel(c.cap, t0) { if ch.Fail? || s.tail != t0 {} }
      else if c.capacity.Some? && Items(c.cap, s.cached, t0) >= c.capacity.value {}
    case BoundHead(t0) => if c.capacity.Some? && Items(c.cap, s.head, t0) >= c.capacity.value {}
    case BoundStore(_, h) => CachedCase(c, s, t, ch, v, h, pc);
    case BoundCas(t0) => if ch.Fail? || s.tail != t0 {}
  }

  lemma TailRange(c: Config, s: State, t: Tid, v: Value, pc: ClaimPc)
    requires Inv(c, s) && t < |s.pcs| && s.pcs[t] == Claiming(v, pc)
    ensures s.tail.off <= c.cap && (pc.BoundCas? ==> pc.t.off < c.cap)
  {
    hide CountsOk, LiveOk, StartOk, LinksOk, MarksOk, TagsOk, ContentOk, PoolOk, OrderOk, DutyOk;
    Knows(c, s, t);
  }

  lemma ClaimEffects(c: Config, s: State, t: Tid, v: Value)
    requires s.tail.off <= c.cap
    ensures s.tail.off < c.cap ==>
      ClaimCase(c, s, t, v, Outcome(TailTaken(c, s, t, v), Finding(Msg(s.tail, v), FindFast)))
    ensures forall pc :: s.tail.off == c.cap ==> ClaimCase(c, s, t, v, Outcome(SkipSentinel(c, s), Claiming(v, pc)))
    ensures forall pc :: ClaimCase(c, s, t, v, Outcome(s, Claiming(v, pc)))
    ensures ClaimCase(c, s, t, v, Outcome(s, ReportFull(v)))
  {
    hide Next;
  }

  lemma CachedCase(c: Config, s: State, t: Tid, ch: Choice, v: Value, h: Pos, pc: ClaimPc)
    requires pc.BoundStore? && pc.h == h
    ensures ClaimCase(c, s, t, v, StepClaim(c, s, t, ch, v, pc))
  {
  }

  lemma SkippedTail(c: Config, g: nat, s: State, t: Tid, pc: Pc, tail': Pos)
    requires TailInv(c, g, s) && t < |s.pcs| && s.pcs[t].Claiming? && (pc.Claiming? || pc.ReportFull?)
    requires tail' == s.tail || (s.tail.off == c.cap && tail' == Next(c.cap, s.tail))
    ensures TailOk(c, g, tail', s.tailBlock, s.serves, s.writer, s.pcs[t := pc])
  {
    hide TailInv, HandOk, Lagging;
    TailMove(c, g, s, t, pc);
    assert forall p: Pos :: p.off < c.cap && Before(p, tail') ==> Before(p, s.tail);
  }

  lemma TakenTail(c: Config, g: nat, s: State, t: Tid, v: Value)
    requires Inv(c, s) && TailInv(c, g, s) && t < |s.pcs| && s.pcs[t].Claiming? && s.tail.off < c.cap
    ensures TailOk(c, g, Next(c.cap, s.tail), s.tailBlock, s.serves, s.writer[s.tail := t],
                   s.pcs[t := Finding(Msg(s.tail, v), FindFast)])
  {
    hide Inv, HandOk;
    var pc := Finding(Msg(s.tail, v), FindFast);
    var pcs', writer' := s.pcs[t := pc], s.writer[s.tail := t];
    var last := TailLap(c, s.serves, s.writer, s.pcs);
    LastClaimed(c, s);
    assert Lagging(c, s.serves, writer', pcs') == Lagging(c, s.serves, s.writer, s.pcs);
    forall p: Pos | g <= p.off < c.cap && Before(p, Next(c.cap, s.tail)) && p.lap > last
      ensures Looking(writer', pcs', p)
    {
      if p != s.tail { assert Looking(s.writer, s.pcs, p); }
    }
  }

  /** The last slot of the lap before the newest has been claimed. */
  lemma LastClaimed(c: Config, s: State)
    requires Inv(c, s)
    ensures |s.serves| >= 2 ==> Before(Pos(|s.serves| - 2, c.cap - 1), s.tail)
  {
    hide HeadTailOk, CountsOk, LiveOk, StartOk, MarksOk, TagsOk, ContentOk, PoolOk, OrderOk, DutyOk, ThreadsOk;
  }

  // ---- Installing and publishing ----------------------------------------------------------------

  lemma InstallerKnows(c: Config, s: State, t: Tid, m: Msg, b: Id, pc: InstallPc)
    requires Inv(c, s) && t < |s.pcs| && s.pcs[t] == Installing(m, b, pc)
    ensures m.p.off + 1 == c.cap && m.p in s.writer && s.writer[m.p] == t && Before(m.p, s.tail)
    ensures m.p.lap < |s.serves| && (pc.SetStart? ==> |s.serves| == m.p.lap + 1)
    ensures pc.MoveTail? ==> m.p.lap + 1 < |s.serves| && s.serves[m.p.lap + 1] == pc.n
  {
    hide MemoryOk, ReadersOk, GotOk, MovingOk;
    Knows(c, s, t);
  }

  /** Storing the start of the next block begins a lag of one lap. */
  lemma StartTail(c: Config, g: nat, s: State, t: Tid, m: Msg, b: Id, n: Id)
    requires Inv(c, s) && TailInv(c, g, s) && t < |s.pcs| && s.pcs[t] == Installing(m, b, SetStart(n))
    ensures TailOk(c, g, s.tail, s.tailBlock, s.serves + [n], s.writer, s.pcs[t := Installing(m, b, LinkNext(n))])
  {
    hide Inv, HandOk;
    var pc, serves' := Installing(m, b, LinkNext(n)), s.serves + [n];
    var pcs' := s.pcs[t := pc];
    InstallerKnows(c, s, t, m, b, SetStart(n));
    NotOvertaking(c, g, s, t, m);
    assert m.p == Pos(|serves'| - 2, c.cap - 1);
    assert Lagging(c, serves', s.writer, pcs');
    forall u | 0 <= u < |pcs'| && Linking(pcs'[u]) ensures pcs'[u].m.p.lap + 2 == |serves'| {
      if u != t { NotLinking(c, g, s, u); }
    }
    forall u | 0 <= u < |pcs'| && InHand(pcs'[u]).Some?
      ensures HandOk(g, serves', |s.serves| - 1, pcs'[u].m.p, InHand(pcs'[u]).value)
    {
      HandGrows(g, s.serves, serves', |s.serves| - 1, |s.serves| - 1, s.pcs[u].m.p, InHand(s.pcs[u]).value);
    }
  }

  /** A last slot's claim is found only after `tail.block` has reached its lap. */
  lemma NotOvertaking(c: Config, g: nat, s: State, t: Tid, m: Msg)
    requires TailInv(c, g, s) && t < |s.pcs| && s.pcs[t].Installing? && m.p in s.writer && s.writer[m.p] == t
    requires m.p.off + 1 == c.cap && Before(m.p, s.tail) && m.p.lap + 1 == |s.serves|
    ensures !Lagging(c, s.serves, s.writer, s.pcs)
  {
    hide HandOk, Lagging;
    assert Lagging(c, s.serves, s.writer, s.pcs) ==> Looking(s.writer, s.pcs, m.p);
  }

  lemma HandGrows(g: nat, serves: seq<Id>, serves': seq<Id>, last: int, last': int, p: Pos, b: Id)
    requires HandOk(g, serves, last, p, b) && serves <= serves' && last <= last'
    ensures HandOk(g, serves', last', p, b)
  {
    hide Near;
    if p.off >= g { NearGrows(serves, serves', p.lap, last, last', b); }
  }

  lemma NearGrows(serves: seq<Id>, serves': seq<Id>, lap: nat, last: int, last': int, b: Id)
    requires Near(serves, lap, last, b) && serves <= serves' && last <= last'
    ensures Near(serves', lap, last', b)
  {
    var j :| 0 <= j < |serves| && lap <= j + 1 && j <= last && serves[j] == b;
    assert serves'[j] == b;
  }

  /** Whoever is between the two stores is the installer of the newest block. */
  lemma NotLinking(c: Config, g: nat, s: State, u: Tid)
    requires Inv(c, s) && TailInv(c, g, s) && u < |s.pcs| && Linking(s.pcs[u])
    ensures Lagging(c, s.serves, s.writer, s.pcs) && s.pcs[u].m.p == Pos(|s.serves| - 2, c.cap - 1)
      && s.writer[s.pcs[u].m.p] == u
  {
    hide Inv, TailOk;
    InstallerKnows(c, s, u, s.pcs[u].m, s.pcs[u].b, s.pcs[u].install);
    LinkingLap(c, g, s, u);
  }

  lemma LinkingLap(c: Config, g: nat, s: State, u: Tid)
    requires TailInv(c, g, s) && u < |s.pcs| && Linking(s.pcs[u])
    ensures s.pcs[u].m.p.lap + 2 == |s.serves|
  {
    hide HandOk, Lagging;
  }

  /** Moving `tail.block` ends the lag. */
  lemma MoveTailTail(c: Config, g: nat, s: State, t: Tid, m: Msg, b: Id, n: Id)
    requires Inv(c, s) && TailInv(c, g, s) && t < |s.pcs| && s.pcs[t] == Installing(m, b, MoveTail(n))
    ensures TailOk(c, g, s.tail, n, s.serves, s.writer, s.pcs[t := Writing(m, b, Write)])
  {
    hide Inv, HandOk;
    var pcs' := s.pcs[t := Writing(m, b, Write)];
    InstallerKnows(c, s, t, m, b, MoveTail(n));
    NotLinking(c, g, s, t);
    forall u | 0 <= u < |pcs'| && Linking(pcs'[u]) ensures false {
      NotLinking(c, g, s, u);
    }
    assert !Lagging(c, s.serves, s.writer, pcs');
    forall u | 0 <= u < |pcs'| && InHand(pcs'[u]).Some?
      ensures HandOk(g, s.serves, |s.serves| - 1, pcs'[u].m.p, InHand(pcs'[u]).value)
    {
      HandGrows(g, s.serves, s.serves, |s.serves| - 2, |s.serves| - 1, s.pcs[u].m.p, InHand(s.pcs[u]).value);
    }
  }

  lemma PublishTail(c: Config, g: nat, s: State, t: Tid, m: Msg, b: Id)
    requires Inv(c, s) && TailInv(c, g, s) && t < |s.pcs| && s.pcs[t] == Writing(m, b, Publish)
    ensures TailOk(c, g, s.tail, s.tailBlock, s.serves, s.writer - {m.p}, s.pcs[t := Idle])
  {
    hide Inv, HandOk;
    WriterKnows(c, s, t, m, b);
    assert Lagging(c, s.serves, s.writer - {m.p}, s.pcs[t := Idle]) == Lagging(c, s.serves, s.writer, s.pcs);
  }

  lemma WriterKnows(c: Config, s: State, t: Tid, m: Msg, b: Id)
    requires Inv(c, s) && t < |s.pcs| && s.pcs[t] == Writing(m, b, Publish)
    ensures m.p in s.writer && s.writer[m.p] == t
    ensures m.p.lap < |s.serves| && (m.p.off + 1 == c.cap ==> m.p.lap + 1 < |s.serves|)
  {
    hide SharedOk;
    Knows(c, s, t);
  }

  // ---- Every step, every run --------------------------------------------------------------------

  /** Not past the claim of a push. */
  predicate Elsewhere(pc: Pc) {
    ClaimOf(pc).None?
  }

  lemma CallElsewhere(c: Config, s: State, t: Tid, ch: Choice)
    requires t < |s.pcs| && Elsewhere(s.pcs[t])
    ensures KeepsTail(s, StepCall(c, s, t, ch).after) && Elsewhere(StepCall(c, s, t, ch).pc)
  {
  }

  lemma PopElsewhere(c: Config, s: State, t: Tid, ch: Choice, pc: TakePc)
    ensures Elsewhere(StepTake(c, s, t, ch, pc).pc)
  {
    hide Published, Taken;
  }

  lemma ReadElsewhere(c: Config, s: State, t: Tid, p: Pos, b: Id)
    ensures forall pc :: Elsewhere(StepRead(c, s, t, p, b, pc).pc)
    ensures forall pc :: Elsewhere(StepMove(c, s, t, p, b, pc).pc)
    ensures forall pc :: Elsewhere(StepLeave(c, s, t, pc).pc)
  {
    hide HeadBlockMoved;
  }

  lemma SoloElsewhere(c: Config, s: State, t: Tid, pc: SoloPc)
    ensures Elsewhere(StepSolo(c, s, t, pc).pc)
  {
    hide Published, HeadBlockMoved, Advanced;
  }

  lemma InstallElsewhere(c: Config, s: State, t: Tid, ch: Choice, m: Msg, b: Id, pc: InstallPc)
    requires !pc.SetStart? && !pc.MoveTail?
    ensures var now := StepInstall(c, s, t, ch, m, b, pc).pc;
      now.Installing? && now.m == m && (Linking(now) <==> pc.LinkNext?)
  {
    hide ReadersDone, SwapRemove;
  }

  /** The state after a step's effect, with its thread moved on. */
  ghost predicate AfterOk(c: Config, g: nat, s: State, t: Tid, o: Outcome)
    requires t < |s.pcs|
  {
    && o.after.pcs == s.pcs
    && TailOk(c, g, o.after.tail, o.after.tailBlock, o.after.serves, o.after.writer, s.pcs[t := o.pc])
  }

  /** A step away from the tail. */
  lemma AwayTail(c: Config, g: nat, s: State, t: Tid, o: Outcome)
    requires TailInv(c, g, s) && t < |s.pcs| && KeepsTail(s, o.after) && Elsewhere(s.pcs[t]) && Elsewhere(o.pc)
    ensures AfterOk(c, g, s, t, o)
  {
    hide TailInv, TailOk;
    TailMove(c, g, s, t, o.pc);
  }

  lemma EffectTail(c: Config, g: nat, s: State, t: Tid, ch: Choice)
    requires Inv(c, s) && TailInv(c, g, s) && FewNow(c, g, s) && t < |s.pcs|
    ensures AfterOk(c, g, s, t, StepOf(c, s, t, ch))
  {
    hide Inv, TailInv, TailOk, FewNow, StepClaim, StepFind, StepInstall, StepTake, StepRead, StepMove, StepLeave,
      StepSolo, StepCall;
    var o := StepOf(c, s, t, ch);
    match s.pcs[t]
    case Claiming(v, pc) => ClaimTail(c, g, s, t, ch, v, pc);
    case Finding(m, pc) => FindTail(c, g, s, t, m, pc); FindStays(c, s, t, m, pc);
    case Installing(m, b, pc) => InstallTail(c, g, s, t, ch, m, b, pc);
    case Writing(m, b, Write) => TailMove(c, g, s, t, Writing(m, b, Publish));
    case Writing(m, b, Publish) => PublishTail(c, g, s, t, m, b);
    case _ => AwayEffect(c, g, s, t, ch);
  }

  lemma AwayEffect(c: Config, g: nat, s: State, t: Tid, ch: Choice)
    requires Inv(c, s) && TailInv(c, g, s) && t < |s.pcs| && Elsewhere(s.pcs[t]) && !s.pcs[t].Claiming?
    ensures AfterOk(c, g, s, t, StepOf(c, s, t, ch))
  {
    hide Inv, TailInv, AfterOk, StepTake, StepRead, StepMove, StepLeave, StepSolo, StepCall, KeepsTail;
    match s.pcs[t] {
    case Taking(pc) => TakeKeepsTail(c, s, t, ch, pc); PopElsewhere(c, s, t, ch, pc);
    case Reading(p, b, pc) => ReadKeepsTail(c, s, t, p, b, pc); ReadElsewhere(c, s, t, p, b);
    case Moving(p, b, pc) => MoveKeepsTail(c, s, t, p, b, pc); ReadElsewhere(c, s, t, p, b);
    case Leaving(pc) => LeaveKeepsTail(c, s, t, pc); ReadElsewhere(c, s, t, s.head, s.headBlock);
    case Batching(pc) => SoloKeepsTail(c, s, t, pc); SoloElsewhere(c, s, t, pc);
    case _ => CallElsewhere(c, s, t, ch);
    }
    AwayTail(c, g, s, t, StepOf(c, s, t, ch));
  }

  lemma FindStays(c: Config, s: State, t: Tid, m: Msg, pc: FindPc)
    ensures StepFind(c, s, t, m, pc).after == s
  {
  }

  lemma InstallTail(c: Config, g: nat, s: State, t: Tid, ch: Choice, m: Msg, b: Id, pc: InstallPc)
    requires Inv(c, s) && TailInv(c, g, s) && t < |s.pcs| && s.pcs[t] == Installing(m, b, pc)
    ensures AfterOk(c, g, s, t, StepInstall(c, s, t, ch, m, b, pc))
  {
    hide Inv, TailInv, TailOk, StepInstall;
    match pc
    case SetStart(n) => StartTail(c, g, s, t, m, b, n); StartEffect(c, s, t, ch, m, b, n);
    case MoveTail(n) => MoveTailTail(c, g, s, t, m, b, n); MoveTailEffect(c, s, t, ch, m, b, n);
    case _ =>
      InstallKeepsTail(c, s, t, ch, m, b, pc);
      InstallElsewhere(c, s, t, ch, m, b, pc);
      TailMove(c, g, s, t, StepInstall(c, s, t, ch, m, b, pc).pc);
  }

  lemma StartEffect(c: Config, s: State, t: Tid, ch: Choice, m: Msg, b: Id, n: Id)
    ensures var o := StepInstall(c, s, t, ch, m, b, SetStart(n));
      && o.after.tail == s.tail && o.after.tailBlock == s.tailBlock && o.after.serves == s.serves + [n]
      && o.after.writer == s.writer && o.after.pcs == s.pcs && o.pc == Installing(m, b, LinkNext(n))
  {
  }

  lemma MoveTailEffect(c: Config, s: State, t: Tid, ch: Choice, m: Msg, b: Id, n: Id)
    ensures var o := StepInstall(c, s, t, ch, m, b, MoveTail(n));
      && o.after.tail == s.tail && o.after.tailBlock == n && o.after.serves == s.serves
      && o.after.writer == s.writer && o.after.pcs == s.pcs && o.pc == Writing(m, b, Write)
  {
  }

  lemma StepTail(c: Config, g: nat, s: State, t: Tid, ch: Choice)
    requires Inv(c, s) && TailInv(c, g, s) && FewNow(c, g, s) && t < |s.pcs|
    ensures TailInv(c, g, Step(c, s, t, ch))
  {
    hide Inv, TailOk, StepOf, FewNow;
    EffectTail(c, g, s, t, ch);
  }

  /** While every state has few pushes in flight, it holds in every run. */
  lemma {:induction false} TailRun(c: Config, g: nat, run: seq<State>, acts: seq<Act>, j: nat)
    requires IsRun(c, run, acts) && j < |run| && g < c.cap
    requires forall i :: 0 <= i < j ==> FewNow(c, g, run[i])
    ensures TailInv(c, g, run[j])
    decreases j
  {
    hide Inv, TailInv, Step, FewNow;
    if j == 0 {
      TailStarts(c, g, run[0]);
    } else {
      TailRun(c, g, run, acts, j - 1);
      RunInv(c, run, acts, j - 1);
      var a := acts[j - 1];
      assert run[j] == run[(j - 1) + 1] == Step(c, run[j - 1], a.t, a.ch);
      StepTail(c, g, run[j - 1], a.t, a.ch);
    }
  }

  lemma TailStarts(c: Config, g: nat, s: State)
    requires Initial(c, s) && g < c.cap
    ensures TailInv(c, g, s)
  {
  }

  // ---- What it is for ---------------------------------------------------------------------------

  /** `tail.block` serves one of the last two laps installed, and no claim of a later lap, at offset
      `g` or beyond, has found its block. */
  ghost predicate Covered(c: Config, g: nat, s: State) {
    exists k :: 0 <= k < |s.serves| && s.serves[k] == s.tailBlock && |s.serves| <= k + 2 && NothingEarly(c, g, s, k)
  }

  ghost predicate NothingEarly(c: Config, g: nat, s: State, k: nat) {
    forall p: Pos :: g <= p.off < c.cap && Before(p, s.tail) && p.lap > k ==> Looking(s.writer, s.pcs, p)
  }

  lemma StateCovered(c: Config, g: nat, s: State)
    requires TailInv(c, g, s)
    ensures Covered(c, g, s)
  {
    hide Lagging, HandOk;
    assert NothingEarly(c, g, s, TailLap(c, s.serves, s.writer, s.pcs));
  }

  /** With at most a lap's worth of pushes in flight all along, nothing is found early. */
  lemma TailBlockCurrent(c: Config, run: seq<State>, acts: seq<Act>, j: nat)
    requires IsRun(c, run, acts) && j < |run|
    requires forall i :: 0 <= i < j ==> |run[i].writer| <= c.cap + 1
    ensures Covered(c, 0, run[j])
  {
    hide IsRun, TailInv, Covered;
    TailRun(c, 0, run, acts, j);
    StateCovered(c, 0, run[j]);
  }

  // ---- How few threads suffice ------------------------------------------------------------------

  /** Too few threads, or too little room, for a claim at offset `g` or beyond to be found early. */
  predicate Few(c: Config, g: nat, n: nat) {
    n <= c.cap + 1 || (c.capacity.Some? && c.capacity.value <= c.cap + 1 + g)
  }

  lemma FewThroughout(c: Config, g: nat, run: seq<State>, acts: seq<Act>, j: nat)
    requires IsRun(c, run, acts) && j < |run| && Few(c, g, |run[0].pcs|)
    ensures |run[0].pcs| <= c.cap + 1 || FewNow(c, g, run[j])
    ensures |run[0].pcs| <= c.cap + 1 ==> FewNow(c, 0, run[j])
  {
    hide Inv, Step;
    RunInv(c, run, acts, j);
    SameThreads(c, run, acts, j);
    FewThreads(c, run[j]);
  }

  /** Nothing found early at all is nothing found early from offset `g` on. */
  lemma CoveredFrom(c: Config, g: nat, s: State)
    requires Covered(c, 0, s)
    ensures Covered(c, g, s)
  {
    var k :| 0 <= k < |s.serves| && s.serves[k] == s.tailBlock && |s.serves| <= k + 2 && NothingEarly(c, 0, s, k);
    assert NothingEarly(c, g, s, k);
  }

  /** The invariant, with all offsets or those from `g` on guarded. */
  lemma InvIfFew(c: Config, g: nat, run: seq<State>, acts: seq<Act>, j: nat) returns (h: nat)
    requires IsRun(c, run, acts) && j < |run| && g < c.cap && Few(c, g, |run[0].pcs|)
    ensures TailInv(c, h, run[j]) && (h == 0 || h == g)
  {
    hide Inv, Step, TailInv, FewNow, Few;
    h := if |run[0].pcs| <= c.cap + 1 then 0 else g;
    forall i | 0 <= i < j ensures FewNow(c, h, run[i]) {
      FewThroughout(c, g, run, acts, i);
    }
    TailRun(c, h, run, acts, j);
  }

  /** With few threads or little room nothing is found early, in any state of any run. */
  lemma CurrentIfFew(c: Config, g: nat, run: seq<State>, acts: seq<Act>, j: nat)
    requires IsRun(c, run, acts) && j < |run| && g < c.cap && Few(c, g, |run[0].pcs|)
    ensures Covered(c, g, run[j])
  {
    hide IsRun, TailInv, Few, Covered;
    var h := InvIfFew(c, g, run, acts, j);
    StateCovered(c, h, run[j]);
    if h == 0 { CoveredFrom(c, g, run[j]); }
  }

  lemma {:induction false} SameThreads(c: Config, run: seq<State>, acts: seq<Act>, j: nat)
    requires IsRun(c, run, acts) && j < |run|
    ensures |run[j].pcs| == |run[0].pcs|
    decreases j
  {
    hide Inv, Step, StepOk;
    if j > 0 {
      SameThreads(c, run, acts, j - 1);
      RunInv(c, run, acts, j - 1);
      var a := acts[j - 1];
      assert run[j] == run[(j - 1) + 1] == Step(c, run[j - 1], a.t, a.ch);
      StepIsOk(c, run[j - 1], a.t, a.ch);
      QueueSafety.StepGrows(c, run[j - 1], run[j], a.t);
    }
  }
}
