/**
  Safety of the block queue, read off the invariant: what a single step can and cannot do, and
  what holds in every reachable state.
*/
module QueueSafety {
  import opened Basics
  import opened Positions
  import opened QueueModel
  import opened QueueInvariant
  import opened QueueRely
  import opened QueueStepOk
  import opened QueueTheorems
  import QueueStepsTake

  // ---- A claimed value stays put ----------------------------------------------------------------

  /** The block of a value taken and not yet copied is in no pool and in no installer's hands. */
  lemma StateReader(c: Config, s: State, p: Pos)
    requires Inv(c, s) && p in s.reader
    ensures p.lap < |s.serves|
    ensures var b := s.serves[p.lap];
      && b in s.place && !IsClean(s.place[b]) && !s.place[b].Wiping? && LapOf(s.place[b]) == Some(p.lap)
      && s.spare != Some(b) && b !in s.ready
      && Slot(b, p.off) !in s.marked
      && Slot(b, p.off) in s.value && s.value[Slot(b, p.off)] == s.log[Rank(c.cap, p)].v
      && (forall t :: 0 <= t < |s.pcs| && s.pcs[t].Installing? && s.pcs[t].install.SetStart? ==>
            s.pcs[t].install.n != b)
  {
    hide SharedOk, ThreadsOk, Rank;
    ReaderBlock(c, s, p);
    var b := s.serves[p.lap];
    QueueStepsTake.CopiesPushed(c, s, p, b);
    forall t | 0 <= t < |s.pcs| && s.pcs[t].Installing? && s.pcs[t].install.SetStart?
      ensures s.pcs[t].install.n != b
    {
      Knows(c, s, t);
    }
  }

  /** So it is in every run, for every value taken and not yet let go. */
  lemma ReaderKeepsBlock(c: Config, run: seq<State>, acts: seq<Act>, j: nat, p: Pos)
    requires IsRun(c, run, acts) && j < |run| && p in run[j].reader
    ensures p.lap < |run[j].serves|
    ensures var s := run[j]; var b := s.serves[p.lap];
      && b in s.place && LapOf(s.place[b]) == Some(p.lap) && s.spare != Some(b) && b !in s.ready
      && Slot(b, p.off) !in s.marked && Slot(b, p.off) in s.value
      && Rank(c.cap, p) < |s.log| && s.value[Slot(b, p.off)] == s.log[Rank(c.cap, p)].v
      && (forall t :: 0 <= t < |s.pcs| && s.pcs[t].Installing? && s.pcs[t].install.SetStart? ==>
            s.pcs[t].install.n != b)
  {
    hide Inv, IsRun, Rank;
    RunInv(c, run, acts, j);
    ReaderRank(c, run[j], p);
    StateReader(c, run[j], p);
  }

  lemma ReaderBlock(c: Config, s: State, p: Pos)
    requires SharedOk(c, s) && p in s.reader
    ensures p.lap < |s.serves| && p.off < c.cap && Rank(c.cap, p) < |s.log|
    ensures var b := s.serves[p.lap];
      && b in s.place && LapOf(s.place[b]) == Some(p.lap) && s.spare != Some(b) && b !in s.ready
      && Slot(b, p.off) !in s.marked
  {
    hide HeadTailOk, CountsOk, LiveOk, StartOk, LinksOk, TagsOk, OrderOk, WritersOk, GotOk, MovingOk, Rank;
    assert Unread(c, s.head, s.tail, s.writer, s.reader, p);
    var b := s.serves[p.lap];
    assert Slot(b, p.off) in s.marked ==> p.off < c.cap - 1;
  }

  /** From the head's passing a value until its reader lets go, across any run, its cell holds
      what was pushed and its block serves the same lap. */
  lemma ClaimedSlotUntouched(c: Config, run: seq<State>, acts: seq<Act>, i: nat, j: nat, p: Pos)
    requires IsRun(c, run, acts) && i <= j < |run|
    requires p in run[i].reader && p in run[j].reader
    ensures p.lap < |run[i].serves| && p.lap < |run[j].serves|
    ensures run[j].serves[p.lap] == run[i].serves[p.lap]
    ensures var x := Slot(run[i].serves[p.lap], p.off);
      x in run[i].value && x in run[j].value && run[j].value[x] == run[i].value[x]
  {
    hide Inv, IsRun, Rank;
    RunInv(c, run, acts, i);
    RunInv(c, run, acts, j);
    StateReader(c, run[i], p);
    StateReader(c, run[j], p);
    ReaderRank(c, run[i], p);
    HistoryGrows(c, run, acts, i, j);
  }

  lemma ReaderRank(c: Config, s: State, p: Pos)
    requires Inv(c, s) && p in s.reader
    ensures Rank(c.cap, p) < |s.log|
  {
    hide SharedOk, ThreadsOk, Rank;
    ReaderBlock(c, s, p);
  }

  /** Claims and deliveries are only ever added at the end, so claim order is time order. */
  lemma {:induction false} HistoryGrows(c: Config, run: seq<State>, acts: seq<Act>, i: nat, j: nat)
    requires IsRun(c, run, acts) && i <= j < |run|
    ensures run[i].log <= run[j].log && run[i].serves <= run[j].serves && run[i].order <= run[j].order
    decreases j
  {
    hide Inv, Step, StepOk;
    if i < j {
      HistoryGrows(c, run, acts, i, j - 1);
      RunInv(c, run, acts, j - 1);
      var a := acts[j - 1];
      assert run[j] == run[(j - 1) + 1] == Step(c, run[j - 1], a.t, a.ch);
      StepIsOk(c, run[j - 1], a.t, a.ch);
      StepGrows(c, run[j - 1], run[j], a.t);
    }
  }

  lemma StepGrows(c: Config, s: State, s': State, t: Tid)
    requires StepOk(c, s, s', t)
    ensures s.log <= s'.log && s.serves <= s'.serves && s.order <= s'.order && |s'.pcs| == |s.pcs|
    ensures AtMost(s.head, s'.head)
    ensures forall u :: 0 <= u < |s.pcs| && u != t ==> s'.pcs[u] == s.pcs[u]
  {
    hide SharedOk, KeepsOthers, KeepsWrites, KeepsHead, ThreadOk, Published;
  }

  // ---- Capacity ---------------------------------------------------------------------------------

  /** A bounded queue never holds more values than its capacity, however stale the cached head. */
  lemma CapacityHolds(c: Config, run: seq<State>, acts: seq<Act>, j: nat)
    requires IsRun(c, run, acts) && j < |run| && c.capacity.Some?
    ensures Items(c.cap, run[j].head, run[j].tail) <= c.capacity.value
    ensures ItemsBetween(c.cap, Word(c.cap, run[j].head), Word(c.cap, run[j].tail)) <= c.capacity.value
  {
    hide Inv, IsRun;
    RunInv(c, run, acts, j);
    StateCapacity(c, run[j]);
    ItemsBetweenIsItems(c.cap, run[j].head, run[j].tail);
  }

  lemma StateCapacity(c: Config, s: State)
    requires Inv(c, s)
    ensures s.head.off <= c.cap && s.tail.off <= c.cap
    ensures c.capacity.Some? ==> Items(c.cap, s.head, s.tail) <= c.capacity.value
  {
    hide LiveOk, StartOk, LinksOk, MarksOk, TagsOk, ContentOk, PoolOk, OrderOk, DutyOk, ThreadsOk;
  }

  /** What a step's verdict rests on: a full one on the count it has just read; one of nothing written
      at the head on a slot state it has just read, or on one read before at what is still the head. */
  ghost predicate VerdictsOk(c: Config, s: State, was: Pc, now: Pc) {
    var unwritten := !Published(c, s.tail, s.writer, s.head);
    && (now.ReportFull? ==>
          || was == now
          || (was.Claiming? && was.claim.BoundHead? && c.capacity.Some?
              && Items(c.cap, s.head, was.claim.t) >= c.capacity.value))
    && (now.Taking? && now.take.Recheck? ==>
          && was.Taking? && was.take.Look? && was.take.h == now.take.h && was.take.h.off != c.cap
          && now.take.unwritten == unwritten)
    && (now.ReportNone? ==>
          || (was == Taking(Recheck(s.head, now.unwritten)))
          || (was.Batching? && was.solo.SoloLook? && was.solo.count == 0 && now.unwritten == unwritten))
  }

  /** About to read the state of the slot at the head, in the block that serves it. */
  predicate ReadsHead(s: State, pc: Pc) {
    match pc
    case Taking(Look(h, b)) => h == s.head && Serves(s.serves, h.lap, b)
    case Batching(SoloLook(h, b, _, count)) => h == s.head && Serves(s.serves, h.lap, b) && count == 0
    case _ => false
  }

  /** What carries the verdict of such a read. */
  predicate SaysUnwritten(pc: Pc) {
    || (pc.ReportNone? && pc.unwritten)
    || (pc.Taking? && pc.take.Recheck? && pc.take.unwritten)
  }

  lemma ClaimVerdicts(c: Config, s: State, t: Tid, ch: Choice, v: Value, pc: ClaimPc)
    ensures VerdictsOk(c, s, Claiming(v, pc), StepClaim(c, s, t, ch, v, pc).pc)
  {
    hide Items, Published;
  }

  lemma PushVerdicts(c: Config, s: State, t: Tid, ch: Choice, was: Pc)
    ensures forall m, pc :: VerdictsOk(c, s, was, StepFind(c, s, t, m, pc).pc)
    ensures forall m, b, pc :: VerdictsOk(c, s, was, StepInstall(c, s, t, ch, m, b, pc).pc)
    ensures forall m, b, pc :: VerdictsOk(c, s, was, StepWrite(c, s, t, m, b, pc).pc)
  {
    hide Items, Published, ReadersDone;
  }

  lemma PopVerdicts(c: Config, s: State, t: Tid, ch: Choice, was: Pc)
    ensures forall pc :: VerdictsOk(c, s, Taking(pc), StepTake(c, s, t, ch, pc).pc)
    ensures forall p, b, pc :: VerdictsOk(c, s, was, StepRead(c, s, t, p, b, pc).pc)
    ensures forall p, b, pc :: VerdictsOk(c, s, was, StepMove(c, s, t, p, b, pc).pc)
    ensures forall pc :: VerdictsOk(c, s, was, StepLeave(c, s, t, pc).pc)
    ensures forall pc :: VerdictsOk(c, s, Batching(pc), StepSolo(c, s, t, pc).pc)
  {
    hide Items, Published;
  }

  lemma StepVerdicts(c: Config, s: State, t: Tid, ch: Choice)
    requires t < |s.pcs|
    ensures VerdictsOk(c, s, s.pcs[t], StepOf(c, s, t, ch).pc)
  {
    hide StepClaim, StepFind, StepInstall, StepWrite, StepTake, StepRead, StepMove, StepLeave, StepSolo, Items,
      Published;
    PushVerdicts(c, s, t, ch, s.pcs[t]);
    PopVerdicts(c, s, t, ch, s.pcs[t]);
    if s.pcs[t].Claiming? { ClaimVerdicts(c, s, t, ch, s.pcs[t].v, s.pcs[t].claim); }
  }

  /** A push is refused only if, at the instant it read the real head, the queue was exactly full. */
  lemma FullIsExact(c: Config, run: seq<State>, acts: seq<Act>, i: nat)
    requires IsRun(c, run, acts) && i < |acts| && acts[i].t < |run[i].pcs|
    requires !run[i].pcs[acts[i].t].ReportFull? && StepOf(c, run[i], acts[i].t, acts[i].ch).pc.ReportFull?
    ensures run[i].pcs[acts[i].t].Claiming? && run[i].pcs[acts[i].t].claim.BoundHead?
    ensures c.capacity.Some? && Items(c.cap, run[i].head, run[i].tail) == c.capacity.value
  {
    hide Inv, Step, Items, StepOf;
    RunInv(c, run, acts, i);
    FullStep(c, run[i], acts[i].t, acts[i].ch);
  }

  lemma FullStep(c: Config, s: State, t: Tid, ch: Choice)
    requires Inv(c, s) && t < |s.pcs|
    requires !s.pcs[t].ReportFull? && StepOf(c, s, t, ch).pc.ReportFull?
    ensures s.pcs[t].Claiming? && s.pcs[t].claim.BoundHead?
    ensures c.capacity.Some? && Items(c.cap, s.head, s.tail) == c.capacity.value
  {
    hide SharedOk, ThreadsOk, Items, ThreadOk, StepOf, Published;
    StepVerdicts(c, s, t, ch);
    var t0 := s.pcs[t].claim.t;
    KnowsTail(c, s, t, s.pcs[t].v, t0);
    StateCapacity(c, s);
    FullByOldTail(c, s, t0);
  }

  lemma KnowsTail(c: Config, s: State, t: Tid, v: Value, t0: Pos)
    requires Inv(c, s) && t < |s.pcs| && s.pcs[t] == Claiming(v, BoundHead(t0))
    ensures t0.off < c.cap && AtMost(t0, s.tail)
  {
    hide SharedOk, ThreadsOk;
    Knows(c, s, t);
  }

  lemma FullByOldTail(c: Config, s: State, t0: Pos)
    requires t0.off <= c.cap && AtMost(t0, s.tail)
    ensures Items(c.cap, s.head, t0) <= Items(c.cap, s.head, s.tail)
  {
    RankMonotone(c.cap, t0, s.tail);
  }

  // ---- Stale snapshots are harmless -------------------------------------------------------------

  /** If the head's compare-exchange succeeds, the block loaded earlier is the head's block and
      its slot holds what was pushed at the head. */
  lemma StaleBlockHarmless(c: Config, run: seq<State>, acts: seq<Act>, i: nat, h: Pos, b: Id)
    requires IsRun(c, run, acts) && i < |acts| && acts[i].t < |run[i].pcs|
    requires run[i].pcs[acts[i].t] == Taking(CasHead(h, b)) && StepOf(c, run[i], acts[i].t, acts[i].ch).pc.Reading?
    ensures var s := run[i];
      && s.head == h && s.headBlock == b && Serves(s.serves, h.lap, b) && Rank(c.cap, h) < |s.log|
      && Slot(b, h.off) in s.value && s.value[Slot(b, h.off)] == s.log[Rank(c.cap, h)].v
  {
    hide Inv, Step, Rank;
    RunInv(c, run, acts, i);
    CasAtHead(c, run[i], acts[i].t, acts[i].ch, h, b);
    StateStaleBlock(c, run[i], acts[i].t, h, b);
  }

  lemma CasAtHead(c: Config, s: State, t: Tid, ch: Choice, h: Pos, b: Id)
    requires t < |s.pcs| && s.pcs[t] == Taking(CasHead(h, b)) && StepOf(c, s, t, ch).pc.Reading?
    ensures s.head == h
  {
    hide Taken;
  }

  lemma StateStaleBlock(c: Config, s: State, t: Tid, h: Pos, b: Id)
    requires Inv(c, s) && t < |s.pcs| && s.pcs[t] == Taking(CasHead(h, b)) && s.head == h
    ensures s.headBlock == b && Serves(s.serves, h.lap, b) && Rank(c.cap, h) < |s.log|
    ensures Slot(b, h.off) in s.value && s.value[Slot(b, h.off)] == s.log[Rank(c.cap, h)].v
  {
    hide SharedOk, ThreadsOk, Rank;
    Knows(c, s, t);
    QueueStepsTake.NotMoving(c, s);
    QueueStepsTake.HeadBlockServes(c, s);
    QueueStepsTake.CopiesPushed(c, s, h, b);
  }

  /** At step `i` thread `t` reads the state of the slot at the true head, which is a value position and
      unwritten; up to state `j` it does nothing but act on that. */
  predicate SawUnwritten(c: Config, run: seq<State>, acts: seq<Act>, i: nat, j: nat, t: Tid)
    requires i < j < |run| && j <= |acts|
  {
    && acts[i].t == t && t < |run[i].pcs| && ReadsHead(run[i], run[i].pcs[t])
    && run[i].head.off < c.cap && !Published(c, run[i].tail, run[i].writer, run[i].head)
    && forall k :: i < k <= j ==> t < |run[k].pcs| && SaysUnwritten(run[k].pcs[t])
  }

  /** A pop reports no value only if the slot at the true head was unwritten at the moment this very
      pop read its state. */
  lemma NoneIsExact(c: Config, run: seq<State>, acts: seq<Act>, j: nat, t: Tid)
    requires IsRun(c, run, acts) && j < |run| && t < |run[j].pcs| && run[j].pcs[t].ReportNone?
    ensures exists i :: 0 <= i < j && SawUnwritten(c, run, acts, i, j, t)
  {
    var i := NoneSince(c, run, acts, j, t);
  }

  /** What holds of a step of a run, for thread `t`: it is another's, or a verdict of its own. */
  lemma RunVerdict(c: Config, run: seq<State>, acts: seq<Act>, j: nat, t: Tid)
    requires IsRun(c, run, acts) && j + 1 < |run| && t < |run[j + 1].pcs|
    ensures |run| == |acts| + 1 && |run[j].pcs| == |run[j + 1].pcs| && Inv(c, run[j]) && Inv(c, run[j + 1])
    ensures AtMost(run[j].head, run[j + 1].head)
    ensures if acts[j].t == t then VerdictsOk(c, run[j], run[j].pcs[t], run[j + 1].pcs[t])
            else run[j + 1].pcs[t] == run[j].pcs[t]
  {
    hide Inv, Step, StepOf, Published, StepOk, VerdictsOk;
    RunInv(c, run, acts, j);
    RunInv(c, run, acts, j + 1);
    var a := acts[j];
    assert run[j + 1] == Step(c, run[j], a.t, a.ch);
    StepIsOk(c, run[j], a.t, a.ch);
    StepGrows(c, run[j], run[j + 1], a.t);
    if a.t == t {
      StepMoves(c, run[j], t, a.ch);
      StepVerdicts(c, run[j], t, a.ch);
    }
  }

  /** The verdict a thread reports was formed when it last read a slot state. */
  lemma {:induction false} NoneSince(c: Config, run: seq<State>, acts: seq<Act>, j: nat, t: Tid) returns (i: nat)
    requires IsRun(c, run, acts) && j < |run| && t < |run[j].pcs| && run[j].pcs[t].ReportNone?
    ensures i < j && SawUnwritten(c, run, acts, i, j, t)
    decreases j
  {
    hide Inv, Step, Published, IsRun, ReadsHead;
    if j == 0 { InitiallySilent(c, run, acts, t); }
    RunVerdict(c, run, acts, j - 1, t);
    Truthful(c, run[j], t);
    var s, was := run[j - 1], run[j - 1].pcs[t];
    if acts[j - 1].t != t {
      i := NoneSince(c, run, acts, j - 1, t);
    } else if was.Taking? {
      i := RecheckSince(c, run, acts, j - 1, t, s.head);
    } else {
      i := j - 1;
      SoloReadsHead(c, s, t, was.solo);
    }
  }

  /** A thread that has come back to the head it looked at looked at the true head. */
  lemma {:induction false} RecheckSince(c: Config, run: seq<State>, acts: seq<Act>, j: nat, t: Tid, h: Pos)
      returns (i: nat)
    requires IsRun(c, run, acts) && j < |run| && t < |run[j].pcs| && run[j].pcs[t] == Taking(Recheck(h, true))
    requires AtMost(run[j].head, h)
    ensures i < j && SawUnwritten(c, run, acts, i, j, t)
    decreases j
  {
    hide Inv, Step, Published, IsRun, ReadsHead;
    if j == 0 { InitiallySilent(c, run, acts, t); }
    RunVerdict(c, run, acts, j - 1, t);
    BeforeTransitive(run[j - 1].head, run[j].head, h);
    if acts[j - 1].t != t {
      i := RecheckSince(c, run, acts, j - 1, t, h);
    } else {
      i := j - 1;
      LookReadsHead(c, run[i], t, h, run[i].pcs[t].take.b);
    }
  }

  lemma BeforeTransitive(p: Pos, q: Pos, r: Pos)
    requires AtMost(p, q) && AtMost(q, r)
    ensures AtMost(p, r)
  {
  }

  lemma Truthful(c: Config, s: State, t: Tid)
    requires Inv(c, s) && t < |s.pcs| && s.pcs[t].ReportNone?
    ensures s.pcs[t].unwritten
  {
    hide SharedOk;
    Knows(c, s, t);
  }

  lemma LookReadsHead(c: Config, s: State, t: Tid, h: Pos, b: Id)
    requires Inv(c, s) && t < |s.pcs| && s.pcs[t] == Taking(Look(h, b)) && h.off != c.cap && AtMost(s.head, h)
    ensures ReadsHead(s, s.pcs[t]) && s.head.off < c.cap
  {
    hide SharedOk;
    Knows(c, s, t);
  }

  lemma SoloReadsHead(c: Config, s: State, t: Tid, pc: SoloPc)
    requires Inv(c, s) && t < |s.pcs| && s.pcs[t] == Batching(pc) && pc.SoloLook? && pc.count == 0
    ensures ReadsHead(s, s.pcs[t]) && s.head.off < c.cap
  {
    hide HeadTailOk, CountsOk, LiveOk, StartOk, LinksOk, MarksOk, TagsOk, ContentOk, PoolOk, OrderOk, WritersOk,
      ReadersOk, GotOk;
    Knows(c, s, t);
  }

  lemma StepMoves(c: Config, s: State, t: Tid, ch: Choice)
    requires t < |s.pcs| && StepOk(c, s, Step(c, s, t, ch), t)
    ensures Step(c, s, t, ch).pcs[t] == StepOf(c, s, t, ch).pc
  {
    hide StepOf, SharedOk, Rely, ThreadOk;
  }

  lemma InitiallySilent(c: Config, run: seq<State>, acts: seq<Act>, t: Tid)
    requires IsRun(c, run, acts) && t < |run[0].pcs|
    ensures run[0].pcs[t] == Idle
  {
    hide Step;
  }
}
