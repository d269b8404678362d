/**
  Receives of the block queue from call to return.
*/
module QueueReceives {
  import opened Basics
  import opened Positions
  import opened QueueModel
  import opened QueueInvariant
  import opened QueueStepOk
  import opened QueueTheorems
  import opened QueueCalls
  import opened QueueRefinement
  import QueueOnce
  import QueueSafety
  import QueueRely

  // ---- What a thread's own steps deliver --------------------------------------------------------

  function Added(order: seq<Pos>, order': seq<Pos>): seq<Pos> {
    if |order| <= |order'| then order'[|order|..] else []
  }

  /** The positions the head has passed by thread `t`'s own steps, from state `i` to state `j`. */
  function Delivered(run: seq<State>, acts: seq<Act>, t: Tid, i: nat, j: nat): seq<Pos>
    requires i <= j < |run| && j <= |acts|
    decreases j
  {
    if i == j then []
    else
      Delivered(run, acts, t, i, j - 1) + if acts[j - 1].t == t then Added(run[j - 1].order, run[j].order) else []
  }

  /** The position a step has copied out of its slot. */
  function CopiedBy(got: map<Pos, Value>, got': map<Pos, Value>, pc: Pc): seq<Pos> {
    match QueueOnce.Copying(pc)
    case Some(p) => if p !in got && p in got' then [p] else []
    case None => []
  }

  function CopiesNext(pc: Pc): seq<Pos> {
    match QueueOnce.Copying(pc)
    case Some(p) => [p]
    case None => []
  }

  /** The positions thread `t` has copied out, in that order. */
  function Copies(run: seq<State>, acts: seq<Act>, t: Tid, i: nat, j: nat): seq<Pos>
    requires i <= j < |run| && j <= |acts|
    decreases j
  {
    if i == j then []
    else
      Copies(run, acts, t, i, j - 1) +
      if acts[j - 1].t == t && t < |run[j - 1].pcs| then CopiedBy(run[j - 1].got, run[j].got, run[j - 1].pcs[t]) else []
  }

  /** The positions by which a step moves the head on. */
  function PassedBy(was: Pc, now: Pc): seq<Pos> {
    match was
    case Taking(_) => if now.Reading? then [now.p] else []
    case Batching(SoloAdvance(h, _, count, _)) => Range(h, count)
    case _ => []
  }

  /** They are the next ones in line. */
  predicate InLine(cap: nat, xs: seq<Pos>, base: nat) {
    forall k :: 0 <= k < |xs| ==> xs[k].off < cap && Rank(cap, xs[k]) == base + k
  }

  lemma SameInLine(cap: nat, xs: seq<Pos>, ys: seq<Pos>, base: nat)
    requires InLine(cap, xs, base) && InLine(cap, ys, base) && |xs| == |ys|
    ensures xs == ys
  {
    hide Rank;
    forall k | 0 <= k < |xs| ensures xs[k] == ys[k] { RankInjective(cap, xs[k], ys[k]); }
  }

  lemma {:induction false} RangeInLine(cap: nat, h: Pos, count: nat)
    requires h.off + count <= cap
    ensures |Range(h, count)| == count && InLine(cap, Range(h, count), Rank(cap, h))
    decreases count
  {
    if count > 0 { RangeInLine(cap, h, count - 1); }
  }

  /** A step moves the head over what it passes. */
  lemma HeadStep(c: Config, s: State, t: Tid, ch: Choice)
    requires Inv(c, s) && t < |s.pcs|
    ensures var xs := PassedBy(s.pcs[t], StepOf(c, s, t, ch).pc);
      Rank(c.cap, Step(c, s, t, ch).head) == Rank(c.cap, s.head) + |xs| && InLine(c.cap, xs, Rank(c.cap, s.head))
  {
    hide Inv, Step, Rank, Pending, StepClaim, StepFind, StepInstall, StepWrite, StepTake, StepRead, StepMove,
      StepLeave, StepSolo, StepCall, Range;
    StepRefines(c, s, t, ch);
    match s.pcs[t]
    case Taking(pc) => TakesNext(c, s, t, ch, pc);
    case Batching(pc) => SoloTakesNext(c, s, t, ch, pc);
    case _ =>
  }

  lemma TakesNext(c: Config, s: State, t: Tid, ch: Choice, pc: TakePc)
    requires Inv(c, s) && t < |s.pcs| && s.pcs[t] == Taking(pc)
    ensures var now := StepTake(c, s, t, ch, pc).pc;
      now.Reading? ==> pc.CasHead? && now.p == s.head == pc.h && InLine(c.cap, [now.p], Rank(c.cap, s.head))
  {
    hide SharedOk, Taken, Rank;
    Knows(c, s, t);
  }

  lemma SoloTakesNext(c: Config, s: State, t: Tid, ch: Choice, pc: SoloPc)
    requires Inv(c, s) && t < |s.pcs| && s.pcs[t] == Batching(pc)
    ensures pc.SoloAdvance? ==>
      |Range(pc.h, pc.count)| == pc.count && InLine(c.cap, Range(pc.h, pc.count), Rank(c.cap, s.head))
  {
    hide SharedOk, Rank, InLine, Range, Prefix;
    Knows(c, s, t);
    if pc.SoloAdvance? { RangeInLine(c.cap, pc.h, pc.count); }
  }

  lemma OrderStep(c: Config, s: State, t: Tid, ch: Choice)
    requires Inv(c, s) && t < |s.pcs|
    ensures Added(s.order, Step(c, s, t, ch).order) == PassedBy(s.pcs[t], StepOf(c, s, t, ch).pc)
  {
    hide Inv, Step, StepOf, Rank, StepOk, PassedBy;
    var s', xs := Step(c, s, t, ch), PassedBy(s.pcs[t], StepOf(c, s, t, ch).pc);
    HeadStep(c, s, t, ch);
    StepIsOk(c, s, t, ch);
    StepOkInv(c, s, s', t);
    QueueSafety.StepGrows(c, s, s', t);
    OrderRanks(c, s);
    OrderRanks(c, s');
    SameInLine(c.cap, xs, Added(s.order, s'.order), Rank(c.cap, s.head));
  }

  lemma OrderRanks(c: Config, s: State)
    requires Inv(c, s)
    ensures |s.order| == Rank(c.cap, s.head)
    ensures forall i :: 0 <= i < |s.order| ==> s.order[i].off < c.cap && Rank(c.cap, s.order[i]) == i
  {
    hide HeadTailOk, CountsOk, LiveOk, StartOk, LinksOk, MarksOk, TagsOk, ContentOk, PoolOk, DutyOk, ThreadsOk, Rank;
  }

  /** A thread that is about to copy out a position does so with its next step, and is the first. */
  lemma CopyStep(c: Config, s: State, t: Tid, ch: Choice)
    requires t < |s.pcs| && QueueOnce.OnceOk(s.head, s.got, s.pcs) && !StepOf(c, s, t, ch).pc.Crashed?
    ensures CopiedBy(s.got, Step(c, s, t, ch).got, s.pcs[t])
      == CopiesNext(s.pcs[t])
    ensures QueueOnce.Copying(s.pcs[t]).Some? ==> QueueOnce.Copying(s.pcs[t]).value in Step(c, s, t, ch).got
  {
    hide StepOf, QueueOnce.InSomeBatch;
    match s.pcs[t]
    case Reading(p, b, Copy) => ReadCopies(c, s, t, ch, p, b);
    case Batching(SoloCopy(h, b, limit, count)) => SoloCopies(c, s, t, ch, h, b, limit, count);
    case _ =>
  }

  lemma ReadCopies(c: Config, s: State, t: Tid, ch: Choice, p: Pos, b: Id)
    requires t < |s.pcs| && s.pcs[t] == Reading(p, b, Copy) && !StepOf(c, s, t, ch).pc.Crashed?
    ensures p in StepOf(c, s, t, ch).after.got
  {
  }

  lemma SoloCopies(c: Config, s: State, t: Tid, ch: Choice, h: Pos, b: Id, limit: nat, count: nat)
    requires t < |s.pcs| && s.pcs[t] == Batching(SoloCopy(h, b, limit, count)) && !StepOf(c, s, t, ch).pc.Crashed?
    ensures Pos(h.lap, h.off + count) in StepOf(c, s, t, ch).after.got
  {
  }

  // ---- Pops -------------------------------------------------------------------------------------

  /** What a pop has done so far, at each of its program points. */
  predicate PopSoFar(pc: Pc, taken: seq<Pos>, copied: seq<Pos>) {
    match pc
    case Taking(_) => taken == [] && copied == []
    case ReportNone(_) => taken == [] && copied == []
    case ReportBusy => taken == [] && copied == []
    case Reading(p, _, Copy) => taken == [p] && copied == []
    case Reading(p, _, Mark) => taken == copied == [p]
    case Moving(p, _, _) => taken == copied == [p]
    case Leaving(_) => |taken| == 1 && copied == taken
    case _ => false
  }

  /** Where a pop goes from each of its program points. */
  predicate PopGoes(s: State, was: Pc, now: Pc) {
    match was
    case Taking(at) =>
      || (now.Taking? && (now.take.LoadBlock? ==> now.take.h == s.head && !at.LoadBlock? && !at.Look?)
          && (now.take.Look? ==> at == LoadBlock(now.take.h)) && !now.take.LoadHead?)
      || (now.Taking? && now.take.LoadHead? && at.Look?)
      || now.ReportNone? || (now.Reading? && now.read.Copy?)
      || now.ReportBusy?
    case ReportNone(_) => now == Idle
    case ReportBusy => now == Idle
    case Reading(p, _, Copy) => (now.Moving? && now.p == p) || (now.Reading? && now.p == p && now.read.Mark?)
    case Reading(_, _, Mark) => now == Idle
    case Moving(p, _, _) => (now.Moving? && now.p == p) || now.Leaving?
    case Leaving(_) => now.Leaving? || now == Idle
    case _ => true
  }

  lemma TakeGoes(c: Config, s: State, t: Tid, ch: Choice, pc: TakePc)
    ensures PopGoes(s, Taking(pc), StepTake(c, s, t, ch, pc).pc)
    ensures StepTake(c, s, t, ch, pc).pc.ReportBusy? ==> pc.Look? && IsSentinel(c.cap, pc.h)
  {
    hide Published, Taken;
  }

  lemma ReadGoes(c: Config, s: State, t: Tid, p: Pos, b: Id, pc: ReadPc)
    ensures var now := StepRead(c, s, t, p, b, pc).pc; now.Crashed? || PopGoes(s, Reading(p, b, pc), now)
  {
  }

  lemma MoveGoes(c: Config, s: State, t: Tid, p: Pos, b: Id, pc: MovePc)
    ensures var now := StepMove(c, s, t, p, b, pc).pc; now.Crashed? || PopGoes(s, Moving(p, b, pc), now)
  {
  }

  lemma LeaveGoes(c: Config, s: State, t: Tid, pc: LeavePc)
    ensures PopGoes(s, Leaving(pc), StepLeave(c, s, t, pc).pc)
  {
  }

  lemma PopStep(c: Config, s: State, t: Tid, ch: Choice)
    requires t < |s.pcs| && !StepOf(c, s, t, ch).pc.Crashed?
    ensures PopGoes(s, s.pcs[t], StepOf(c, s, t, ch).pc)
  {
    hide StepClaim, StepFind, StepInstall, StepWrite, StepTake, StepRead, StepMove, StepLeave, StepSolo;
    match s.pcs[t]
    case Taking(pc) => TakeGoes(c, s, t, ch, pc);
    case Reading(p, b, pc) => ReadGoes(c, s, t, p, b, pc);
    case Moving(p, b, pc) => MoveGoes(c, s, t, p, b, pc);
    case Leaving(pc) => LeaveGoes(c, s, t, pc);
    case _ =>
  }

  /** One step of a pop, on what it has delivered and copied. */
  lemma PopAdds(c: Config, s: State, t: Tid, ch: Choice, taken: seq<Pos>, copied: seq<Pos>)
    requires t < |s.pcs| && PopSoFar(s.pcs[t], taken, copied) && PopGoes(s, s.pcs[t], StepOf(c, s, t, ch).pc)
    ensures var now := StepOf(c, s, t, ch).pc;
      var taken', copied' := taken + PassedBy(s.pcs[t], now),
                             copied + CopiesNext(s.pcs[t]);
      if now != Idle then PopSoFar(now, taken', copied')
      else if s.pcs[t].ReportNone? || s.pcs[t].ReportBusy? then taken' == copied' == []
      else |taken'| == 1 && copied' == taken'
  {
    hide StepOf;
  }

  /** A step of a run, on what thread `t` has delivered and copied. */
  lemma RunAdds(c: Config, run: seq<State>, acts: seq<Act>, i: nat, j: nat, t: Tid)
    requires IsRun(c, run, acts) && i <= j < |acts| && t < |run[j].pcs| && |run| == |acts| + 1
    ensures acts[j].t != t ==> Delivered(run, acts, t, i, j + 1) == Delivered(run, acts, t, i, j)
    ensures acts[j].t != t ==> Copies(run, acts, t, i, j + 1) == Copies(run, acts, t, i, j)
    ensures acts[j].t == t ==>
      && Delivered(run, acts, t, i, j + 1)
         == Delivered(run, acts, t, i, j) + PassedBy(run[j].pcs[t], StepOf(c, run[j], t, acts[j].ch).pc)
      && Copies(run, acts, t, i, j + 1)
         == Copies(run, acts, t, i, j) + CopiesNext(run[j].pcs[t])
  {
    hide Inv, Step, StepOf, StepOk, PassedBy, CopiedBy, Added, QueueOnce.OnceOk, CopiesNext;
    RunStep(c, run, acts, j);
    if acts[j].t == t {
      OrderStep(c, run[j], t, acts[j].ch);
      QueueOnce.RunOnce(c, run, acts, j);
      Alive(c, run[j + 1], t);
      CopyStep(c, run[j], t, acts[j].ch);
    }
  }

  lemma NothingYet(run: seq<State>, acts: seq<Act>, t: Tid, i: nat)
    requires i < |run| && i <= |acts|
    ensures Delivered(run, acts, t, i, i) == Copies(run, acts, t, i, i) == []
  {
  }

  lemma {:induction false} PopRuns(c: Config, run: seq<State>, acts: seq<Act>, i: nat, j: nat, t: Tid)
    requires IsRun(c, run, acts) && !c.exclusive && Within(run, acts, i, j, t, StartPop)
    ensures PopSoFar(run[j].pcs[t], Delivered(run, acts, t, i, j), Copies(run, acts, t, i, j))
    decreases j
  {
    hide Inv, Step, StepOf, StepOk, PopSoFar, PassedBy, CopiedBy, Added, CopiesNext, PopGoes, Copies,
      Delivered;
    RunStep(c, run, acts, j - 1);
    RunAdds(c, run, acts, i, j - 1, t);
    if j == i + 1 {
      NothingYet(run, acts, t, i);
      PopStarts(c, run[i], t);
    } else {
      PopRuns(c, run, acts, i, j - 1, t);
      var a := acts[j - 1];
      if a.t == t {
        Alive(c, run[j], t);
        PopStep(c, run[j - 1], t, a.ch);
        PopAdds(c, run[j - 1], t, a.ch, Delivered(run, acts, t, i, j - 1), Copies(run, acts, t, i, j - 1));
      }
    }
  }

  lemma PopStarts(c: Config, s: State, t: Tid)
    requires t < |s.pcs| && s.pcs[t] == Idle && !c.exclusive
    ensures PopSoFar(StepOf(c, s, t, StartPop).pc, PassedBy(Idle, StepOf(c, s, t, StartPop).pc), [])
    ensures CopiesNext(Idle) == [] && PassedBy(Idle, StepOf(c, s, t, StartPop).pc) == []
  {
  }

  /** A pop that is over has moved the head over one position and copied out the value there, which is the
      one pushed there; or it has reported that there was nothing to take, and has taken and copied
      nothing. */
  lemma PopReturns(c: Config, run: seq<State>, acts: seq<Act>, i: nat, j: nat, t: Tid)
    requires IsRun(c, run, acts) && !c.exclusive && Returns(run, acts, i, j, t, StartPop)
    ensures var taken, s := Delivered(run, acts, t, i, j + 1), run[j + 1];
      && Copies(run, acts, t, i, j + 1) == taken
      && (if run[j].pcs[t].ReportNone? || run[j].pcs[t].ReportBusy? then taken == [] else |taken| == 1)
      && forall p :: p in taken ==> p in s.got && Rank(c.cap, p) < |s.log| && s.got[p] == s.log[Rank(c.cap, p)].v
  {
    hide Inv, Step, StepOf, StepOk, PopSoFar, PassedBy, CopiedBy, Added, CopiesNext, PopGoes, Copies,
      Delivered, Rank;
    RunStep(c, run, acts, j);
    RunAdds(c, run, acts, i, j, t);
    PopRuns(c, run, acts, i, j, t);
    PopStep(c, run[j], t, acts[j].ch);
    PopAdds(c, run[j], t, acts[j].ch, Delivered(run, acts, t, i, j), Copies(run, acts, t, i, j));
    CopiesPushed(c, run, acts, i, j + 1, t);
  }

  /** What a thread has copied out is what was pushed there. */
  lemma {:induction false} CopiesPushed(c: Config, run: seq<State>, acts: seq<Act>, i: nat, j: nat, t: Tid)
    requires IsRun(c, run, acts) && i <= j < |run| && t < |run[j].pcs|
    ensures var s := run[j]; forall p :: p in Copies(run, acts, t, i, j) ==>
      p in s.got && Rank(c.cap, p) < |s.log| && s.got[p] == s.log[Rank(c.cap, p)].v
    decreases j
  {
    hide Inv, Step, StepOf, StepOk, Rank;
    if i < j {
      RunStep(c, run, acts, j - 1);
      CopiesPushed(c, run, acts, i, j - 1, t);
      GotStays(c, run[j - 1], run[j], acts[j - 1].t);
      GotPushed(c, run[j]);
    }
  }

  lemma GotStays(c: Config, s: State, s': State, t: Tid)
    requires StepOk(c, s, s', t)
    ensures forall p :: p in s.got ==> p in s'.got
  {
    hide SharedOk, QueueRely.KeepsOthers, QueueRely.KeepsWrites, QueueRely.KeepsHead, ThreadOk;
  }

  lemma GotPushed(c: Config, s: State)
    requires Inv(c, s)
    ensures forall p :: p in s.got ==> Rank(c.cap, p) < |s.log| && s.got[p] == s.log[Rank(c.cap, p)].v
  {
    hide MemoryOk, ThreadsOk, WritersOk, ReadersOk, MovingOk, Rank;
  }

  // ---- Giving up on a transition ----------------------------------------------------------------

  /** A pop that has read the head `h` and not acted on it yet, or has given up on it. */
  predicate ActsOn(pc: Pc, h: Pos) {
    match pc
    case Taking(LoadBlock(h0)) => h0 == h
    case Taking(Look(h0, _)) => h0 == h
    case ReportBusy => true
    case _ => false
  }

  /** At step `i` thread `t` reads the head, which is on a sentinel, while another thread is in the middle
      of a block transition; up to state `j` it does nothing but act on that. */
  predicate SawTransition(c: Config, run: seq<State>, acts: seq<Act>, i: nat, j: nat, t: Tid)
    requires i < j < |run| && j <= |acts|
  {
    && acts[i].t == t && run[i].head.off == c.cap && run[i].moving.Some? && run[i].moving.value != t
    && forall k :: i < k <= j ==> t < |run[k].pcs| && ActsOn(run[k].pcs[t], run[i].head)
  }

  /** A pop gives up without having read a slot only if this very pop has read a head that was on a
      sentinel at that moment, with a transition of another thread under way. */
  lemma BusyIsExact(c: Config, run: seq<State>, acts: seq<Act>, j: nat, t: Tid)
    requires IsRun(c, run, acts) && j < |run| && t < |run[j].pcs| && run[j].pcs[t] == ReportBusy
    ensures exists i :: 0 <= i < j && SawTransition(c, run, acts, i, j, t)
  {
    var i := BusySince(c, run, acts, j, t);
  }

  lemma {:induction false} BusySince(c: Config, run: seq<State>, acts: seq<Act>, j: nat, t: Tid) returns (i: nat)
    requires IsRun(c, run, acts) && j < |run| && t < |run[j].pcs| && run[j].pcs[t] == ReportBusy
    ensures i < j && SawTransition(c, run, acts, i, j, t)
    decreases j
  {
    hide Inv, Step, StepOf, StepOk;
    if j == 0 { QueueSafety.InitiallySilent(c, run, acts, t); }
    RunStep(c, run, acts, j - 1);
    if acts[j - 1].t != t {
      i := BusySince(c, run, acts, j - 1, t);
    } else {
      BusyFrom(c, run[j - 1], t, acts[j - 1].ch);
      i := HeadSince(c, run, acts, j - 1, t, run[j - 1].pcs[t].take.h);
    }
  }

  /** A head that a pop acts on was read by it. */
  lemma {:induction false} HeadSince(c: Config, run: seq<State>, acts: seq<Act>, j: nat, t: Tid, h: Pos)
      returns (i: nat)
    requires IsRun(c, run, acts) && j < |run| && t < |run[j].pcs|
    requires run[j].pcs[t].Taking? && ActsOn(run[j].pcs[t], h) && h.off == c.cap
    ensures i < j && run[i].head == h && SawTransition(c, run, acts, i, j, t)
    decreases j
  {
    hide Inv, Step, StepOf, StepOk;
    if j == 0 { QueueSafety.InitiallySilent(c, run, acts, t); }
    RunStep(c, run, acts, j - 1);
    if acts[j - 1].t == t { TakingFrom(c, run[j - 1], t, acts[j - 1].ch); }
    if acts[j - 1].t != t || run[j].pcs[t].take.Look? {
      i := HeadSince(c, run, acts, j - 1, t, h);
    } else {
      i := j - 1;
      OthersMove(c, run[i], t);
    }
  }

  /** Only a look at a sentinel gives up. */
  lemma BusyFrom(c: Config, s: State, t: Tid, ch: Choice)
    requires t < |s.pcs| && StepOf(c, s, t, ch).pc == ReportBusy
    ensures s.pcs[t].Taking? && s.pcs[t].take.Look? && s.pcs[t].take.h.off == c.cap
  {
    hide StepClaim, StepFind, StepInstall, StepWrite, StepTake, StepRead, StepMove, StepLeave, StepSolo;
    AwayFromHead(c, s, t, ch);
    if s.pcs[t].Taking? { TakeGoes(c, s, t, ch, s.pcs[t].take); }
  }

  /** A head is acted on only after it was loaded. */
  lemma TakingFrom(c: Config, s: State, t: Tid, ch: Choice)
    requires t < |s.pcs| && StepOf(c, s, t, ch).pc.Taking? && !StepOf(c, s, t, ch).pc.take.LoadHead?
    ensures s.pcs[t].Taking?
    ensures StepOf(c, s, t, ch).pc.take.LoadBlock? ==> StepOf(c, s, t, ch).pc.take.h == s.head
    ensures StepOf(c, s, t, ch).pc.take.Look? ==> s.pcs[t] == Taking(LoadBlock(StepOf(c, s, t, ch).pc.take.h))
  {
    hide StepClaim, StepFind, StepInstall, StepWrite, StepTake, StepRead, StepMove, StepLeave, StepSolo;
    AwayFromHead(c, s, t, ch);
    if s.pcs[t].Taking? { TakeGoes(c, s, t, ch, s.pcs[t].take); }
  }

  /** No other part of the protocol looks at the head, or gives up. */
  lemma AwayFromHead(c: Config, s: State, t: Tid, ch: Choice)
    requires t < |s.pcs|
    ensures var now := StepOf(c, s, t, ch).pc;
      s.pcs[t].Taking? || (now != ReportBusy && (now.Taking? ==> now.take.LoadHead?))
  {
    hide StepClaim, StepFind, StepInstall, StepWrite, StepTake, StepRead, StepMove, StepLeave, StepSolo;
    match s.pcs[t]
    case Claiming(v, pc) => ClaimGoes(c, s, t, ch, v, pc);
    case Finding(m, pc) => FindGoes(c, s, t, m, pc);
    case Installing(m, b, pc) => InstallGoes(c, s, t, ch, m, b, pc);
    case Writing(m, b, pc) => WriteGoes(c, s, t, m, b, pc);
    case Reading(p, b, pc) => ReadGoes(c, s, t, p, b, pc);
    case Moving(p, b, pc) => MoveGoes(c, s, t, p, b, pc);
    case Leaving(pc) => LeaveGoes(c, s, t, pc);
    case Batching(pc) => SoloGoes(c, s, t, pc);
    case _ =>
  }

  lemma SoloGoes(c: Config, s: State, t: Tid, pc: SoloPc)
    ensures var now := StepSolo(c, s, t, pc).pc;
      now.Batching? || now.Leaving? || now.ReportNone? || now.Crashed? || now == Idle
  {
    hide Published, HeadBlockMoved, Advanced;
  }

  /** The head is on a sentinel only while some other thread moves it on to the next block. */
  lemma OthersMove(c: Config, s: State, t: Tid)
    requires Inv(c, s) && t < |s.pcs| && s.head.off == c.cap && s.pcs[t].Taking?
    ensures s.moving.Some? && s.moving.value != t
  {
    hide MemoryOk, WritersOk, ReadersOk, GotOk, ThreadsOk;
  }

  /** So a pop during which the head stays on value positions does not give up: it takes a value, or finds
      the one at the head unwritten. */
  lemma BusyNeedsTransition(c: Config, run: seq<State>, acts: seq<Act>, i: nat, j: nat, t: Tid)
    requires IsRun(c, run, acts) && Within(run, acts, i, j, t, StartPop)
    requires forall k :: i <= k < j ==> run[k].head.off < c.cap
    ensures run[j].pcs[t] != ReportBusy
  {
    hide Step;
    if run[j].pcs[t] == ReportBusy {
      var k := BusySince(c, run, acts, j, t);
      assert false;
    }
  }

  // ---- Leaving a block to its readers -----------------------------------------------------------

  /** At step `i` thread `t` finds slot `n` of block `b` not marked read; up to state `j` it does nothing but
      retire the block. */
  predicate SawUnmarked(run: seq<State>, acts: seq<Act>, i: nat, j: nat, t: Tid, b: Id, n: nat)
    requires i < j < |run| && j <= |acts|
  {
    && acts[i].t == t && Slot(b, n) !in run[i].marked
    && forall k :: i < k <= j ==> t < |run[k].pcs| && Retires(run[k].pcs[t], b)
  }

  predicate Retires(pc: Pc, b: Id) {
    pc.Leaving? && pc.leave.Retire? && pc.leave.b == b
  }

  /** A consumer that has moved the head off a block retires it, instead of recycling it at once, only if it
      has itself found a slot of it that its reader has not marked yet. */
  lemma {:induction false} RetiredIsExact(c: Config, run: seq<State>, acts: seq<Act>, j: nat, t: Tid, b: Id)
      returns (i: nat, n: nat)
    requires IsRun(c, run, acts) && j < |run| && t < |run[j].pcs| && Retires(run[j].pcs[t], b)
    ensures i < j && n < c.cap - 1 && SawUnmarked(run, acts, i, j, t, b, n)
    decreases j
  {
    hide Inv, Step, StepOf, StepOk;
    if j == 0 { QueueSafety.InitiallySilent(c, run, acts, t); }
    RunStep(c, run, acts, j - 1);
    if acts[j - 1].t != t {
      i, n := RetiredIsExact(c, run, acts, j - 1, t, b);
    } else {
      n := RetiresFrom(c, run[j - 1], t, acts[j - 1].ch, b);
      i := j - 1;
    }
  }

  lemma RetiresFrom(c: Config, s: State, t: Tid, ch: Choice, b: Id) returns (n: nat)
    requires t < |s.pcs| && Retires(StepOf(c, s, t, ch).pc, b)
    ensures n < c.cap - 1 && Slot(b, n) !in s.marked
  {
    hide StepClaim, StepFind, StepInstall, StepWrite, StepTake, StepRead, StepMove, StepSolo;
    match s.pcs[t]
    case Claiming(v, pc) => ClaimGoes(c, s, t, ch, v, pc);
    case Finding(m, pc) => FindGoes(c, s, t, m, pc);
    case Installing(m, b0, pc) => InstallGoes(c, s, t, ch, m, b0, pc);
    case Writing(m, b0, pc) => WriteGoes(c, s, t, m, b0, pc);
    case Taking(pc) => TakeGoes(c, s, t, ch, pc);
    case Reading(p, b0, pc) => ReadGoes(c, s, t, p, b0, pc);
    case Moving(p, b0, pc) => MoveScans(c, s, t, p, b0, pc);
    case Batching(pc) => SoloRecycles(c, s, t, pc);
    case Leaving(pc) => n := pc.j;
    case _ =>
  }

  lemma MoveScans(c: Config, s: State, t: Tid, p: Pos, b: Id, pc: MovePc)
    ensures var now := StepMove(c, s, t, p, b, pc).pc; now.Leaving? ==> now.leave.Scan?
  {
  }

  lemma SoloRecycles(c: Config, s: State, t: Tid, pc: SoloPc)
    ensures var now := StepSolo(c, s, t, pc).pc; now.Leaving? ==> now.leave.Recycle?
  {
    hide Published, HeadBlockMoved, Advanced;
  }

  // ---- Exclusive receives -----------------------------------------------------------------------

  /** Why a batch that has taken `n` values ends before position `p`: the limit, the end of the block, or
      a slot that thread `t` has found unpublished since step `i`. */
  ghost predicate EndsBatch(c: Config, run: seq<State>, acts: seq<Act>, i: nat, j: nat, t: Tid, limit: nat, n: nat,
                            p: Pos)
    requires j < |run| && j <= |acts|
  {
    || n == limit || p.off == c.cap
    || exists k :: i < k < j && acts[k].t == t && !Published(c, run[k].tail, run[k].writer, p)
  }

  /** The position after the last one taken. */
  function After(taken: seq<Pos>): Pos {
    if |taken| == 0 then Pos(0, 0) else Pos(taken[|taken| - 1].lap, taken[|taken| - 1].off + 1)
  }

  /** What an exclusive receive has done so far, at each of its program points. */
  ghost predicate BatchSoFar(pc: Pc, limit: nat, taken: seq<Pos>, copied: seq<Pos>) {
    match pc
    case Batching(SoloHead(l)) => l == limit && taken == copied == []
    case Batching(SoloBlock(l, _)) => l == limit && taken == copied == []
    case Batching(SoloLook(h, _, l, n)) => l == limit && taken == [] && copied == Range(h, n)
    case Batching(SoloCopy(h, _, l, n)) => l == limit && taken == [] && copied == Range(h, n)
    case Batching(SoloNext(h, _, n)) => 1 <= n <= limit && taken == [] && copied == Range(h, n)
    case Batching(SoloMoveBlock(h, _, n, _)) => 1 <= n <= limit && taken == [] && copied == Range(h, n)
    case Batching(SoloAdvance(h, _, n, _)) => 1 <= n <= limit && taken == [] && copied == Range(h, n)
    case Batching(SoloPool(_)) => 1 <= |taken| <= limit && copied == taken
    case Leaving(_) => 1 <= |taken| <= limit && copied == taken
    case ReportNone(_) => taken == copied == []
    case _ => false
  }

  /** The end of the batch, once it is known: how many values, and the position after them. */
  function EndOf(pc: Pc, taken: seq<Pos>): Option<(nat, Pos)> {
    match pc
    case Batching(SoloNext(h, _, n)) => Some((n, Pos(h.lap, h.off + n)))
    case Batching(SoloMoveBlock(h, _, n, _)) => Some((n, Pos(h.lap, h.off + n)))
    case Batching(SoloAdvance(h, _, n, _)) => Some((n, Pos(h.lap, h.off + n)))
    case Batching(SoloPool(_)) => Some((|taken|, After(taken)))
    case Leaving(_) => Some((|taken|, After(taken)))
    case Idle => Some((|taken|, After(taken)))
    case _ => None
  }

  /** Where an exclusive receive goes from each of its program points. */
  ghost predicate SoloMoves(c: Config, s: State, was: SoloPc, now: Pc) {
    match was
    case SoloHead(l) => now.Batching? && now.solo.SoloBlock? && now.solo.limit == l
    case SoloBlock(l, h) =>
      now.Batching? && now.solo.SoloLook? && now.solo.limit == l && now.solo.h == h && now.solo.count == 0
    case SoloLook(h, b, l, n) =>
      || now == Batching(SoloCopy(h, b, l, n))
      || (n == 0 && now.ReportNone?)
      || (1 <= n <= l && h.off + n == c.cap && now == Batching(SoloNext(h, b, n)))
      || (1 <= n <= l && now == Batching(SoloAdvance(h, b, n, false))
          && (n == l || !Published(c, s.tail, s.writer, Pos(h.lap, h.off + n))))
    case SoloCopy(h, b, l, n) => now == Batching(SoloLook(h, b, l, n + 1))
    case SoloNext(h, b, n) => now.Batching? && now.solo.SoloMoveBlock? && now.solo.h == h && now.solo.count == n
    case SoloMoveBlock(h, b, n, _) => now == Batching(SoloAdvance(h, b, n, true))
    case SoloAdvance(h, b, n, last) => now == if last then Batching(SoloPool(b)) else Idle
    case SoloPool(_) => now.Leaving?
  }

  /** An old state word past the head, in the block that serves the head, shows that the position is
      unpublished. */
  lemma UntaggedUnpublished(c: Config, s: State, b: Id, p: Pos)
    requires SharedOk(c, s) && Serves(s.serves, p.lap, b) && AtMost(s.head, p)
    requires !(Slot(b, p.off) in s.tag && s.tag[Slot(b, p.off)] == p.lap)
    ensures !Published(c, s.tail, s.writer, p)
  {
    hide HeadTailOk, CountsOk, LiveOk, StartOk, LinksOk, MarksOk, TagsOk, PoolOk, OrderOk, DutyOk;
    assert Published(c, s.tail, s.writer, p) ==> Unread(c, s.head, s.tail, s.writer, s.reader, p);
  }

  lemma SoloLookMoves(c: Config, s: State, t: Tid, h: Pos, b: Id, l: nat, n: nat)
    requires Inv(c, s) && t < |s.pcs| && s.pcs[t] == Batching(SoloLook(h, b, l, n))
    ensures SoloMoves(c, s, SoloLook(h, b, l, n), StepSolo(c, s, t, SoloLook(h, b, l, n)).pc)
  {
    hide SharedOk, ThreadsOk, Published, Prefix;
    Knows(c, s, t);
    var x := Slot(b, h.off + n);
    if !(x in s.tag && s.tag[x] == h.lap) { UntaggedUnpublished(c, s, b, Pos(h.lap, h.off + n)); }
  }

  lemma SoloStepMoves(c: Config, s: State, t: Tid, pc: SoloPc)
    requires Inv(c, s) && t < |s.pcs| && s.pcs[t] == Batching(pc) && !StepSolo(c, s, t, pc).pc.Crashed?
    ensures SoloMoves(c, s, pc, StepSolo(c, s, t, pc).pc)
  {
    hide Inv, Published, HeadBlockMoved, Advanced;
    if pc.SoloLook? { SoloLookMoves(c, s, t, pc.h, pc.b, pc.limit, pc.count); }
  }

  lemma AfterRange(h: Pos, n: nat)
    requires n > 0
    ensures |Range(h, n)| == n && After(Range(h, n)) == Pos(h.lap, h.off + n)
  {
    RangeLength(h, n);
  }

  lemma {:induction false} RangeLength(h: Pos, n: nat)
    ensures |Range(h, n)| == n
    decreases n
  {
    if n > 0 { RangeLength(h, n - 1); }
  }

  /** A step of an exclusive receive, on what it has delivered and copied. */
  ghost predicate BatchGrows(limit: nat, was: Pc, now: Pc, taken: seq<Pos>, copied: seq<Pos>) {
    var taken', copied' := taken + PassedBy(was, now), copied + CopiesNext(was);
    if now != Idle then BatchSoFar(now, limit, taken', copied')
    else if was.ReportNone? then taken' == copied' == []
    else 1 <= |taken'| <= limit && copied' == taken'
  }

  /** It keeps the end of its batch, or has just found it. */
  ghost predicate EndKept(c: Config, s: State, limit: nat, was: Pc, now: Pc, taken: seq<Pos>) {
    var end, end' := EndOf(was, taken), EndOf(now, taken + PassedBy(was, now));
    end'.Some? ==>
      || end' == end || end'.value.0 == limit || end'.value.1.off == c.cap
      || !Published(c, s.tail, s.writer, end'.value.1)
  }

  lemma SoloGrows(c: Config, s: State, limit: nat, pc: SoloPc, now: Pc, taken: seq<Pos>, copied: seq<Pos>)
    requires BatchSoFar(Batching(pc), limit, taken, copied) && SoloMoves(c, s, pc, now)
    ensures BatchGrows(limit, Batching(pc), now, taken, copied)
  {
    hide Published;
    assert taken + [] == taken && copied + [] == copied;
    if pc.SoloAdvance? {
      RangeLength(pc.h, pc.count);
      assert [] + Range(pc.h, pc.count) == Range(pc.h, pc.count);
    }
  }

  lemma SoloKeepsEnd(c: Config, s: State, limit: nat, pc: SoloPc, now: Pc, taken: seq<Pos>, copied: seq<Pos>)
    requires BatchSoFar(Batching(pc), limit, taken, copied) && SoloMoves(c, s, pc, now)
    ensures EndKept(c, s, limit, Batching(pc), now, taken)
  {
    hide Published, After;
    assert taken + [] == taken;
    if pc.SoloAdvance? {
      AfterRange(pc.h, pc.count);
      assert [] + Range(pc.h, pc.count) == Range(pc.h, pc.count);
    }
  }

  lemma BatchAdds(c: Config, s: State, t: Tid, ch: Choice, limit: nat, taken: seq<Pos>, copied: seq<Pos>)
    requires Inv(c, s) && t < |s.pcs| && !StepOf(c, s, t, ch).pc.Crashed? && BatchSoFar(s.pcs[t], limit, taken, copied)
    ensures BatchGrows(limit, s.pcs[t], StepOf(c, s, t, ch).pc, taken, copied)
    ensures s.pcs[t].ReportNone? ==> StepOf(c, s, t, ch).pc == Idle
    ensures s.pcs[t].ReportNone? || EndKept(c, s, limit, s.pcs[t], StepOf(c, s, t, ch).pc, taken)
  {
    hide Inv, StepSolo, StepLeave, Published, After, SoloMoves, QueueOnce.InBatch;
    match s.pcs[t]
    case Batching(pc) =>
      SoloStepMoves(c, s, t, pc);
      SoloGrows(c, s, limit, pc, StepOf(c, s, t, ch).pc, taken, copied);
      SoloKeepsEnd(c, s, limit, pc, StepOf(c, s, t, ch).pc, taken, copied);
    case _ => OtherAdds(c, s, t, ch, limit, taken, copied);
  }

  lemma OtherAdds(c: Config, s: State, t: Tid, ch: Choice, limit: nat, taken: seq<Pos>, copied: seq<Pos>)
    requires t < |s.pcs| && !s.pcs[t].Batching? && BatchSoFar(s.pcs[t], limit, taken, copied)
    ensures BatchGrows(limit, s.pcs[t], StepOf(c, s, t, ch).pc, taken, copied)
    ensures s.pcs[t].ReportNone? ==> StepOf(c, s, t, ch).pc == Idle
    ensures s.pcs[t].ReportNone? || EndKept(c, s, limit, s.pcs[t], StepOf(c, s, t, ch).pc, taken)
  {
    hide StepLeave, Published, After;
    assert taken + [] == taken && copied + [] == copied;
    if s.pcs[t].Leaving? { LeaveGoes(c, s, t, s.pcs[t].leave); }
  }

  lemma {:induction false} BatchRuns(c: Config, run: seq<State>, acts: seq<Act>, i: nat, j: nat, t: Tid, limit: nat)
    requires IsRun(c, run, acts) && Within(run, acts, i, j, t, StartBatch(limit))
    ensures var taken := Delivered(run, acts, t, i, j);
      && BatchSoFar(run[j].pcs[t], limit, taken, Copies(run, acts, t, i, j))
      && match EndOf(run[j].pcs[t], taken)
         case Some(e) => EndsBatch(c, run, acts, i, j, t, limit, e.0, e.1)
         case None => true
    decreases j
  {
    hide Inv, Step, StepOf, StepOk, BatchSoFar, PassedBy, CopiedBy, Added, CopiesNext, Copies, Delivered, EndOf,
      Published;
    RunStep(c, run, acts, j - 1);
    RunAdds(c, run, acts, i, j - 1, t);
    if j == i + 1 {
      NothingYet(run, acts, t, i);
      BatchStarts(c, run[i], t, limit);
    } else {
      BatchRuns(c, run, acts, i, j - 1, t, limit);
      var a := acts[j - 1];
      if a.t == t {
        Alive(c, run[j], t);
        BatchAdds(c, run[j - 1], t, a.ch, limit, Delivered(run, acts, t, i, j - 1), Copies(run, acts, t, i, j - 1));
      }
    }
  }

  /** On an exclusive queue a receive begins unless another one is under way, and by whichever thread. */
  lemma BatchStarts(c: Config, s: State, t: Tid, limit: nat)
    requires t < |s.pcs| && s.pcs[t] == Idle
    ensures var now := StepOf(c, s, t, StartBatch(limit)).pc;
      && PassedBy(Idle, now) == CopiesNext(Idle) == []
      && if c.exclusive && limit > 0 && !InReceive(s.holder, s.pcs) then
           now != Idle && EndOf(now, []).None? && BatchSoFar(now, limit, [], [])
         else now == Idle
  {
  }

  /** An exclusive receive that is over has moved the head over at least one and at most `limit` positions
      and copied out exactly their values, in order, each the one pushed there; and it has taken as many as it
      could: up to the limit, to the end of the block, or to a slot it has found unpublished.  Or it has
      reported that there was nothing to take, and has taken and copied nothing. */
  lemma BatchReturns(c: Config, run: seq<State>, acts: seq<Act>, i: nat, j: nat, t: Tid, limit: nat)
    requires IsRun(c, run, acts) && Returns(run, acts, i, j, t, StartBatch(limit))
    ensures var taken, s := Delivered(run, acts, t, i, j + 1), run[j + 1];
      && Copies(run, acts, t, i, j + 1) == taken
      && (forall p :: p in taken ==> p in s.got && Rank(c.cap, p) < |s.log| && s.got[p] == s.log[Rank(c.cap, p)].v)
      && if run[j].pcs[t].ReportNone? then taken == []
         else 1 <= |taken| <= limit && EndsBatch(c, run, acts, i, j + 1, t, limit, |taken|, After(taken))
  {
    hide Inv, Step, StepOf, StepOk, BatchSoFar, PassedBy, CopiedBy, Added, CopiesNext, Copies, Delivered, Rank,
      Published;
    RunStep(c, run, acts, j);
    RunAdds(c, run, acts, i, j, t);
    BatchRuns(c, run, acts, i, j, t, limit);
    BatchAdds(c, run[j], t, acts[j].ch, limit, Delivered(run, acts, t, i, j), Copies(run, acts, t, i, j));
    CopiesPushed(c, run, acts, i, j + 1, t);
  }
}
