/**
  Operations of the block queue from call to return: what one push or one receive of one thread has
  done when it is over, whatever the other threads did meanwhile.
*/
module QueueCalls {
  import opened Basics
  import opened Positions
  import opened QueueModel
  import opened QueueInvariant
  import opened QueueStepOk
  import opened QueueTheorems
  import opened QueueRefinement
  import opened QueueSafety

  /** Thread `t` begins the operation `ch` with step `i`, and is still at it up to state `j`. */
  predicate Within(run: seq<State>, acts: seq<Act>, i: nat, j: nat, t: Tid, ch: Choice) {
    && i < j < |run| && j <= |acts| && acts[i] == Act(t, ch) && t < |run[i].pcs| && run[i].pcs[t] == Idle
    && forall k :: i < k <= j ==> t < |run[k].pcs| && run[k].pcs[t] != Idle
  }

  /** It is over with step `j`. */
  predicate Returns(run: seq<State>, acts: seq<Act>, i: nat, j: nat, t: Tid, ch: Choice) {
    && Within(run, acts, i, j, t, ch) && j < |acts| && j + 1 < |run|
    && t < |run[j + 1].pcs| && run[j + 1].pcs[t] == Idle
  }

  /** What every step of a run is, for each thread. */
  lemma RunStep(c: Config, run: seq<State>, acts: seq<Act>, j: nat)
    requires IsRun(c, run, acts) && j < |acts|
    ensures |run| == |acts| + 1 && Inv(c, run[j]) && Inv(c, run[j + 1])
    ensures acts[j].t < |run[j].pcs| && run[j + 1] == Step(c, run[j], acts[j].t, acts[j].ch)
    ensures StepOk(c, run[j], run[j + 1], acts[j].t)
    ensures run[j + 1].pcs == run[j].pcs[acts[j].t := StepOf(c, run[j], acts[j].t, acts[j].ch).pc]
  {
    hide Inv, Step, StepOf;
    RunInv(c, run, acts, j);
    RunInv(c, run, acts, j + 1);
    var a := acts[j];
    assert run[j + 1] == Step(c, run[j], a.t, a.ch);
    StepIsOk(c, run[j], a.t, a.ch);
    StepMoves(c, run[j], a.t, a.ch);
  }

  // ---- Pushes -----------------------------------------------------------------------------------

  /** From entry `base` of the log on, nothing is thread `t`'s. */
  predicate NoneBy(log: seq<Claimed>, base: nat, t: Tid) {
    forall n :: base <= n < |log| ==> log[n].who != t
  }

  /** From entry `base` of the log on, entry `n` is thread `t`'s value `v`, and no other is its. */
  predicate OneBy(log: seq<Claimed>, base: nat, t: Tid, v: Value, n: nat) {
    && base <= n < |log| && log[n] == Claimed(t, v)
    && forall k :: base <= k < |log| && k != n ==> log[k].who != t
  }

  /** Only a claim that succeeds adds to the log: one entry of its thread's. */
  lemma LogStep(c: Config, s: State, t: Tid, ch: Choice)
    requires Inv(c, s) && t < |s.pcs|
    ensures var log' := Step(c, s, t, ch).log;
      if s.pcs[t].Claiming? && StepOf(c, s, t, ch).pc.Finding? then log' == s.log + [Claimed(t, s.pcs[t].v)]
      else log' == s.log
  {
    hide Inv, Step, Rank, Pending, StepClaim, StepTake;
    StepRefines(c, s, t, ch);
  }

  /** What a push has done so far, at each of its program points. */
  predicate PushSoFar(c: Config, log: seq<Claimed>, base: nat, t: Tid, v: Value, pc: Pc) {
    match pc
    case Claiming(w, _) => w == v && NoneBy(log, base, t)
    case ReportFull(w) => w == v && NoneBy(log, base, t)
    case _ => ClaimOf(pc).Some? && ClaimOf(pc).value.v == v && OneBy(log, base, t, v, Rank(c.cap, ClaimOf(pc).value.p))
  }

  /** Where a push goes from each of its program points. */
  predicate PushGoes(s: State, was: Pc, o: Outcome) {
    match was
    case Claiming(v, _) =>
      || (o.pc.Claiming? && o.pc.v == v) || o.pc == ReportFull(v)
      || (o.pc.Finding? && o.pc.m == Msg(s.tail, v))
    case ReportFull(_) => o.pc == Idle
    case _ =>
      ClaimOf(was).Some? ==>
        if was.Writing? && was.write.Publish? then
          o.pc == Idle && o.after.writer == s.writer - {was.m.p} && o.after.tail == s.tail
        else ClaimOf(o.pc) == ClaimOf(was)
  }

  lemma ClaimGoes(c: Config, s: State, t: Tid, ch: Choice, v: Value, pc: ClaimPc)
    ensures PushGoes(s, Claiming(v, pc), StepClaim(c, s, t, ch, v, pc))
  {
    hide Items, TailTaken, SkipSentinel;
  }

  lemma FindGoes(c: Config, s: State, t: Tid, m: Msg, pc: FindPc)
    ensures !StepFind(c, s, t, m, pc).pc.Crashed? ==> ClaimOf(StepFind(c, s, t, m, pc).pc) == Some(m)
  {
  }

  lemma InstallGoes(c: Config, s: State, t: Tid, ch: Choice, m: Msg, b: Id, pc: InstallPc)
    ensures ClaimOf(StepInstall(c, s, t, ch, m, b, pc).pc) == Some(m)
  {
    hide ReadersDone, SwapRemove;
  }

  lemma WriteGoes(c: Config, s: State, t: Tid, m: Msg, b: Id, pc: WritePc)
    ensures PushGoes(s, Writing(m, b, pc), StepWrite(c, s, t, m, b, pc))
  {
  }

  lemma PushStep(c: Config, s: State, t: Tid, ch: Choice)
    requires Inv(c, s) && t < |s.pcs| && !StepOf(c, s, t, ch).pc.Crashed?
    ensures PushGoes(s, s.pcs[t], StepOf(c, s, t, ch))
  {
    hide Inv, StepClaim, StepFind, StepInstall, StepWrite, StepTake, StepRead, StepMove, StepLeave, StepSolo;
    match s.pcs[t]
    case Claiming(v, pc) => ClaimGoes(c, s, t, ch, v, pc);
    case Finding(m, pc) => FindGoes(c, s, t, m, pc);
    case Installing(m, b, pc) => InstallGoes(c, s, t, ch, m, b, pc);
    case Writing(m, b, pc) => WriteGoes(c, s, t, m, b, pc);
    case _ =>
  }

  /** Another thread's step leaves a push where it is. */
  lemma PushStays(c: Config, log: seq<Claimed>, log': seq<Claimed>, base: nat, t: Tid, u: Tid, v: Value, pc: Pc)
    requires PushSoFar(c, log, base, t, v, pc) && base <= |log| && u != t
    requires log' == log || exists w :: log' == log + [Claimed(u, w)]
    ensures PushSoFar(c, log', base, t, v, pc)
  {
    hide Rank;
  }

  /** Its own step takes it on, or ends it. */
  lemma PushGoesOn(c: Config, s: State, t: Tid, ch: Choice, base: nat, v: Value)
    requires Inv(c, s) && t < |s.pcs| && PushSoFar(c, s.log, base, t, v, s.pcs[t]) && base <= |s.log|
    requires !StepOf(c, s, t, ch).pc.Crashed? && StepOf(c, s, t, ch).pc != Idle
    ensures PushSoFar(c, Step(c, s, t, ch).log, base, t, v, StepOf(c, s, t, ch).pc)
  {
    hide Inv, StepOf, Step;
    PushStep(c, s, t, ch);
    LogStep(c, s, t, ch);
    TailRank(c, s);
  }

  lemma TailRank(c: Config, s: State)
    requires Inv(c, s)
    ensures Rank(c.cap, s.tail) == |s.log|
  {
    hide HeadTailOk, LiveOk, StartOk, LinksOk, MarksOk, TagsOk, ContentOk, PoolOk, OrderOk, DutyOk, ThreadsOk, Rank;
  }

  lemma {:induction false} PushRuns(c: Config, run: seq<State>, acts: seq<Act>, i: nat, j: nat, t: Tid, v: Value)
    requires IsRun(c, run, acts) && Within(run, acts, i, j, t, StartPush(v))
    ensures |run[i].log| <= |run[j].log| && PushSoFar(c, run[j].log, |run[i].log|, t, v, run[j].pcs[t])
    decreases j
  {
    hide Inv, Step, StepOf, StepOk, PushSoFar;
    RunStep(c, run, acts, j - 1);
    HistoryGrows(c, run, acts, i, j);
    if j == i + 1 {
      PushStarts(c, run[i], t, v);
      LogStep(c, run[i], t, StartPush(v));
    } else {
      PushRuns(c, run, acts, i, j - 1, t, v);
      HistoryGrows(c, run, acts, i, j - 1);
      var a := acts[j - 1];
      LogStep(c, run[j - 1], a.t, a.ch);
      if a.t == t {
        Alive(c, run[j], t);
        PushGoesOn(c, run[j - 1], t, a.ch, |run[i].log|, v);
      } else {
        PushStays(c, run[j - 1].log, run[j].log, |run[i].log|, t, a.t, v, run[j].pcs[t]);
      }
    }
  }

  lemma Alive(c: Config, s: State, t: Tid)
    requires Inv(c, s) && t < |s.pcs|
    ensures !s.pcs[t].Crashed?
  {
    hide SharedOk;
    Knows(c, s, t);
  }

  lemma PushStarts(c: Config, s: State, t: Tid, v: Value)
    requires t < |s.pcs| && s.pcs[t] == Idle
    ensures PushSoFar(c, s.log, |s.log|, t, v, StepOf(c, s, t, StartPush(v)).pc)
  {
  }

  /** The last step of a push: the refusal is reported, or the claim published. */
  lemma PushEnds(c: Config, s: State, t: Tid, ch: Choice, base: nat, v: Value)
    requires Inv(c, s) && t < |s.pcs| && PushSoFar(c, s.log, base, t, v, s.pcs[t]) && StepOf(c, s, t, ch).pc == Idle
    ensures Step(c, s, t, ch).log == s.log
    ensures s.pcs[t].ReportFull? ==> s.pcs[t] == ReportFull(v) && NoneBy(s.log, base, t)
    ensures var s' := Step(c, s, t, ch); !s.pcs[t].ReportFull? ==>
      exists p :: Published(c, s'.tail, s'.writer, p) && OneBy(s.log, base, t, v, Rank(c.cap, p))
  {
    hide Inv, StepOf, OneBy, NoneBy, Rank;
    PushStep(c, s, t, ch);
    LogStep(c, s, t, ch);
    if !s.pcs[t].ReportFull? {
      var m := ClaimOf(s.pcs[t]).value;
      ClaimedPos(c, s, t, m);
      var s' := Step(c, s, t, ch);
      assert Published(c, s'.tail, s'.writer, m.p);
    }
  }

  lemma ClaimedPos(c: Config, s: State, t: Tid, m: Msg)
    requires Inv(c, s) && t < |s.pcs| && ClaimOf(s.pcs[t]) == Some(m)
    ensures m.p.off < c.cap && Before(m.p, s.tail)
  {
    hide MemoryOk, ReadersOk, GotOk, MovingOk, Rank;
    Knows(c, s, t);
  }

  /** Once refused, a push does nothing but report it. */
  lemma {:induction false} StaysRefused(c: Config, run: seq<State>, acts: seq<Act>, k: nat, j: nat, t: Tid)
    requires IsRun(c, run, acts) && k <= j <= |acts|
    requires forall n :: k <= n <= j ==> t < |run[n].pcs| && run[n].pcs[t] != Idle
    requires run[k].pcs[t].ReportFull?
    ensures run[j].pcs[t] == run[k].pcs[t]
    decreases j
  {
    hide Inv, Step, StepOf, StepOk;
    if k < j {
      StaysRefused(c, run, acts, k, j - 1, t);
      RunStep(c, run, acts, j - 1);
      if acts[j - 1].t == t {
        Alive(c, run[j], t);
        PushStep(c, run[j - 1], t, acts[j - 1].ch);
      }
    }
  }

  /** A value is refused: the push ends with the value it was called with, and has claimed nothing. */
  predicate Refused(run: seq<State>, i: nat, j: nat, t: Tid, v: Value)
    requires i < j < |run| && t < |run[j - 1].pcs|
  {
    run[j - 1].pcs[t] == ReportFull(v) && NoneBy(run[j].log, |run[i].log|, t)
  }

  /** A value is appended: it is claimed by this push, once, and published. */
  ghost predicate Appended(c: Config, run: seq<State>, i: nat, j: nat, t: Tid, v: Value)
    requires i < j < |run| && t < |run[j - 1].pcs|
  {
    && (forall k :: i < k < j && t < |run[k].pcs| ==> !run[k].pcs[t].ReportFull?)
    && exists p :: Published(c, run[j].tail, run[j].writer, p) && OneBy(run[j].log, |run[i].log|, t, v, Rank(c.cap, p))
  }

  /** A push that is over has appended the value it was called with, once, and published it; or it has
      been refused with that value and has appended nothing. */
  lemma PushReturns(c: Config, run: seq<State>, acts: seq<Act>, i: nat, j: nat, t: Tid, v: Value)
    requires IsRun(c, run, acts) && Returns(run, acts, i, j, t, StartPush(v))
    ensures if run[j].pcs[t].ReportFull? then Refused(run, i, j + 1, t, v) else Appended(c, run, i, j + 1, t, v)
  {
    hide Inv, Step, StepOf, StepOk, PushSoFar, OneBy, NoneBy;
    RunStep(c, run, acts, j);
    PushRuns(c, run, acts, i, j, t, v);
    LogStep(c, run[j], acts[j].t, acts[j].ch);
    PushEnds(c, run[j], t, acts[j].ch, |run[i].log|, v);
    if !run[j].pcs[t].ReportFull? {
      forall k | i < k <= j ensures !run[k].pcs[t].ReportFull? {
        if run[k].pcs[t].ReportFull? { StaysRefused(c, run, acts, k, j, t); }
      }
    }
  }

  // ---- Allocation -------------------------------------------------------------------------------

  predicate AsksPool(pc: Pc) {
    pc.Installing? && pc.install.TakePool?
  }

  /** At step `i` thread `t` finds the spare taken; up to state `j` it does nothing but ask the pool. */
  predicate SawNoSpare(run: seq<State>, acts: seq<Act>, i: nat, j: nat, t: Tid)
    requires i < j < |run| && j <= |acts|
  {
    && acts[i].t == t && run[i].spare.None?
    && forall k :: i < k <= j ==> t < |run[k].pcs| && AsksPool(run[k].pcs[t])
  }

  /** A push goes on with a block that is new only if the pool has none ready, and it has itself found no
      spare. */
  lemma AllocatesLast(c: Config, run: seq<State>, acts: seq<Act>, j: nat, t: Tid, n: Id)
    requires IsRun(c, run, acts) && j < |acts| && acts[j].t == t && t < |run[j].pcs| && n !in run[j].place
    requires var now := StepOf(c, run[j], t, acts[j].ch).pc; now.Installing? && now.install == SetPrev(n)
    ensures run[j].ready == [] && exists i :: 0 <= i < j && SawNoSpare(run, acts, i, j, t)
  {
    hide Inv, Step, StepOf;
    RunInv(c, run, acts, j);
    NewFrom(c, run[j], t, acts[j].ch, n);
    var i := PoolSince(c, run, acts, j, t);
  }

  lemma {:induction false} PoolSince(c: Config, run: seq<State>, acts: seq<Act>, j: nat, t: Tid) returns (i: nat)
    requires IsRun(c, run, acts) && j < |run| && t < |run[j].pcs| && AsksPool(run[j].pcs[t])
    ensures i < j && SawNoSpare(run, acts, i, j, t)
    decreases j
  {
    hide Inv, Step, StepOf, StepOk;
    if j == 0 { InitiallySilent(c, run, acts, t); }
    RunStep(c, run, acts, j - 1);
    if acts[j - 1].t != t {
      i := PoolSince(c, run, acts, j - 1, t);
    } else {
      PoolFrom(c, run[j - 1], t, acts[j - 1].ch);
      i := j - 1;
    }
  }

  /** Away from an installation nobody asks for a block, and a lookup only begins to. */
  lemma NotInstalling(c: Config, s: State, t: Tid, ch: Choice)
    requires t < |s.pcs| && StepOf(c, s, t, ch).pc.Installing?
    ensures s.pcs[t].Installing? || StepOf(c, s, t, ch).pc.install.TakeSpare?
  {
    hide StepClaim, StepWrite, StepTake, StepRead, StepMove, StepLeave, StepSolo;
    match s.pcs[t]
    case Claiming(v, pc) => ClaimGoes(c, s, t, ch, v, pc);
    case Writing(m, b, pc) => WriteInstallsNot(c, s, t, m, b, pc);
    case Taking(pc) => TakeInstallsNot(c, s, t, ch, pc);
    case Reading(p, b, pc) => ReadInstallsNot(c, s, t, p, b, pc);
    case Moving(p, b, pc) => MoveInstallsNot(c, s, t, p, b, pc);
    case Leaving(pc) => LeaveInstallsNot(c, s, t, pc);
    case Batching(pc) => SoloInstallsNot(c, s, t, pc);
    case _ =>
  }

  lemma WriteInstallsNot(c: Config, s: State, t: Tid, m: Msg, b: Id, pc: WritePc)
    ensures !StepWrite(c, s, t, m, b, pc).pc.Installing?
  {
  }

  lemma TakeInstallsNot(c: Config, s: State, t: Tid, ch: Choice, pc: TakePc)
    ensures !StepTake(c, s, t, ch, pc).pc.Installing?
  {
    hide Published, Taken;
  }

  lemma ReadInstallsNot(c: Config, s: State, t: Tid, p: Pos, b: Id, pc: ReadPc)
    ensures !StepRead(c, s, t, p, b, pc).pc.Installing?
  {
  }

  lemma MoveInstallsNot(c: Config, s: State, t: Tid, p: Pos, b: Id, pc: MovePc)
    ensures !StepMove(c, s, t, p, b, pc).pc.Installing?
  {
  }

  lemma LeaveInstallsNot(c: Config, s: State, t: Tid, pc: LeavePc)
    ensures !StepLeave(c, s, t, pc).pc.Installing?
  {
  }

  lemma SoloInstallsNot(c: Config, s: State, t: Tid, pc: SoloPc)
    ensures !StepSolo(c, s, t, pc).pc.Installing?
  {
    hide Published, HeadBlockMoved, Advanced;
  }

  lemma PoolFrom(c: Config, s: State, t: Tid, ch: Choice)
    requires t < |s.pcs| && AsksPool(StepOf(c, s, t, ch).pc)
    ensures s.spare.None?
  {
    hide StepClaim, StepFind, StepWrite, StepTake, StepRead, StepMove, StepLeave, StepSolo, ReadersDone, SwapRemove;
    NotInstalling(c, s, t, ch);
  }

  lemma NewFrom(c: Config, s: State, t: Tid, ch: Choice, n: Id)
    requires Inv(c, s) && t < |s.pcs| && n !in s.place
    requires StepOf(c, s, t, ch).pc.Installing? && StepOf(c, s, t, ch).pc.install == SetPrev(n)
    ensures AsksPool(s.pcs[t]) && s.ready == []
  {
    hide StepOf, StepInstall, MemoryOk, DutyOk, ThreadsOk;
    Knows(c, s, t);
    NotInstalling(c, s, t, ch);
    InstallIs(c, s, t, ch);
    NewInstall(c, s, t, ch, s.pcs[t].m, s.pcs[t].b, s.pcs[t].install, n);
  }

  lemma InstallIs(c: Config, s: State, t: Tid, ch: Choice)
    requires t < |s.pcs| && s.pcs[t].Installing?
    ensures StepOf(c, s, t, ch) == StepInstall(c, s, t, ch, s.pcs[t].m, s.pcs[t].b, s.pcs[t].install)
  {
    hide StepInstall;
  }

  lemma NewInstall(c: Config, s: State, t: Tid, ch: Choice, m: Msg, b: Id, pc: InstallPc, n: Id)
    requires MemoryOk(c, s) && InstallingOk(c, s, t, m, b, pc) && n !in s.place
    requires var now := StepInstall(c, s, t, ch, m, b, pc).pc; now.Installing? && now.install == SetPrev(n)
    ensures pc.TakePool? && s.ready == []
  {
    hide HeadTailOk, CountsOk, LiveOk, StartOk, LinksOk, MarksOk, TagsOk, ContentOk, OrderOk, ReadersDone, Uninstalled;
  }
}
