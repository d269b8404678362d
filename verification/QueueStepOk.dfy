/**
  What a step has to preserve, and the steps that only move their thread on.
*/
module QueueStepOk {
  import opened Basics
  import opened QueueModel
  import opened QueueInvariant
  import opened QueueRely

  /** What has to be shown of a step of `t` from `s` to `s'`. */
  ghost predicate StepOk(c: Config, s: State, s': State, t: Tid) {
    && |s'.pcs| == |s.pcs| && t < |s.pcs| && s'.pcs == s.pcs[t := s'.pcs[t]]
    && SharedOk(c, s') && Rely(c, s, s', t) && ThreadOk(c, s', t, s'.pcs[t])
  }

  lemma StepOkInv(c: Config, s: State, s': State, t: Tid)
    requires Inv(c, s) && StepOk(c, s, s', t)
    ensures Inv(c, s')
  {
    ThreadsStable(c, s, s', t);
  }

  /** `pc` still carries every claim, read and transition recorded for thread `t`. */
  ghost predicate SameDuties(c: Config, s: State, t: Tid, pc: Pc)
    requires t < |s.pcs|
  {
    var was := s.pcs[t];
    && (ClaimOf(was).Some? ==> ClaimOf(pc) == ClaimOf(was) || forall p :: p in s.writer ==> s.writer[p] != t)
    && (was.Reading? ==>
          || (pc.Reading? && pc.p == was.p && (was.read.Copy? ==> pc.read.Copy? || was.p in s.got))
          || forall p :: p in s.reader ==> s.reader[p] != t)
    && (IsMoving(c, was) ==> IsMoving(c, pc) || s.moving != Some(t))
  }

  lemma Knows(c: Config, s: State, t: Tid)
    requires Inv(c, s) && t < |s.pcs|
    ensures HeadTailOk(c, s.head, s.tail, s.cached) && ThreadOk(c, s, t, s.pcs[t])
  {
  }

  /** A step that only moves its thread on. */
  lemma GotoDuty(c: Config, s: State, t: Tid, pc: Pc)
    requires DutyOk(c, s) && t < |s.pcs| && SameDuties(c, s, t, pc)
    ensures DutyOk(c, Goto(s, t, pc))
  {
  }

  lemma GotoShared(c: Config, s: State, t: Tid, pc: Pc)
    requires SharedOk(c, s) && t < |s.pcs| && SameDuties(c, s, t, pc)
    ensures SharedOk(c, Goto(s, t, pc)) && Rely(c, s, Goto(s, t, pc), t)
  {
    hide CountsOk, LiveOk, StartOk, LinksOk, MarksOk, TagsOk, ContentOk, PoolOk, OrderOk, WritersOk, ReadersOk, GotOk,
      MovingOk, DutyOk, SameDuties;
    GotoDuty(c, s, t, pc);
  }

  /** What a thread knows is not about program points. */
  lemma ThreadOkGoto(c: Config, s: State, t: Tid, pc: Pc)
    requires t < |s.pcs|
    ensures ThreadOk(c, Goto(s, t, pc), t, pc) <==> ThreadOk(c, s, t, pc)
  {
  }

  lemma GotoOk(c: Config, s: State, t: Tid, pc: Pc)
    requires Inv(c, s) && t < |s.pcs| && SameDuties(c, s, t, pc)
    requires ThreadOk(c, s, t, pc)
    ensures StepOk(c, s, Goto(s, t, pc), t)
  {
    hide SharedOk, Rely, ThreadOk, SameDuties;
    GotoShared(c, s, t, pc);
    ThreadOkGoto(c, s, t, pc);
  }

  /** An effect on the shared state, followed by moving the thread on. */
  lemma ThenGoto(c: Config, s: State, s2: State, t: Tid, pc: Pc)
    requires t < |s.pcs| && s2.pcs == s.pcs && SameDuties(c, s2, t, pc)
    requires SharedOk(c, s2) && Rely(c, s, s2, t) && ThreadOk(c, s2, t, pc)
    ensures StepOk(c, s, Goto(s2, t, pc), t)
  {
    hide SharedOk, ThreadOk, SameDuties, GrowsBy, KeepsOthers, KeepsWrites, KeepsHead, Rely;
    GotoShared(c, s2, t, pc);
    ThreadOkGoto(c, s2, t, pc);
    RelyGoto(c, s, s2, t, pc);
  }

  /** The same, where the thread takes on a new duty with the effect. */
  lemma TogetherOk(c: Config, s: State, s2: State, t: Tid, pc: Pc)
    requires t < |s.pcs| && s2.pcs == s.pcs
    requires MemoryOk(c, s2) && DutyOk(c, Goto(s2, t, pc)) && Rely(c, s, s2, t) && ThreadOk(c, s2, t, pc)
    ensures StepOk(c, s, Goto(s2, t, pc), t)
  {
    hide DutyOk, ThreadOk, GrowsBy, KeepsOthers, KeepsWrites, KeepsHead, Rely, HeadTailOk, CountsOk, LiveOk, StartOk,
      LinksOk, MarksOk, TagsOk, ContentOk, PoolOk, OrderOk;
    ThreadOkGoto(c, s2, t, pc);
    RelyGoto(c, s, s2, t, pc);
  }

  lemma RelyGoto(c: Config, s: State, s2: State, t: Tid, pc: Pc)
    requires t < |s2.pcs| && Rely(c, s, s2, t)
    ensures Rely(c, s, Goto(s2, t, pc), t)
  {
  }
}
