/**
  Finding the block of a claim keeps the invariant: the walk never meets a null link, and
  whatever block it settles on is the one installed for the claim's lap.
*/
module QueueStepsFind {
  import opened Basics
  import opened QueueModel
  import opened QueueInvariant
  import opened QueueStepOk

  /** A start always tells the truth, and a claim keeps the chain behind it in place. */
  lemma WalkFacts(c: Config, s: State, t: Tid, m: Msg)
    requires SharedOk(c, s) && ClaimOk(c, s, t, m)
    ensures forall b :: b in s.start ==> Serves(s.serves, s.start[b], b)
    ensures forall k :: m.p.lap < k < |s.serves| ==>
      s.serves[k] in s.prevOf && s.prevOf[s.serves[k]] == s.serves[k - 1]
  {
    hide HeadTailOk, CountsOk, ReadersOk, LiveOk, MarksOk, TagsOk, ContentOk, PoolOk, OrderOk, GotOk, MovingOk;
  }

  lemma FindStepOk(c: Config, s: State, t: Tid, m: Msg, pc: FindPc)
    requires Inv(c, s) && t < |s.pcs| && s.pcs[t] == Finding(m, pc)
    ensures StepOk(c, s, Apply(StepFind(c, s, t, m, pc), t), t)
  {
    hide Inv, StepOk, Goto, StepFind, ThreadOk;
    FindGoes(c, s, t, m, pc);
    GotoOk(c, s, t, StepFind(c, s, t, m, pc).pc);
  }

  /** The lookup's next point, with what the thread knows there. */
  lemma FindGoes(c: Config, s: State, t: Tid, m: Msg, pc: FindPc)
    requires Inv(c, s) && t < |s.pcs| && s.pcs[t] == Finding(m, pc)
    ensures var o := StepFind(c, s, t, m, pc); o.after == s && ClaimOf(o.pc) == Some(m) && ThreadOk(c, s, t, o.pc)
  {
    hide SharedOk, ThreadsOk;
    Knows(c, s, t);
    WalkFacts(c, s, t, m);
  }
}
