/**
  What holds in every run of the block queue: any number of threads, every interleaving.
*/
module QueueTheorems {
  import opened Basics
  import opened Positions
  import opened QueueModel
  import opened QueueInvariant
  import opened QueueStepOk
  import QueueStepsClaim
  import QueueStepsFind
  import QueueStepsInstall
  import QueueStepsWrite
  import QueueStepsTake
  import QueueStepsLeave
  import QueueStepsSolo

  lemma StepIsOk(c: Config, s: State, t: Tid, ch: Choice)
    requires Inv(c, s) && t < |s.pcs|
    ensures StepOk(c, s, Step(c, s, t, ch), t)
  {
    hide SharedOk, ThreadsOk, StepOk, Apply, StepCall, StepClaim, StepFind, StepInstall, StepWrite, StepTake,
      StepRead, StepMove,
      StepLeave, StepSolo;
    Knows(c, s, t);
    match s.pcs[t]
    case Claiming(v, pc) => QueueStepsClaim.ClaimStepOk(c, s, t, ch, v, pc);
    case Finding(m, pc) => QueueStepsFind.FindStepOk(c, s, t, m, pc);
    case Installing(m, b, pc) => QueueStepsInstall.InstallStepOk(c, s, t, ch, m, b, pc);
    case Writing(m, b, pc) => QueueStepsWrite.WriteStepOk(c, s, t, m, b, pc);
    case Taking(pc) => QueueStepsTake.TakeStepOk(c, s, t, ch, pc);
    case Reading(p, b, pc) => QueueStepsTake.ReadStepOk(c, s, t, p, b, pc);
    case Moving(p, b, pc) => QueueStepsLeave.MoveStepOk(c, s, t, p, b, pc);
    case Leaving(pc) => QueueStepsLeave.LeaveStepOk(c, s, t, pc);
    case Batching(pc) => QueueStepsSolo.SoloStepOk(c, s, t, pc);
    case _ => QueueStepsClaim.CallStepOk(c, s, t, ch);
  }

  /** Every step of every thread keeps the invariant. */
  lemma StepKeepsInv(c: Config, s: State, t: Tid, ch: Choice)
    requires Inv(c, s) && t < |s.pcs|
    ensures Inv(c, Step(c, s, t, ch))
  {
    hide Inv, StepOk, Step;
    StepIsOk(c, s, t, ch);
    StepOkInv(c, s, Step(c, s, t, ch), t);
  }

  /** Every state of every run satisfies the invariant. */
  lemma {:induction false} RunInv(c: Config, run: seq<State>, acts: seq<Act>, i: nat)
    requires IsRun(c, run, acts) && i < |run|
    ensures Inv(c, run[i])
    decreases i
  {
    hide Inv, Step;
    if i == 0 {
      InitialInv(c, run[0]);
    } else {
      RunInv(c, run, acts, i - 1);
      var a := acts[i - 1];
      assert run[i] == run[(i - 1) + 1] == Step(c, run[i - 1], a.t, a.ch);
      StepKeepsInv(c, run[i - 1], a.t, a.ch);
    }
  }

  // ---- Order of delivery ------------------------------------------------------------------------

  /** Ordered by the head's passing, the values taken are the values pushed at those positions,
      in claim order, each once.  What is not copied yet is in the hands of its reader. */
  lemma FifoExactlyOnce(c: Config, run: seq<State>, acts: seq<Act>, j: nat)
    requires IsRun(c, run, acts) && j < |run|
    ensures var s := run[j];
      && |s.order| <= |s.log|
      && (forall i :: 0 <= i < |s.order| ==> s.order[i].off < c.cap && Rank(c.cap, s.order[i]) == i)
      && (forall i, k :: 0 <= i < k < |s.order| ==> s.order[i] != s.order[k])
      && (forall i :: 0 <= i < |s.order| && s.order[i] in s.got ==> s.got[s.order[i]] == s.log[i].v)
      && (forall i :: 0 <= i < |s.order| && s.order[i] !in s.got ==> s.order[i] in s.reader)
  {
    hide Inv, Step;
    RunInv(c, run, acts, j);
    TakenAreClaimed(c, run[j]);
    OrderFacts(c, run[j]);
  }

  lemma TakenAreClaimed(c: Config, s: State)
    requires Inv(c, s)
    ensures |s.order| <= |s.log|
  {
    hide LiveOk, StartOk, LinksOk, MarksOk, TagsOk, ContentOk, PoolOk, DutyOk, ThreadsOk;
    if AtMost(s.head, s.tail) {
      RankMonotone(c.cap, s.head, s.tail);
    }
  }

  lemma OrderFacts(c: Config, s: State)
    requires Inv(c, s)
    ensures forall i :: 0 <= i < |s.order| ==> s.order[i].off < c.cap && Rank(c.cap, s.order[i]) == i
    ensures forall i :: 0 <= i < |s.order| && s.order[i] in s.got ==> i < |s.log| && s.got[s.order[i]] == s.log[i].v
    ensures forall i :: 0 <= i < |s.order| && s.order[i] !in s.got ==> s.order[i] in s.reader
  {
    hide HeadTailOk, CountsOk, LiveOk, StartOk, LinksOk, MarksOk, TagsOk, ContentOk, PoolOk, WritersOk, ReadersOk,
      MovingOk,
      ThreadsOk, Rank;
  }
}
