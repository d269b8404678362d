/**
  Finding the block of a claim: whatever a lookup meets on its way, it takes no block but the one live
  block that serves the claim's lap; and from a block at or ahead of that one, the walk gets one lap
  closer with every link it follows.  Whether a lookup comes to such a block is another question.
*/
module QueueWalk {
  import opened Basics
  import opened QueueModel
  import opened QueueInvariant
  import opened QueueStepOk
  import opened QueueTheorems
  import QueueStepsFind
  import QueueStepsWrite
  import QueueSafety

  /** No thread ever follows a null link or reads an uninitialised slot. */
  lemma NeverCrashes(c: Config, run: seq<State>, acts: seq<Act>, j: nat, t: Tid)
    requires IsRun(c, run, acts) && j < |run| && t < |run[j].pcs|
    ensures run[j].pcs[t] != Crashed
  {
    hide Inv, IsRun;
    RunInv(c, run, acts, j);
    Knows(c, run[j], t);
  }

  /** The block a lookup returns is live, serves the claim's lap, and no other block claims to. */
  lemma FoundIsTheLiveBlock(c: Config, run: seq<State>, acts: seq<Act>, i: nat)
    requires IsRun(c, run, acts) && i < |acts| && acts[i].t < |run[i].pcs| && run[i].pcs[acts[i].t].Finding?
    requires !StepOf(c, run[i], acts[i].t, acts[i].ch).pc.Finding?
    ensures var s := run[i]; var now := StepOf(c, s, acts[i].t, acts[i].ch).pc; var m := s.pcs[acts[i].t].m;
      && (now.Installing? || now.Writing?) && now.m == m
      && now.b in s.place && s.place[now.b] == Live(m.p.lap) && StartIs(s, now.b, m.p.lap)
      && (forall b :: StartIs(s, b, m.p.lap) ==> b == now.b)
  {
    hide Inv, Step, StepFind, StartIs;
    RunInv(c, run, acts, i);
    FindMoves(c, run[i], acts[i].t, acts[i].ch);
    StateFound(c, run[i], acts[i].t, run[i].pcs[acts[i].t].m, run[i].pcs[acts[i].t].find);
  }

  lemma StateFound(c: Config, s: State, t: Tid, m: Msg, pc: FindPc)
    requires Inv(c, s) && t < |s.pcs| && s.pcs[t] == Finding(m, pc)
    requires !StepFind(c, s, t, m, pc).pc.Finding?
    ensures var o := StepFind(c, s, t, m, pc).pc;
      && (o.Installing? || o.Writing?) && o.m == m
      && o.b in s.place && s.place[o.b] == Live(m.p.lap) && StartIs(s, o.b, m.p.lap)
      && (forall b :: StartIs(s, b, m.p.lap) ==> b == o.b)
  {
    hide SharedOk, ThreadsOk;
    Knows(c, s, t);
    QueueStepsFind.WalkFacts(c, s, t, m);
    var o := StepFind(c, s, t, m, pc).pc;
    QueueStepsWrite.ClaimLive(c, s, t, m, o.b);
  }

  /** Own steps left until a walk with a known bound is at its block. */
  function WalkLeft(pc: Pc): Option<nat> {
    match pc
    case Finding(m, CheckSlow(_, Some(j))) => if m.p.lap <= j then Some(2 * (j - m.p.lap) + 1) else None
    case Finding(m, WalkPrev(_, seen)) => if m.p.lap < seen then Some(2 * (seen - m.p.lap)) else None
    case _ => None
  }

  /** The block of a lap that is not before an unwritten claim still has that lap's start. */
  lemma AheadIsLive(c: Config, s: State, t: Tid, m: Msg, k: nat, b: Id)
    requires SharedOk(c, s) && ClaimOk(c, s, t, m) && m.p.lap <= k && Serves(s.serves, k, b)
    ensures StartIs(s, b, k)
  {
    hide HeadTailOk, CountsOk, LinksOk, MarksOk, TagsOk, ContentOk, PoolOk, OrderOk, ReadersOk, GotOk, MovingOk;
  }

  /** Every step of a bounded walk finds the block or gets closer to it. */
  lemma WalkShrinks(c: Config, s: State, t: Tid, m: Msg, pc: FindPc)
    requires Inv(c, s) && t < |s.pcs| && s.pcs[t] == Finding(m, pc) && WalkLeft(s.pcs[t]).Some?
    ensures var o := StepFind(c, s, t, m, pc).pc;
      || ((o.Installing? || o.Writing?) && o.m == m)
      || (o.Finding? && o.m == m && WalkLeft(o).Some? && WalkLeft(o).value < WalkLeft(s.pcs[t]).value)
    ensures WalkLeft(s.pcs[t]).value > 0
  {
    hide SharedOk, ThreadsOk;
    Knows(c, s, t);
    QueueStepsFind.WalkFacts(c, s, t, m);
    match pc
    case CheckSlow(b, bound) => AheadIsLive(c, s, t, m, bound.value, b);
    case _ =>
  }

  /** Steps of thread `t` among the acts from `i` to `j`. */
  function Turns(acts: seq<Act>, t: Tid, i: nat, j: nat): nat
    requires i <= j <= |acts|
    decreases j - i
  {
    if i == j then 0 else (if acts[i].t == t then 1 else 0) + Turns(acts, t, i + 1, j)
  }

  /** The walk terminates: whatever the other threads do meanwhile, a walk of measure `n` has
      found its block within `n` of its own steps. */
  lemma {:induction false} WalkEnds(c: Config, run: seq<State>, acts: seq<Act>, t: Tid, i: nat, j: nat) returns (k: nat)
    requires IsRun(c, run, acts) && i <= j <= |acts| && t < |run[i].pcs|
    requires run[i].pcs[t].Finding? && WalkLeft(run[i].pcs[t]).Some?
    requires Turns(acts, t, i, j) >= WalkLeft(run[i].pcs[t]).value
    ensures i < k <= j && t < |run[k].pcs|
    ensures (run[k].pcs[t].Installing? || run[k].pcs[t].Writing?) && run[k].pcs[t].m == run[i].pcs[t].m
    decreases j - i
  {
    hide Inv, Step, StepOf, StepOk, StepFind, WalkLeft;
    RunInv(c, run, acts, i);
    WalkShrinks(c, run[i], t, run[i].pcs[t].m, run[i].pcs[t].find);
    var a := acts[i];
    assert run[i + 1] == Step(c, run[i], a.t, a.ch);
    StepIsOk(c, run[i], a.t, a.ch);
    QueueSafety.StepGrows(c, run[i], run[i + 1], a.t);
    if a.t == t {
      QueueSafety.StepMoves(c, run[i], t, a.ch);
      FindMoves(c, run[i], t, a.ch);
      if !run[i + 1].pcs[t].Finding? { return i + 1; }
    }
    k := WalkEnds(c, run, acts, t, i + 1, j);
  }

  lemma FindMoves(c: Config, s: State, t: Tid, ch: Choice)
    requires t < |s.pcs| && s.pcs[t].Finding?
    ensures StepOf(c, s, t, ch) == StepFind(c, s, t, s.pcs[t].m, s.pcs[t].find)
  {
    hide StepFind;
  }
}
