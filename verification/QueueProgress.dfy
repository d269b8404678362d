/**
  Progress of the block queue.  Outside its loops an operation is over within a bound of its own steps,
  whatever the other threads do; and as long as an operation is kept in the loop that claims the tail or
  the head, others succeed.  The loop in between, the lookup of a block, is in TailBlockLookup.
*/
module QueueProgress {
  import opened Basics
  import opened Positions
  import opened QueueModel
  import opened QueueInvariant
  import opened QueueStepOk
  import opened QueueTheorems
  import opened QueueCalls
  import opened QueueReceives
  import opened QueueWalk
  import QueueSafety

  // ---- Outside the loops ------------------------------------------------------------------------

  function Below(cap: nat, j: nat): nat {
    if j <= cap then cap - j else 0
  }

  /** The own steps a thread has left at most until its operation is over, where it waits for nobody:
      everywhere but in the loops that claim a position, look up a block or look for a value. */
  function StepsLeft(cap: nat, pc: Pc): Option<nat> {
    match pc
    case ReportFull(_) => Some(1)
    case ReportNone(_) => Some(1)
    case ReportBusy => Some(1)
    case Installing(_, _, at) =>
      (match at
       case TakeSpare => Some(cap + 10)
       case TakePool => Some(cap + 9)
       case WipeTaken(_, j) => Some(Below(cap, j) + 8)
       case SetPrev(_) => Some(7)
       case ClearNext(_) => Some(6)
       case SetStart(_) => Some(5)
       case LinkNext(_) => Some(4)
       case MoveTail(_) => Some(3))
    case Writing(_, _, at) => Some(if at.Write? then 2 else 1)
    case Reading(_, _, at) => Some(if at.Copy? then 2 * cap + 9 else 1)
    case Moving(_, _, at) =>
      (match at
       case LoadNext => Some(2 * cap + 8)
       case MoveHeadBlock(_) => Some(2 * cap + 7)
       case SwapHead => Some(2 * cap + 6))
    case Leaving(at) =>
      (match at
       case Scan(_, _, j) => Some(Below(cap, j) + cap + 5)
       case Retire(_, _) => Some(1)
       case Wipe(_, j) => Some(Below(cap, j) + 3)
       case Recycle(_) => Some(2)
       case PushReady(_) => Some(1))
    case Batching(at) =>
      (match at
       case SoloHead(_) => Some(2 * cap + 9)
       case SoloBlock(_, _) => Some(2 * cap + 8)
       case SoloLook(h, _, _, n) => Some(2 * Below(cap, h.off + n) + 7)
       case SoloCopy(h, _, _, n) => Some(2 * Below(cap, h.off + n) + 6)
       case SoloNext(_, _, _) => Some(6)
       case SoloMoveBlock(_, _, _, _) => Some(5)
       case SoloAdvance(_, _, _, _) => Some(4)
       case SoloPool(_) => Some(3))
    case _ => None
  }

  /** A step ends the operation, or leaves less of it. */
  predicate Closer(cap: nat, was: Pc, now: Pc) {
    && StepsLeft(cap, was).Some? && StepsLeft(cap, was).value > 0
    && (now == Idle || (StepsLeft(cap, now).Some? && StepsLeft(cap, now).value < StepsLeft(cap, was).value))
  }

  lemma InstallCloser(c: Config, s: State, t: Tid, ch: Choice, m: Msg, b: Id, pc: InstallPc)
    ensures Closer(c.cap, Installing(m, b, pc), StepInstall(c, s, t, ch, m, b, pc).pc)
  {
    hide ReadersDone, SwapRemove;
  }

  lemma ReadCloser(c: Config, s: State, t: Tid, p: Pos, b: Id, pc: ReadPc)
    requires !StepRead(c, s, t, p, b, pc).pc.Crashed?
    ensures Closer(c.cap, Reading(p, b, pc), StepRead(c, s, t, p, b, pc).pc)
  {
  }

  lemma MoveCloser(c: Config, s: State, t: Tid, p: Pos, b: Id, pc: MovePc)
    requires !StepMove(c, s, t, p, b, pc).pc.Crashed?
    ensures Closer(c.cap, Moving(p, b, pc), StepMove(c, s, t, p, b, pc).pc)
  {
  }

  lemma LeaveCloser(c: Config, s: State, t: Tid, pc: LeavePc)
    ensures Closer(c.cap, Leaving(pc), StepLeave(c, s, t, pc).pc)
  {
  }

  lemma WriteCloser(c: Config, s: State, t: Tid, m: Msg, b: Id, pc: WritePc)
    ensures Closer(c.cap, Writing(m, b, pc), StepWrite(c, s, t, m, b, pc).pc)
  {
  }

  lemma SoloCloser(c: Config, s: State, t: Tid, pc: SoloPc)
    requires Inv(c, s) && t < |s.pcs| && s.pcs[t] == Batching(pc) && !StepSolo(c, s, t, pc).pc.Crashed?
    ensures Closer(c.cap, Batching(pc), StepSolo(c, s, t, pc).pc)
  {
    hide SharedOk, ThreadsOk, Published, HeadBlockMoved, Advanced, Prefix;
    Knows(c, s, t);
  }

  lemma StepCloser(c: Config, s: State, t: Tid, ch: Choice)
    requires Inv(c, s) && t < |s.pcs| && StepsLeft(c.cap, s.pcs[t]).Some? && !StepOf(c, s, t, ch).pc.Crashed?
    ensures Closer(c.cap, s.pcs[t], StepOf(c, s, t, ch).pc)
  {
    hide Inv, StepInstall, StepWrite, StepRead, StepMove, StepLeave, StepSolo, Closer;
    match s.pcs[t]
    case Installing(m, b, pc) => InstallCloser(c, s, t, ch, m, b, pc);
    case Writing(m, b, pc) => WriteCloser(c, s, t, m, b, pc);
    case Reading(p, b, pc) => ReadCloser(c, s, t, p, b, pc);
    case Moving(p, b, pc) => MoveCloser(c, s, t, p, b, pc);
    case Leaving(pc) => LeaveCloser(c, s, t, pc);
    case Batching(pc) => SoloCloser(c, s, t, pc);
    case _ => ReportCloser(c, s, t, ch);
  }

  lemma ReportCloser(c: Config, s: State, t: Tid, ch: Choice)
    requires t < |s.pcs| && (s.pcs[t].ReportFull? || s.pcs[t].ReportNone? || s.pcs[t].ReportBusy?)
    ensures Closer(c.cap, s.pcs[t], StepOf(c, s, t, ch).pc)
  {
  }

  /** Whatever the others do, an operation outside the loops is over within its measure of own steps: a
      push that has found its block, a pop that has taken its value, and every exclusive receive. */
  lemma {:induction false} OperationEnds(c: Config, run: seq<State>, acts: seq<Act>, t: Tid, i: nat, j: nat)
      returns (k: nat)
    requires IsRun(c, run, acts) && i <= j <= |acts| && t < |run[i].pcs|
    requires StepsLeft(c.cap, run[i].pcs[t]).Some? && Turns(acts, t, i, j) >= StepsLeft(c.cap, run[i].pcs[t]).value
    ensures i < k <= j && t < |run[k].pcs| && run[k].pcs[t] == Idle
    decreases j - i
  {
    hide Inv, Step, StepOf, StepOk, StepsLeft;
    if i == j { Positive(c.cap, run[i].pcs[t]); }
    RunStep(c, run, acts, i);
    if acts[i].t == t {
      Alive(c, run[i + 1], t);
      StepCloser(c, run[i], t, acts[i].ch);
      if run[i + 1].pcs[t] == Idle { return i + 1; }
    }
    k := OperationEnds(c, run, acts, t, i + 1, j);
  }

  lemma Positive(cap: nat, pc: Pc)
    requires StepsLeft(cap, pc).Some?
    ensures StepsLeft(cap, pc).value > 0
  {
  }

  // ---- Claiming the tail ------------------------------------------------------------------------

  /** The own steps a push has left at most until it has claimed the tail or is refused, if nobody else
      claims meanwhile: fewer when it knows the tail as it is.  A sentinel under the tail is skipped once,
      by anyone. */
  function ClaimLeft(cap: nat, tail: Pos, pc: ClaimPc): nat {
    (if tail.off == cap then 3 else 0) +
    match pc
    case Claim => 3
    case ClaimCas(t0) => if t0 == tail then 2 else 4
    case BoundLoad => 6
    case BoundLook(t0) => if t0 == tail then 5 else if t0.off == cap then 6 else 10
    case BoundHead(t0) => if t0 == tail then 4 else 9
    case BoundStore(t0, _) => if t0 == tail then 3 else 8
    case BoundCas(t0) => if t0 == tail then 2 else 7
  }

  /** A step claims, is refused, or gets closer. */
  predicate ClaimsOrCloser(cap: nat, tail: Pos, pc: ClaimPc, o: Outcome) {
    || o.pc.ReportFull? || o.pc.Finding?
    || (o.pc.Claiming? && ClaimLeft(cap, o.after.tail, o.pc.claim) < ClaimLeft(cap, tail, pc))
  }

  lemma FreeClaimCloser(c: Config, s: State, t: Tid, ch: Choice, v: Value, pc: ClaimPc)
    requires pc.Claim? || pc.ClaimCas?
    requires !ch.Fail?
    ensures ClaimsOrCloser(c.cap, s.tail, pc, StepClaim(c, s, t, ch, v, pc))
  {
    hide TailTaken;
    match pc
    case Claim => if ch.UseCas? {} else if IsSentinel(c.cap, s.tail) {}
    case ClaimCas(t0) => if s.tail != t0 {} else if IsSentinel(c.cap, t0) {}
  }

  lemma LookCloser(c: Config, s: State, t: Tid, ch: Choice, v: Value, pc: ClaimPc)
    requires pc.BoundLoad? || pc.BoundLook?
    requires !ch.Fail?
    ensures ClaimsOrCloser(c.cap, s.tail, pc, StepClaim(c, s, t, ch, v, pc))
  {
    hide TailTaken, Items;
    match pc
    case BoundLoad =>
    case BoundLook(t0) => if IsSentinel(c.cap, t0) { if s.tail != t0 {} }
  }

  lemma BoundCloser(c: Config, s: State, t: Tid, ch: Choice, v: Value, pc: ClaimPc)
    requires pc.BoundHead? || pc.BoundStore? || pc.BoundCas?
    requires !ch.Fail?
    ensures ClaimsOrCloser(c.cap, s.tail, pc, StepClaim(c, s, t, ch, v, pc))
  {
    hide TailTaken, Items;
    match pc
    case BoundHead(_) =>
    case BoundStore(_, _) =>
    case BoundCas(t0) => if s.tail != t0 {}
  }

  lemma ClaimCloser(c: Config, s: State, t: Tid, ch: Choice, v: Value, pc: ClaimPc)
    requires !ch.Fail?
    ensures ClaimsOrCloser(c.cap, s.tail, pc, StepClaim(c, s, t, ch, v, pc))
  {
    hide StepClaim, ClaimsOrCloser;
    match pc
    case Claim => FreeClaimCloser(c, s, t, ch, v, pc);
    case ClaimCas(_) => FreeClaimCloser(c, s, t, ch, v, pc);
    case BoundLoad => LookCloser(c, s, t, ch, v, pc);
    case BoundLook(_) => LookCloser(c, s, t, ch, v, pc);
    case _ => BoundCloser(c, s, t, ch, v, pc);
  }

  /** While nothing is claimed, the tail moves only past a sentinel. */
  lemma TailRests(c: Config, s: State, s': State, t: Tid)
    requires Inv(c, s) && Inv(c, s') && StepOk(c, s, s', t) && |s'.log| == |s.log|
    ensures s'.tail == s.tail || (s.tail.off == c.cap && s'.tail == Pos(s.tail.lap + 1, 0))
  {
    hide SharedOk, ThreadsOk, ThreadOk, Rank;
    TailRank(c, s);
    TailRank(c, s');
    Knows(c, s, t);
    Knows(c, s', t);
    OnlySentinel(c.cap, s.tail, s'.tail);
  }

  lemma OnlySentinel(cap: nat, p: Pos, q: Pos)
    requires cap > 0 && p.off <= cap && q.off <= cap && AtMost(p, q) && Rank(cap, p) == Rank(cap, q)
    ensures q == p || (p.off == cap && q == Pos(p.lap + 1, 0))
  {
    if p.off < cap {
      if p != q { RankStrict(cap, p, q); }
    } else if p.lap < q.lap {
      BaseMonotone(cap, p.lap + 1, q.lap);
    }
  }

  /** Others do not set it back unless they claim. */
  lemma ClaimNotSetBack(c: Config, s: State, s': State, t: Tid, u: Tid, v: Value, pc: ClaimPc)
    requires Inv(c, s) && Inv(c, s') && StepOk(c, s, s', u) && |s'.log| == |s.log|
    requires t < |s.pcs| && s.pcs[t] == Claiming(v, pc)
    ensures ClaimLeft(c.cap, s'.tail, pc) <= ClaimLeft(c.cap, s.tail, pc)
  {
    hide SharedOk, ThreadsOk, StepOk;
    TailRests(c, s, s', u);
    Knows(c, s, t);
  }

  lemma {:induction false} ClaimRuns(c: Config, run: seq<State>, acts: seq<Act>, t: Tid, i: nat, j: nat)
      returns (k: nat)
    requires IsRun(c, run, acts) && i <= j <= |acts| && t < |run[i].pcs| && run[i].pcs[t].Claiming?
    requires forall n :: i <= n < j && acts[n].t == t ==> !acts[n].ch.Fail?
    requires Turns(acts, t, i, j) >= ClaimLeft(c.cap, run[i].tail, run[i].pcs[t].claim)
    ensures i < k <= j && t < |run[k].pcs|
    ensures run[k].pcs[t].ReportFull? || run[k].pcs[t].Finding? || |run[k].log| > |run[i].log|
    decreases j - i
  {
    hide Inv, Step, StepOf, StepOk, StepClaim;
    RunStep(c, run, acts, i);
    QueueSafety.StepGrows(c, run[i], run[i + 1], acts[i].t);
    k := i + 1;
    if |run[i + 1].log| == |run[i].log| {
      if acts[i].t == t {
        ClaimCloser(c, run[i], t, acts[i].ch, run[i].pcs[t].v, run[i].pcs[t].claim);
        ClaimEffect(c, run[i], t, acts[i].ch);
      } else {
        ClaimNotSetBack(c, run[i], run[i + 1], t, acts[i].t, run[i].pcs[t].v, run[i].pcs[t].claim);
      }
      if run[i + 1].pcs[t].Claiming? { k := ClaimRuns(c, run, acts, t, i + 1, j); }
    }
  }

  lemma ClaimEffect(c: Config, s: State, t: Tid, ch: Choice)
    requires t < |s.pcs| && s.pcs[t].Claiming?
    ensures var o := StepClaim(c, s, t, ch, s.pcs[t].v, s.pcs[t].claim);
      StepOf(c, s, t, ch) == o && Step(c, s, t, ch).tail == o.after.tail
  {
    hide StepClaim;
  }

  /** The claim of a position is lock-free: by the time a push has made 13 own steps in its claim loop, none
      of them a compare-exchange that failed by itself, it has claimed or been refused, or some push has
      claimed meanwhile. */
  lemma ClaimLockFree(c: Config, run: seq<State>, acts: seq<Act>, t: Tid, i: nat, j: nat) returns (k: nat)
    requires IsRun(c, run, acts) && i <= j <= |acts| && t < |run[i].pcs| && run[i].pcs[t].Claiming?
    requires Turns(acts, t, i, j) >= 13 && forall n :: i <= n < j && acts[n].t == t ==> !acts[n].ch.Fail?
    ensures i < k <= j && t < |run[k].pcs|
    ensures run[k].pcs[t].ReportFull? || run[k].pcs[t].Finding? || |run[k].log| > |run[i].log|
  {
    hide Inv, Step;
    k := ClaimRuns(c, run, acts, t, i, j);
  }

  // ---- Taking the head --------------------------------------------------------------------------

  /** The own steps a pop has left at most until it has taken the head or seen it unwritten, if the head
      stays where it is, on a value position. */
  function TakeLeft(head: Pos, pc: TakePc): nat {
    match pc
    case LoadHead => 4
    case LoadBlock(h) => if h == head then 3 else 6
    case Look(h, _) => if h == head then 2 else 5
    case Recheck(h, _) => if h == head then 1 else 4
    case CasHead(h, _) => if h == head then 1 else 4
  }

  lemma TakeCloser(c: Config, s: State, t: Tid, ch: Choice, pc: TakePc)
    requires s.head.off < c.cap && !ch.Fail?
    ensures var now := StepTake(c, s, t, ch, pc).pc;
      if now.Taking? then TakeLeft(s.head, now.take) < TakeLeft(s.head, pc)
      else now.Reading? || now.ReportNone?
  {
    hide Published, Taken;
  }

  /** While nothing is taken, a head on a value position stays there. */
  lemma HeadRests(c: Config, s: State, s': State, t: Tid)
    requires Inv(c, s) && Inv(c, s') && StepOk(c, s, s', t) && |s'.order| == |s.order| && s.head.off < c.cap
    ensures s'.head == s.head
  {
    hide SharedOk, ThreadsOk, ThreadOk, Rank;
    OrderRanks(c, s);
    OrderRanks(c, s');
    Knows(c, s, t);
    Knows(c, s', t);
    OnlySentinel(c.cap, s.head, s'.head);
  }

  lemma {:induction false} TakeRuns(c: Config, run: seq<State>, acts: seq<Act>, t: Tid, i: nat, j: nat)
      returns (k: nat)
    requires IsRun(c, run, acts) && i <= j <= |acts| && t < |run[i].pcs| && run[i].pcs[t].Taking?
    requires forall n :: i <= n < j && acts[n].t == t ==> !acts[n].ch.Fail?
    requires run[i].head.off < c.cap && Turns(acts, t, i, j) >= TakeLeft(run[i].head, run[i].pcs[t].take)
    ensures i < k <= j && t < |run[k].pcs|
    ensures run[k].pcs[t].Reading? || run[k].pcs[t].ReportNone? || |run[k].order| > |run[i].order|
    decreases j - i
  {
    hide Inv, Step, StepOf, StepOk, StepTake;
    RunStep(c, run, acts, i);
    QueueSafety.StepGrows(c, run[i], run[i + 1], acts[i].t);
    k := i + 1;
    if |run[i + 1].order| == |run[i].order| {
      HeadRests(c, run[i], run[i + 1], acts[i].t);
      if acts[i].t == t {
        TakeCloser(c, run[i], t, acts[i].ch, run[i].pcs[t].take);
        TakeEffect(c, run[i], t, acts[i].ch);
      }
      if run[i + 1].pcs[t].Taking? { k := TakeRuns(c, run, acts, t, i + 1, j); }
    }
  }

  lemma TakeEffect(c: Config, s: State, t: Tid, ch: Choice)
    requires t < |s.pcs| && s.pcs[t].Taking?
    ensures StepOf(c, s, t, ch) == StepTake(c, s, t, ch, s.pcs[t].take)
  {
    hide StepTake;
  }

  /** Taking a value is lock-free while no block transition holds the head: by the time a pop has made 6 own
      steps in its loop, none of them a compare-exchange that failed by itself, it has taken the value at the
      head or seen it unwritten, or some pop has taken a value meanwhile. */
  lemma TakeLockFree(c: Config, run: seq<State>, acts: seq<Act>, t: Tid, i: nat, j: nat) returns (k: nat)
    requires IsRun(c, run, acts) && i <= j <= |acts| && t < |run[i].pcs| && run[i].pcs[t].Taking?
    requires run[i].moving.None?
    requires Turns(acts, t, i, j) >= 6 && forall n :: i <= n < j && acts[n].t == t ==> !acts[n].ch.Fail?
    ensures i < k <= j && t < |run[k].pcs|
    ensures run[k].pcs[t].Reading? || run[k].pcs[t].ReportNone? || |run[k].order| > |run[i].order|
  {
    hide Inv, Step;
    RunInv(c, run, acts, i);
    HeadOnValue(c, run[i]);
    k := TakeRuns(c, run, acts, t, i, j);
  }

  lemma HeadOnValue(c: Config, s: State)
    requires Inv(c, s) && s.moving.None?
    ensures s.head.off < c.cap
  {
    hide MemoryOk, WritersOk, ReadersOk, GotOk, ThreadsOk;
  }
}
