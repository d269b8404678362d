/**
  Progress of the channel's operations, counted in a task's own steps: what the others do meanwhile may
  decide how an attempt ends, but not whether it does.
*/
module ChannelProgress {
  import opened Basics
  import opened Waiters
  import opened ChannelModel
  import opened ChannelInvariant
  import opened ChannelSteps
  import opened ChannelTheorems
  import opened ChannelCalls

  /** Steps of task `a` among the acts from `i` to `j`. */
  function Turns(acts: seq<Act>, a: Tid, i: nat, j: nat): nat
    requires i <= j <= |acts|
    decreases j - i
  {
    if i == j then 0 else (if acts[i].a == a then 1 else 0) + Turns(acts, a, i + 1, j)
  }

  // ---- Once the outcome is decided --------------------------------------------------------------

  /** The own steps left until an operation is over whose value is claimed or taken, or that leaves. */
  function StepsLeft(pc: Pc): Option<nat> {
    match pc
    case Sending(_, _, Sample(_)) => Some(10)
    case Sending(_, _, Write(_, _)) => Some(9)
    case Sending(_, _, Notify(_)) => Some(8)
    case Receiving(_, Sampling(n)) => Some(n + 8)
    case Receiving(_, Notifying(n)) => Some(n + 7)
    case Verdict(_, _) => Some(6)
    case Leave(_, _, _) => Some(5)
    case Forward(_) => Some(4)
    case Waking(ws, ThenDone) => Some(|ws| + 1)
    case Waking(ws, ThenDrainSenders) => Some(|ws| + 1)
    case Waking(ws, _) => Some(|ws| + 6)
    case _ => None
  }

  /** Where it comes to: its end, or the second round of a close. */
  function EndOf(pc: Pc): Pc {
    if pc.Waking? && pc.follow.ThenDrainSenders? then DrainSenders else Quiet
  }

  predicate Closer(was: Pc, now: Pc) {
    StepsLeft(was).Some? ==>
      && StepsLeft(was).value > 0
      && (now == EndOf(was)
          || (StepsLeft(now).Some? && StepsLeft(now).value < StepsLeft(was).value && EndOf(now) == EndOf(was)))
  }

  lemma SendCloser(c: Channel, s: State, a: Tid, v: Value, send: SendTry, at: SendPc)
    ensures Closer(Sending(v, send, at), StepSend(c, s, a, v, send, at).pc)
  {
    hide IsFull, Rest;
    match at
    case Sample(_) => if |s.receivers| != 0 {}
    case _ =>
  }

  lemma RecvCloser(c: Channel, s: State, a: Tid, ch: Choice, recv: RecvTry, take: RecvPc)
    ensures Closer(Receiving(recv, take), StepRecv(c, s, a, ch, recv, take).pc)
  {
    hide CanTake, Rest;
  }

  lemma WaitCloser(s: State, a: Tid, ch: Choice, pc: Pc)
    requires !pc.Sending? && !pc.Receiving?
    ensures Closer(pc, StepWait(s, a, ch, pc).pc)
  {
    hide Without, Rest, Ids;
  }

  lemma StepCloser(c: Channel, s: State, a: Tid, ch: Choice)
    requires a < |s.pcs|
    ensures Closer(s.pcs[a], StepOf(c, s, a, ch).pc)
  {
    hide StepSend, StepRecv, StepWait, StepQuiet, Closer;
    match s.pcs[a]
    case Quiet => assert Closer(Quiet, StepOf(c, s, a, ch).pc) by { QuietCloser(StepOf(c, s, a, ch).pc); }
    case Sending(v, send, at) => SendCloser(c, s, a, v, send, at);
    case Receiving(recv, take) => RecvCloser(c, s, a, ch, recv, take);
    case pc => WaitCloser(s, a, ch, pc);
  }

  lemma QuietCloser(pc: Pc)
    ensures Closer(Quiet, pc)
  {
  }

  /** Whatever the others do, an operation whose value is claimed or taken, or that has given up or was
      dropped, is over within its measure of own steps; so is each of the two rounds of a close. */
  lemma {:induction false} OperationEnds(c: Channel, run: seq<State>, acts: seq<Act>, a: Tid, i: nat, j: nat)
      returns (k: nat)
    requires IsRun(c, run, acts) && i <= j <= |acts| && a < |run[i].pcs|
    requires StepsLeft(run[i].pcs[a]).Some? && Turns(acts, a, i, j) >= StepsLeft(run[i].pcs[a]).value
    ensures i < k <= j && a < |run[k].pcs| && run[k].pcs[a] == EndOf(run[i].pcs[a])
    decreases j - i
  {
    hide Inv, Step, StepOf;
    if i == j { Positive(run[i].pcs[a]); }
    RunStep(c, run, acts, i);
    if acts[i].a == a {
      StepCloser(c, run[i], a, acts[i].ch);
      if run[i + 1].pcs[a] == EndOf(run[i].pcs[a]) { return i + 1; }
    }
    k := OperationEnds(c, run, acts, a, i + 1, j);
  }

  lemma Positive(pc: Pc)
    requires StepsLeft(pc).Some?
    ensures StepsLeft(pc).value > 0
  {
  }

  // ---- The attempts of a send -------------------------------------------------------------------

  /** The own steps left until the attempts of a poll, or of try_send, are decided. */
  function SendLeft(pc: Pc): Option<nat> {
    match pc
    case ResumeSend(_, _) => Some(6)
    case Sending(_, SendFirst, IsOpen) => Some(5)
    case Sending(_, SendFirst, Claim) => Some(4)
    case RegisterSender(_) => Some(3)
    case Sending(_, _, IsOpen) => Some(2)
    case Sending(_, _, Claim) => Some(1)
    case _ => None
  }

  /** How they are decided: the value is claimed where there is room; the future parks where there is none;
      or the send ends, with an excuse. */
  predicate SendDecided(c: Channel, s: State, a: Tid, ch: Choice, now: Pc)
    requires a < |s.pcs|
  {
    || (now.Sending? && now.at.Sample? && !IsFull(c, s.q))
    || (now.SendParked? && IsFull(c, s.q))
    || ((now.Quiet? || now.Leave?) && SendExcuse(c, s, a, ch))
  }

  lemma SendAttempt(c: Channel, s: State, a: Tid, ch: Choice)
    requires a < |s.pcs| && SendLeft(s.pcs[a]).Some?
    ensures SendLeft(s.pcs[a]).value > 0
    ensures var now := StepOf(c, s, a, ch).pc;
      if SendLeft(now).Some? then SendLeft(now).value < SendLeft(s.pcs[a]).value else SendDecided(c, s, a, ch, now)
  {
    hide IsFull, Without;
    if s.pcs[a].Sending? && s.pcs[a].at.IsOpen? { if s.closed && s.pcs[a].send.SendAgain? {} }
  }

  /** Whatever the others do, the attempts of a poll of a send, or of try_send, are decided within 6 own
      steps. */
  lemma {:induction false} SendSettles(c: Channel, run: seq<State>, acts: seq<Act>, a: Tid, i: nat, j: nat)
      returns (k: nat)
    requires IsRun(c, run, acts) && i <= j <= |acts| && a < |run[i].pcs| && SendLeft(run[i].pcs[a]).Some?
    requires Turns(acts, a, i, j) >= SendLeft(run[i].pcs[a]).value
    ensures i <= k < j && acts[k].a == a && a < |run[k].pcs| && a < |run[k + 1].pcs|
    ensures SendDecided(c, run[k], a, acts[k].ch, run[k + 1].pcs[a])
    ensures forall n :: i <= n <= k ==> a < |run[n].pcs| && SendLeft(run[n].pcs[a]).Some?
    decreases j - i
  {
    hide Inv, Step, StepOf, SendLeft, SendDecided;
    SendAttempt(c, run[i], a, Continue);
    RunStep(c, run, acts, i);
    if acts[i].a == a {
      SendAttempt(c, run[i], a, acts[i].ch);
      if SendLeft(run[i + 1].pcs[a]).None? { return i; }
    }
    k := SendSettles(c, run, acts, a, i + 1, j);
  }

  /** A task begins a send, or polls one that is parked. */
  predicate BeginsSend(s: State, a: Tid, ch: Choice)
    requires a < |s.pcs|
  {
    (s.pcs[a].Quiet? && (ch.TrySend? || ch.StartSend?)) || (s.pcs[a].SendParked? && ch.Poll?)
  }

  /** On a channel that is open and has room all the while, it claims. */
  lemma SendGoesThrough(c: Channel, run: seq<State>, acts: seq<Act>, a: Tid, i: nat, j: nat) returns (k: nat)
    requires IsRun(c, run, acts) && i < j <= |acts| && acts[i].a == a && a < |run[i].pcs|
    requires BeginsSend(run[i], a, acts[i].ch) && Turns(acts, a, i + 1, j) >= 6
    requires forall n :: i < n < j ==> !run[n].closed && !IsFull(c, run[n].q)
    ensures i < k <= j && a < |run[k].pcs| && run[k].pcs[a].Sending? && run[k].pcs[a].at.Sample?
  {
    hide Inv, Step, StepOf, IsFull;
    RunStep(c, run, acts, i);
    SendBegun(c, run[i], a, acts[i].ch);
    k := SendSettles(c, run, acts, a, i + 1, j);
    k := k + 1;
  }

  lemma SendBegun(c: Channel, s: State, a: Tid, ch: Choice)
    requires a < |s.pcs| && BeginsSend(s, a, ch)
    ensures SendLeft(StepOf(c, s, a, ch).pc).Some? && SendLeft(StepOf(c, s, a, ch).pc).value <= 6
  {
  }

  // ---- Receiving from a closed channel ----------------------------------------------------------

  /** A task begins a receive that waits or reports, or polls one that is parked. */
  predicate BeginsReceive(c: Channel, s: State, a: Tid, ch: Choice)
    requires a < |s.pcs|
  {
    || (s.pcs[a].Quiet? && (ch.TryRecv? || ch.StartRecv?) && MayReceive(c, a))
    || (s.pcs[a].RecvParked? && ch.Poll?)
  }

  /** The first attempt of a poll, or try_recv, on a channel whose `n` claimed values are all taken: it
      looks for a value, then whether the channel is closed and whether everything is taken. */
  predicate OnTheWay(n: nat, pc: Pc) {
    match pc
    case ResumeRecv(_) => true
    case Receiving(recv, at) =>
      !recv.RecvBatch? && (at.Pop? || at.IsClosed? || at.VerdictHead? || (at.VerdictTail? && at.h >= n))
    case _ => false
  }

  /** The own steps left until a receive from a closed and drained channel is decided, whatever it is at. */
  function RecvLeft(n: nat, pc: Pc): Option<nat> {
    match pc
    case RegisterReceiver => Some(6)
    case Snapshot(_) => Some(5)
    case ResumeRecv(_) => Some(5)
    case Receiving(recv, at) =>
      if recv.RecvBatch? then None
      else
        (match at
         case Pop => Some(4)
         case IsClosed => Some(3)
         case VerdictHead => Some(2)
         case VerdictTail(h) => Some(if h >= n then 1 else 7)
         case Below => Some(6)
         case Retry => Some(5)
         case _ => None)
    case _ => None
  }

  ghost predicate Drained(s: State) {
    s.closed && s.q.head == |s.q.log|
  }

  lemma ReceiveAttempt(c: Channel, s: State, a: Tid, ch: Choice)
    requires a < |s.pcs| && Drained(s) && RecvLeft(|s.q.log|, s.pcs[a]).Some?
    ensures RecvLeft(|s.q.log|, s.pcs[a]).value > 0
    ensures var now := StepOf(c, s, a, ch).pc; var n := |s.q.log|;
      && (if RecvLeft(n, now).Some? then RecvLeft(n, now).value < RecvLeft(n, s.pcs[a]).value
          else now.RecvParked? || (now.Verdict? && now.read == n))
      && (OnTheWay(n, s.pcs[a]) ==> if RecvLeft(n, now).Some? then OnTheWay(n, now) else now.Verdict?)
  {
    hide Without;
    NothingToTake(s, ch);
    if s.pcs[a].Receiving? {
      var take := s.pcs[a].take;
      if take.VerdictTail? { if take.h >= |s.q.log| {} }
      if take.Retry? { if s.pcs[a].recv.RecvAgain? && ch.Yield? {} }
    }
  }

  lemma NothingToTake(s: State, ch: Choice)
    requires s.q.head == |s.q.log|
    ensures forall recv, n :: !CanTake(s.q, recv, n)
  {
  }

  /** A drained channel stays drained while nothing is claimed. */
  lemma StaysDrained(c: Channel, run: seq<State>, acts: seq<Act>, i: nat, j: nat)
    requires IsRun(c, run, acts) && i <= j < |run| && |run[j].q.log| == |run[i].q.log|
    requires run[i].q.head == |run[i].q.log|
    ensures run[j].q.head == |run[j].q.log|
    ensures run[i].closed ==> run[j].closed
  {
    hide Inv, Step;
    QueueGrows(c, run, acts, i, j);
    RunInv(c, run, acts, j);
    HeadInside(c, run[j]);
    if run[i].closed { ClosedStays(c, run, acts, i, j); }
  }

  lemma HeadInside(c: Channel, s: State)
    requires Inv(c, s)
    ensures s.q.head <= |s.q.log|
  {
    hide ClaimsOk, ListOk, PromiseOk, SoloOk, HearsOk, AsleepOk, ClosedOk, OpenOk, TokensOk;
  }

  lemma {:induction false} ReceiveRuns(c: Channel, run: seq<State>, acts: seq<Act>, a: Tid, i: nat, j: nat)
      returns (k: nat)
    requires IsRun(c, run, acts) && i <= j <= |acts| && a < |run[i].pcs|
    requires Drained(run[i]) && |run[j].q.log| == |run[i].q.log| && RecvLeft(|run[i].q.log|, run[i].pcs[a]).Some?
    requires Turns(acts, a, i, j) >= RecvLeft(|run[i].q.log|, run[i].pcs[a]).value
    ensures i < k <= j && a < |run[k].pcs|
    ensures run[k].pcs[a].RecvParked? || (run[k].pcs[a].Verdict? && run[k].pcs[a].read == |run[i].q.log|)
    ensures OnTheWay(|run[i].q.log|, run[i].pcs[a]) ==>
      && run[k].pcs[a].Verdict?
      && forall n :: i <= n < k ==> a < |run[n].pcs| && OnTheWay(|run[i].q.log|, run[n].pcs[a])
    decreases j - i
  {
    hide Inv, Step, StepOf, RecvLeft;
    ReceiveAttempt(c, run[i], a, Continue);
    RunStep(c, run, acts, i);
    QueueGrows(c, run, acts, i, i + 1);
    QueueGrows(c, run, acts, i + 1, j);
    StaysDrained(c, run, acts, i, i + 1);
    if acts[i].a == a {
      ReceiveAttempt(c, run[i], a, acts[i].ch);
      if RecvLeft(|run[i].q.log|, run[i + 1].pcs[a]).None? { return i + 1; }
    }
    k := ReceiveRuns(c, run, acts, a, i + 1, j);
  }

  /** A receive begun, or polled, on a closed channel with everything taken is about to report Closed within
      5 own steps, unless something is claimed meanwhile; and it does nothing on the way but look: it does
      not register, wait or try again. */
  lemma ClosedReported(c: Channel, run: seq<State>, acts: seq<Act>, a: Tid, i: nat, j: nat) returns (k: nat)
    requires IsRun(c, run, acts) && i < j <= |acts| && acts[i].a == a && a < |run[i].pcs|
    requires BeginsReceive(c, run[i], a, acts[i].ch) && Drained(run[i]) && |run[j].q.log| == |run[i].q.log|
    requires Turns(acts, a, i + 1, j) >= 5
    ensures i < k <= j && a < |run[k].pcs| && run[k].pcs[a].Verdict? && run[k].pcs[a].read == |run[i].q.log|
    ensures forall n :: i < n < k ==> a < |run[n].pcs| && OnTheWay(|run[i].q.log|, run[n].pcs[a])
  {
    hide Inv, Step, StepOf, RecvLeft, OnTheWay;
    RunStep(c, run, acts, i);
    ReceiveBegun(c, run[i], a, acts[i].ch);
    QueueGrows(c, run, acts, i, i + 1);
    QueueGrows(c, run, acts, i + 1, j);
    StaysDrained(c, run, acts, i, i + 1);
    k := ReceiveRuns(c, run, acts, a, i + 1, j);
  }

  lemma ReceiveBegun(c: Channel, s: State, a: Tid, ch: Choice)
    requires a < |s.pcs| && BeginsReceive(c, s, a, ch)
    ensures var now := StepOf(c, s, a, ch).pc; var n := |s.q.log|;
      OnTheWay(n, now) && RecvLeft(n, now).Some? && RecvLeft(n, now).value <= 5
  {
  }

  /** A receive already under way when everything is taken and the channel closed, whatever it is at, is about
      to report Closed within 7 own steps, or its future has parked, to be polled again. */
  lemma ClosedReportedLate(c: Channel, run: seq<State>, acts: seq<Act>, a: Tid, i: nat, j: nat) returns (k: nat)
    requires IsRun(c, run, acts) && i <= j <= |acts| && a < |run[i].pcs|
    requires Drained(run[i]) && |run[j].q.log| == |run[i].q.log| && RecvLeft(|run[i].q.log|, run[i].pcs[a]).Some?
    requires Turns(acts, a, i, j) >= 7
    ensures i < k <= j && a < |run[k].pcs|
    ensures run[k].pcs[a].RecvParked? || (run[k].pcs[a].Verdict? && run[k].pcs[a].read == |run[i].q.log|)
  {
    hide Inv, Step, StepOf;
    k := ReceiveRuns(c, run, acts, a, i, j);
  }

  // ---- Receiving from an open and empty channel -------------------------------------------------

  /** The own steps left until a receive from an open channel with nothing claimed and not taken is over. */
  function SleepLeft(pc: Pc): Option<nat> {
    match pc
    case ResumeRecv(_) => Some(9)
    case Receiving(RecvFirst, Pop) => Some(8)
    case Receiving(RecvFirst, IsClosed) => Some(7)
    case RegisterReceiver => Some(6)
    case Snapshot(_) => Some(5)
    case Receiving(RecvAgain(_, _), Retry) => Some(5)
    case Receiving(RecvAgain(_, _), Pop) => Some(4)
    case Receiving(RecvAgain(_, _), IsClosed) => Some(3)
    case Receiving(RecvAgain(_, _), Below) => Some(2)
    case Receiving(RecvOnce, Pop) => Some(2)
    case Receiving(RecvOnce, IsClosed) => Some(1)
    case _ => None
  }

  /** try_recv: a receive that does not wait. */
  predicate DoesNotWait(pc: Pc) {
    pc.Receiving? && pc.recv.RecvOnce?
  }

  lemma SleepAttempt(c: Channel, s: State, a: Tid, ch: Choice)
    requires a < |s.pcs| && !s.closed && s.q.head == |s.q.log| && SleepLeft(s.pcs[a]).Some?
    requires EarOf(s.pcs[a]).Some? ==> EarOf(s.pcs[a]).value.seen <= |s.q.log|
    ensures SleepLeft(s.pcs[a]).value > 0
    ensures var now := StepOf(c, s, a, ch).pc;
      if SleepLeft(now).Some? then
        SleepLeft(now).value < SleepLeft(s.pcs[a]).value && DoesNotWait(now) == DoesNotWait(s.pcs[a])
      else if DoesNotWait(s.pcs[a]) then now.Quiet? else now.RecvParked?
  {
    hide Without;
    NothingToTake(s, ch);
    if s.pcs[a].Receiving? && s.pcs[a].take.Retry? { if ch.Yield? {} }
  }

  lemma SeenInside(c: Channel, s: State, a: Tid)
    requires Inv(c, s) && a < |s.pcs| && EarOf(s.pcs[a]).Some?
    ensures EarOf(s.pcs[a]).value.seen <= |s.q.log|
  {
    hide QueueOk, ClaimsOk, ListOk, PromiseOk, SoloOk, AsleepOk, ClosedOk, OpenOk, TokensOk, EarOf;
  }

  lemma {:induction false} SleepRuns(c: Channel, run: seq<State>, acts: seq<Act>, a: Tid, i: nat, j: nat)
      returns (k: nat)
    requires IsRun(c, run, acts) && i <= j <= |acts| && a < |run[i].pcs|
    requires run[i].q.head == |run[i].q.log| == |run[j].q.log| && !run[j].closed && SleepLeft(run[i].pcs[a]).Some?
    requires Turns(acts, a, i, j) >= SleepLeft(run[i].pcs[a]).value
    ensures i < k <= j && a < |run[k].pcs|
    ensures if DoesNotWait(run[i].pcs[a]) then run[k].pcs[a].Quiet? else run[k].pcs[a].RecvParked?
    decreases j - i
  {
    hide Inv, Step, StepOf, SleepLeft;
    RunInv(c, run, acts, i);
    if run[i].closed { ClosedStays(c, run, acts, i, j); }
    if EarOf(run[i].pcs[a]).Some? { SeenInside(c, run[i], a); }
    SleepAttempt(c, run[i], a, Continue);
    RunStep(c, run, acts, i);
    QueueGrows(c, run, acts, i, i + 1);
    QueueGrows(c, run, acts, i + 1, j);
    StaysDrained(c, run, acts, i, i + 1);
    if acts[i].a == a {
      SleepAttempt(c, run[i], a, acts[i].ch);
      if SleepLeft(run[i + 1].pcs[a]).None? { return i + 1; }
    }
    k := SleepRuns(c, run, acts, a, i + 1, j);
  }

  /** On an open channel with everything taken a receive that waits goes to sleep, and one that does not
      returns empty-handed, within 9 own steps of its beginning or its poll, unless something is claimed or
      the channel closed meanwhile. */
  lemma ReceiveSleeps(c: Channel, run: seq<State>, acts: seq<Act>, a: Tid, i: nat, j: nat) returns (k: nat)
    requires IsRun(c, run, acts) && i < j <= |acts| && acts[i].a == a && a < |run[i].pcs|
    requires BeginsReceive(c, run[i], a, acts[i].ch) && run[i].q.head == |run[i].q.log| == |run[j].q.log|
    requires !run[j].closed && Turns(acts, a, i + 1, j) >= 9
    ensures i < k <= j && a < |run[k].pcs|
    ensures if acts[i].ch.TryRecv? then run[k].pcs[a].Quiet? else run[k].pcs[a].RecvParked?
  {
    hide Inv, Step, StepOf, SleepLeft;
    RunStep(c, run, acts, i);
    SleepBegun(c, run[i], a, acts[i].ch);
    QueueGrows(c, run, acts, i, i + 1);
    QueueGrows(c, run, acts, i + 1, j);
    StaysDrained(c, run, acts, i, i + 1);
    k := SleepRuns(c, run, acts, a, i + 1, j);
  }

  lemma SleepBegun(c: Channel, s: State, a: Tid, ch: Choice)
    requires a < |s.pcs| && BeginsReceive(c, s, a, ch)
    ensures var now := StepOf(c, s, a, ch).pc;
      SleepLeft(now).Some? && SleepLeft(now).value <= 9 && DoesNotWait(now) == ch.TryRecv?
  {
  }
}
