/**
  Operations of the channel from call to return: what one send or one receive of one task has done when
  it is over, whatever the other tasks did meanwhile.
*/
module ChannelCalls {
  import opened Basics
  import opened SimpleQueues
  import opened Waiters
  import opened ChannelModel
  import opened ChannelInvariant
  import opened ChannelSteps
  import opened ChannelTheorems

  /** Task `a` begins the operation `ch` with step `i`, and is still at it up to state `j`. */
  predicate Within(run: seq<State>, acts: seq<Act>, i: nat, j: nat, a: Tid, ch: Choice) {
    && i < j < |run| && j <= |acts| && acts[i] == Act(a, ch) && a < |run[i].pcs| && run[i].pcs[a] == Quiet
    && forall k :: i < k <= j ==> a < |run[k].pcs| && run[k].pcs[a] != Quiet
  }

  /** It is over with step `j`. */
  predicate Returns(run: seq<State>, acts: seq<Act>, i: nat, j: nat, a: Tid, ch: Choice) {
    && Within(run, acts, i, j, a, ch) && j < |acts| && j + 1 < |run|
    && a < |run[j + 1].pcs| && run[j + 1].pcs[a] == Quiet
  }

  lemma RunStep(c: Channel, run: seq<State>, acts: seq<Act>, j: nat)
    requires IsRun(c, run, acts) && j < |acts|
    ensures |run| == |acts| + 1 && Inv(c, run[j]) && Inv(c, run[j + 1])
    ensures acts[j].a < |run[j].pcs| && run[j + 1] == Step(c, run[j], acts[j].a, acts[j].ch)
    ensures run[j + 1].pcs == run[j].pcs[acts[j].a := StepOf(c, run[j], acts[j].a, acts[j].ch).pc]
    ensures run[j + 1].closed == StepOf(c, run[j], acts[j].a, acts[j].ch).after.closed
    ensures run[j + 1].q == StepOf(c, run[j], acts[j].a, acts[j].ch).after.q
  {
    hide Inv, StepOf;
    RunInv(c, run, acts, j);
    RunInv(c, run, acts, j + 1);
    var x := acts[j];
    assert run[j + 1] == Step(c, run[j], x.a, x.ch);
    StepPcs(c, run[j], x.a, x.ch);
  }

  /** No step touches another task's program point. */
  lemma StepPcs(c: Channel, s: State, a: Tid, ch: Choice)
    requires a < |s.pcs|
    ensures StepOf(c, s, a, ch).after.pcs == s.pcs
  {
    hide StepQuiet, StepSend, StepRecv, StepWait;
    match s.pcs[a]
    case Quiet => QuietPcs(c, s, a, ch);
    case Sending(v, send, at) => SendPcs(c, s, a, v, send, at);
    case Receiving(recv, take) => RecvPcs(c, s, a, ch, recv, take);
    case pc => WaitPcs(s, a, ch, pc);
  }

  /** What a step leaves alone besides the queue: the program points, and the flag once it is set. */
  predicate Plain(s: State, o: Outcome) {
    o.after.pcs == s.pcs && o.after.closed == s.closed
  }

  lemma QuietPcs(c: Channel, s: State, a: Tid, ch: Choice)
    ensures StepQuiet(c, s, a, ch).after.pcs == s.pcs
    ensures StepQuiet(c, s, a, ch).after.closed == (s.closed || ch.Close?)
  {
  }

  lemma SendPcs(c: Channel, s: State, a: Tid, v: Value, send: SendTry, at: SendPc)
    ensures Plain(s, StepSend(c, s, a, v, send, at))
  {
    match at
    case IsOpen => if s.closed && send.SendAgain? {}
    case Claim => if IsFull(c, s.q) {}
    case _ =>
  }

  lemma RecvPcs(c: Channel, s: State, a: Tid, ch: Choice, recv: RecvTry, take: RecvPc)
    ensures Plain(s, StepRecv(c, s, a, ch, recv, take))
  {
    hide CanTake;
    match take
    case Pop => if ch.Ready? && CanTake(s.q, recv, ch.n) {}
    case Retry => if recv.RecvAgain? && ch.Yield? {}
    case _ =>
  }

  lemma WaitPcs(s: State, a: Tid, ch: Choice, pc: Pc)
    ensures Plain(s, StepWait(s, a, ch, pc))
  {
    hide Without, Wakers, First, Rest, Ids;
    match pc
    case SendParked(_, _) => if ch.Poll? {} else if ch.Drop? {}
    case RecvParked(_, _) => if ch.Poll? {} else if ch.Drop? {}
    case Leave(side, id, _) => if id in Ids(ListOf(s, side)) {}
    case Waking(ws, _) => if |ws| == 0 {}
    case _ =>
  }

  // ---- Closing ----------------------------------------------------------------------------------

  lemma ClosedStep(c: Channel, s: State, a: Tid, ch: Choice)
    requires a < |s.pcs|
    ensures StepOf(c, s, a, ch).after.closed == (s.closed || (s.pcs[a].Quiet? && ch.Close?))
  {
    hide StepQuiet, StepSend, StepRecv, StepWait;
    match s.pcs[a]
    case Quiet => QuietPcs(c, s, a, ch);
    case Sending(v, send, at) => SendPcs(c, s, a, v, send, at);
    case Receiving(recv, take) => RecvPcs(c, s, a, ch, recv, take);
    case pc => WaitPcs(s, a, ch, pc);
  }

  /** A channel is closed exactly if some task has called close: at once, and for good. */
  lemma {:induction false} ClosedByClose(c: Channel, run: seq<State>, acts: seq<Act>, j: nat)
    requires IsRun(c, run, acts) && j < |run|
    ensures run[j].closed <==>
      exists i :: 0 <= i < j && acts[i].ch.Close? && acts[i].a < |run[i].pcs| && run[i].pcs[acts[i].a].Quiet?
    decreases j
  {
    hide Inv, Step, StepOf;
    if j > 0 {
      ClosedByClose(c, run, acts, j - 1);
      RunStep(c, run, acts, j - 1);
      ClosedStep(c, run[j - 1], acts[j - 1].a, acts[j - 1].ch);
    }
  }

  lemma {:induction false} ClosedStays(c: Channel, run: seq<State>, acts: seq<Act>, i: nat, j: nat)
    requires IsRun(c, run, acts) && i <= j < |run| && run[i].closed
    ensures run[j].closed
    decreases j
  {
    hide Inv, Step, StepOf;
    if i < j {
      ClosedStays(c, run, acts, i, j - 1);
      RunStep(c, run, acts, j - 1);
      ClosedStep(c, run[j - 1], acts[j - 1].a, acts[j - 1].ch);
    }
  }

  // ---- The queue --------------------------------------------------------------------------------

  /** The claim a step makes. */
  function Claims(c: Channel, s: State, a: Tid): seq<Claimed>
    requires a < |s.pcs|
  {
    match s.pcs[a]
    case Sending(v, _, Claim) => if IsFull(c, s.q) then [] else [Claimed(a, v)]
    case _ => []
  }

  /** How many values a step takes. */
  function Takes(s: State, a: Tid, ch: Choice): nat
    requires a < |s.pcs|
  {
    match s.pcs[a]
    case Receiving(recv, Pop) => if ch.Ready? && CanTake(s.q, recv, ch.n) then ch.n else 0
    case _ => 0
  }

  /** A step adds its claim to the log, and moves the head over what it takes; a position becomes pending
      only by being claimed. */
  lemma QueueStep(c: Channel, s: State, a: Tid, ch: Choice)
    requires a < |s.pcs|
    ensures var q' := StepOf(c, s, a, ch).after.q;
      && q'.log == s.q.log + Claims(c, s, a) && q'.head == s.q.head + Takes(s, a, ch)
      && (forall k :: k in q'.pending ==> k in s.q.pending || k >= |s.q.log|)
  {
    hide StepQuiet, StepSend, StepRecv, StepWait, CanTake;
    match s.pcs[a]
    case Quiet => QuietKeepsQueue(c, s, a, ch);
    case Sending(v, send, at) => SendQueue(c, s, a, v, send, at);
    case Receiving(recv, take) => RecvQueue(c, s, a, ch, recv, take);
    case pc => WaitKeepsQueue(s, a, ch, pc);
  }

  lemma SendQueue(c: Channel, s: State, a: Tid, v: Value, send: SendTry, at: SendPc)
    requires a < |s.pcs| && s.pcs[a] == Sending(v, send, at)
    ensures var q' := StepSend(c, s, a, v, send, at).after.q;
      && q'.log == s.q.log + Claims(c, s, a) && q'.head == s.q.head
      && (forall k :: k in q'.pending ==> k in s.q.pending || k >= |s.q.log|)
  {
    hide FullStep, OpenStep, NotifyStep, SampleStep;
    SendKeepsQueue(s, v, send);
    match at
    case Claim => if IsFull(c, s.q) {}
    case _ =>
  }

  lemma RecvQueue(c: Channel, s: State, a: Tid, ch: Choice, recv: RecvTry, take: RecvPc)
    requires a < |s.pcs| && s.pcs[a] == Receiving(recv, take)
    ensures var q' := StepRecv(c, s, a, ch, recv, take).after.q;
      q'.log == s.q.log && q'.head == s.q.head + Takes(s, a, ch) && q'.pending == s.q.pending
  {
    hide SamplingStep, NotifyingStep, IsClosedStep, VerdictStep, BelowStep, RetryStep, CanTake;
    RecvKeepsQueue(c, s, a, ch, recv);
    if take.Pop? && ch.Ready? && CanTake(s.q, recv, ch.n) {}
  }

  // ---- A closed channel refuses -----------------------------------------------------------------

  /** From entry `base` of the log on, nothing is task `a`'s. */
  predicate NoneBy(log: seq<Claimed>, base: nat, a: Tid) {
    forall n :: base <= n < |log| ==> log[n].who != a
  }

  /** From entry `base` of the log on, entry `n` is task `a`'s value `v`, and no other is its. */
  predicate OneBy(log: seq<Claimed>, base: nat, a: Tid, v: Value, n: nat) {
    && base <= n < |log| && log[n] == Claimed(a, v)
    && forall k :: base <= k < |log| && k != n ==> log[k].who != a
  }

  /** The task has found the channel open and goes on to claim: from here a send races with a close. */
  predicate PastCheck(pc: Pc) {
    pc.Sending? && pc.at.Claim?
  }

  lemma ChecksFirst(c: Channel, s: State, a: Tid, ch: Choice)
    requires a < |s.pcs| && PastCheck(StepOf(c, s, a, ch).pc)
    ensures !s.closed && s.pcs[a].Sending? && s.pcs[a].at.IsOpen?
  {
    hide StepRecv, FullStep;
    match s.pcs[a]
    case Quiet =>
    case Sending(v, send, at) => if at.Claim? { if IsFull(c, s.q) { SendStays(s, v, send); } } else if at.Write? { }
    case Receiving(recv, take) => RecvNotSends(c, s, a, ch, recv, take);
    case pc => WaitNotClaims(s, a, ch, pc);
  }

  lemma SendStays(s: State, v: Value, send: SendTry)
    ensures !PastCheck(FullStep(s, v, send).pc)
  {
  }

  lemma RecvNotSends(c: Channel, s: State, a: Tid, ch: Choice, recv: RecvTry, take: RecvPc)
    ensures !StepRecv(c, s, a, ch, recv, take).pc.Sending?
  {
    hide CanTake;
    match take
    case Pop => if ch.Ready? && CanTake(s.q, recv, ch.n) {}
    case VerdictTail(h) => if h >= |s.q.log| {}
    case _ =>
  }

  lemma WaitNotClaims(s: State, a: Tid, ch: Choice, pc: Pc)
    requires !PastCheck(pc)
    ensures !PastCheck(StepWait(s, a, ch, pc).pc)
  {
    hide Without, Wakers, First, Rest, Ids;
  }

  /** Once the channel is closed it takes nothing from a task that has not found it open before: whatever
      the task is at, a send it has not begun, or one that is parked, registers, or is about to ask. */
  lemma {:induction false} ClosedRefuses(c: Channel, run: seq<State>, acts: seq<Act>, i: nat, j: nat, a: Tid)
    requires IsRun(c, run, acts) && i <= j < |run| && a < |run[i].pcs|
    requires run[i].closed && !PastCheck(run[i].pcs[a])
    ensures NoneBy(run[j].q.log, |run[i].q.log|, a)
    ensures run[j].closed && a < |run[j].pcs| && !PastCheck(run[j].pcs[a])
    decreases j
  {
    hide Inv, Step, StepOf;
    if i < j {
      ClosedRefuses(c, run, acts, i, j - 1, a);
      RunStep(c, run, acts, j - 1);
      ClosedStays(c, run, acts, i, j);
      var x := acts[j - 1];
      QueueStep(c, run[j - 1], x.a, x.ch);
      if x.a == a && PastCheck(run[j].pcs[a]) { ChecksFirst(c, run[j - 1], a, x.ch); }
    }
  }

  // ---- Sends ------------------------------------------------------------------------------------

  /** Why a send may end without a value sent: it finds the channel closed, it does not wait and finds it
      full, or its future is dropped. */
  predicate SendExcuse(c: Channel, s: State, a: Tid, ch: Choice)
    requires a < |s.pcs|
  {
    match s.pcs[a]
    case Sending(_, _, IsOpen) => s.closed
    case Sending(_, SendOnce, Claim) => IsFull(c, s.q)
    case SendParked(_, _) => ch.Drop?
    case _ => false
  }

  ghost predicate SendExcused(c: Channel, run: seq<State>, acts: seq<Act>, i: nat, j: nat, a: Tid)
    requires i < j < |run| && j <= |acts|
  {
    exists k :: i < k < j && acts[k].a == a && a < |run[k].pcs| && SendExcuse(c, run[k], a, acts[k].ch)
  }

  /** The value is in the queue once, and published. */
  ghost predicate Sent(q: SimpleQueue, base: nat, a: Tid, v: Value) {
    exists n :: OneBy(q.log, base, a, v, n) && n !in q.pending
  }

  ghost predicate SentOrExcused(q: SimpleQueue, base: nat, a: Tid, v: Value, excused: bool) {
    Sent(q, base, a, v) || (NoneBy(q.log, base, a) && excused)
  }

  /** What a send has done so far, at each of its program points. */
  ghost predicate SendSoFar(q: SimpleQueue, base: nat, a: Tid, v: Value, excused: bool, pc: Pc) {
    match pc
    case Sending(w, _, at) =>
      w == v &&
      (match at
       case Sample(k) => OneBy(q.log, base, a, v, k)
       case Write(k, _) => OneBy(q.log, base, a, v, k)
       case Notify(k) => OneBy(q.log, base, a, v, k) && k !in q.pending
       case _ => NoneBy(q.log, base, a))
    case RegisterSender(w) => w == v && NoneBy(q.log, base, a)
    case SendParked(w, _) => w == v && NoneBy(q.log, base, a)
    case ResumeSend(w, _) => w == v && NoneBy(q.log, base, a)
    case Waking(_, ThenSent(_)) => Sent(q, base, a, v)
    case Waking(_, ThenDone) => SentOrExcused(q, base, a, v, excused)
    case Leave(side, _, _) => side == Senders && SentOrExcused(q, base, a, v, excused)
    case Forward(side) => side == Senders && SentOrExcused(q, base, a, v, excused)
    case _ => false
  }

  /** Another task's step leaves a send where it is. */
  lemma SendStaysSo(q: SimpleQueue, q': SimpleQueue, base: nat, a: Tid, v: Value, excused: bool, pc: Pc)
    requires SendSoFar(q, base, a, v, excused, pc) && base <= |q.log| <= |q'.log| && q.log <= q'.log
    requires forall n :: |q.log| <= n < |q'.log| ==> q'.log[n].who != a
    requires forall k :: k in q'.pending ==> k in q.pending || k >= |q.log|
    ensures SendSoFar(q', base, a, v, excused, pc)
  {
    if Sent(q, base, a, v) {
      var n :| OneBy(q.log, base, a, v, n) && n !in q.pending;
      assert OneBy(q'.log, base, a, v, n) && n !in q'.pending;
    }
  }

  /** Where the steps of a send lead. */
  ghost predicate SendOn(q': SimpleQueue, base: nat, a: Tid, v: Value, excused: bool, now: Pc) {
    if now != Quiet then SendSoFar(q', base, a, v, excused, now) else SentOrExcused(q', base, a, v, excused)
  }

  lemma SendingOn(c: Channel, s: State, a: Tid, base: nat, v: Value, e: bool, send: SendTry, at: SendPc)
    requires a < |s.pcs| && s.pcs[a] == Sending(v, send, at) && base <= |s.q.log|
    requires SendSoFar(s.q, base, a, v, e, s.pcs[a])
    ensures var o := StepSend(c, s, a, v, send, at);
      SendOn(o.after.q, base, a, v, e || SendExcuse(c, s, a, Continue), o.pc)
  {
    hide Rest, First, Wakers;
    match at
    case IsOpen => if s.closed && send.SendAgain? {}
    case Claim => if IsFull(c, s.q) {} else { Pushes(s.q, base, a, v); }
    case Sample(k) => if |s.receivers| != 0 {}
    case Write(k, wake) => Publishes(s.q, base, a, v, k);
    case Notify(k) => assert Sent(s.q, base, a, v);
  }

  lemma Pushes(q: SimpleQueue, base: nat, a: Tid, v: Value)
    requires base <= |q.log| && NoneBy(q.log, base, a)
    ensures OneBy(Pushed(q, a, v).log, base, a, v, |q.log|)
  {
  }

  lemma Publishes(q: SimpleQueue, base: nat, a: Tid, v: Value, k: nat)
    requires OneBy(q.log, base, a, v, k)
    ensures Sent(q.(pending := q.pending - {k}), base, a, v)
  {
    var q' := q.(pending := q.pending - {k});
    assert OneBy(q'.log, base, a, v, k) && k !in q'.pending;
  }

  lemma SendWaitsOn(c: Channel, s: State, a: Tid, ch: Choice, base: nat, v: Value, e: bool)
    requires a < |s.pcs| && !s.pcs[a].Quiet? && !s.pcs[a].Sending? && !s.pcs[a].Receiving?
    requires SendSoFar(s.q, base, a, v, e, s.pcs[a])
    ensures var o := StepWait(s, a, ch, s.pcs[a]);
      SendOn(s.q, base, a, v, e || SendExcuse(c, s, a, ch), o.pc)
  {
    hide Without, Wakers, First, Rest, Ids, Sent, NoneBy;
  }

  lemma SendOwnStep(c: Channel, s: State, a: Tid, ch: Choice, base: nat, v: Value, e: bool)
    requires a < |s.pcs| && SendSoFar(s.q, base, a, v, e, s.pcs[a]) && base <= |s.q.log|
    ensures var o := StepOf(c, s, a, ch); SendOn(o.after.q, base, a, v, e || SendExcuse(c, s, a, ch), o.pc)
  {
    hide StepSend, StepRecv, StepWait, StepQuiet, SendOn, OneBy, NoneBy, IsFull;
    if s.pcs[a].Sending? {
      SendingOn(c, s, a, base, v, e, s.pcs[a].send, s.pcs[a].at);
    } else {
      WaitKeepsQueue(s, a, ch, s.pcs[a]);
      SendWaitsOn(c, s, a, ch, base, v, e);
    }
  }

  /** The two ways to begin a send. */
  predicate StartsSend(ch: Choice, v: Value) {
    ch == TrySend(v) || ch == StartSend(v)
  }

  lemma {:induction false} SendRuns(c: Channel, run: seq<State>, acts: seq<Act>, i: nat, j: nat, a: Tid, v: Value)
    requires IsRun(c, run, acts) && i < |acts| && Within(run, acts, i, j, a, acts[i].ch) && StartsSend(acts[i].ch, v)
    ensures |run[i].q.log| <= |run[j].q.log|
    ensures SendSoFar(run[j].q, |run[i].q.log|, a, v, SendExcused(c, run, acts, i, j, a), run[j].pcs[a])
    decreases j
  {
    hide Inv, Step, StepOf, SendSoFar, SendExcuse;
    RunStep(c, run, acts, j - 1);
    var x := acts[j - 1];
    QueueStep(c, run[j - 1], x.a, x.ch);
    if j == i + 1 {
      SendStarts(c, run[i], a, x.ch, v, SendExcused(c, run, acts, i, j, a));
    } else {
      SendRuns(c, run, acts, i, j - 1, a, v);
      var e, e' := SendExcused(c, run, acts, i, j - 1, a), SendExcused(c, run, acts, i, j, a);
      var base := |run[i].q.log|;
      if x.a == a {
        SendOwnStep(c, run[j - 1], a, x.ch, base, v, e);
        ExcuseKept(run[j].q, base, a, v, e || SendExcuse(c, run[j - 1], a, x.ch), e', run[j].pcs[a]);
      } else {
        SendStaysSo(run[j - 1].q, run[j].q, base, a, v, e, run[j].pcs[a]);
        ExcuseKept(run[j].q, base, a, v, e, e', run[j].pcs[a]);
      }
    }
  }

  lemma ExcuseKept(q: SimpleQueue, base: nat, a: Tid, v: Value, e: bool, e': bool, pc: Pc)
    requires SendSoFar(q, base, a, v, e, pc) && (e ==> e')
    ensures SendSoFar(q, base, a, v, e', pc)
  {
  }

  lemma SendStarts(c: Channel, s: State, a: Tid, ch: Choice, v: Value, e: bool)
    requires a < |s.pcs| && s.pcs[a] == Quiet && StartsSend(ch, v)
    ensures SendSoFar(s.q, |s.q.log|, a, v, e, StepOf(c, s, a, ch).pc) && StepOf(c, s, a, ch).after.q == s.q
  {
  }

  /** A send that is over has appended the value it was called with, once, and published it; or it has
      appended nothing, and during this very send the task found the channel closed, or did not wait and found
      it full, or dropped the future. */
  lemma SendReturns(c: Channel, run: seq<State>, acts: seq<Act>, i: nat, j: nat, a: Tid, v: Value)
    requires IsRun(c, run, acts) && i < |acts| && Returns(run, acts, i, j, a, acts[i].ch) && StartsSend(acts[i].ch, v)
    ensures var q, base := run[j + 1].q, |run[i].q.log|;
      Sent(q, base, a, v) || (NoneBy(q.log, base, a) && SendExcused(c, run, acts, i, j + 1, a))
  {
    hide Inv, Step, StepOf, SendSoFar, SendExcuse, Sent, NoneBy;
    RunStep(c, run, acts, j);
    SendRuns(c, run, acts, i, j, a, v);
    SendOwnStep(c, run[j], a, acts[j].ch, |run[i].q.log|, v, SendExcused(c, run, acts, i, j, a));
  }

  // ---- Receives ---------------------------------------------------------------------------------

  /** How far the head has been moved on by task `a`'s own steps, from state `i` to state `j`. */
  function TakenBy(run: seq<State>, acts: seq<Act>, a: Tid, i: nat, j: nat): int
    requires i <= j < |run| && j <= |acts|
    decreases j
  {
    if i == j then 0
    else TakenBy(run, acts, a, i, j - 1) + if acts[j - 1].a == a then run[j].q.head - run[j - 1].q.head else 0
  }

  /** The three ways to begin a receive, and how many values each may take. */
  function ReceiveLimit(ch: Choice): nat {
    match ch
    case TryRecv => 1
    case StartRecv => 1
    case RecvMany(limit) => limit
    case _ => 0
  }

  predicate StartsReceive(ch: Choice) {
    ch.TryRecv? || ch.StartRecv? || ch.RecvMany?
  }

  /** Why a receive may end without a value: it is about to report the channel closed, it does not wait and
      finds the channel open and empty-handed, it is a batch and finds nothing, or its future is dropped. */
  predicate RecvExcuse(s: State, a: Tid, ch: Choice)
    requires a < |s.pcs|
  {
    match s.pcs[a]
    case Verdict(_, _) => true
    case Receiving(RecvOnce, IsClosed) => !s.closed
    case Receiving(RecvBatch(_), Pop) => Takes(s, a, ch) == 0
    case RecvParked(_, _) => ch.Drop?
    case _ => false
  }

  ghost predicate RecvExcused(run: seq<State>, acts: seq<Act>, i: nat, j: nat, a: Tid)
    requires i < j < |run| && j <= |acts|
  {
    exists k :: i < k < j && acts[k].a == a && a < |run[k].pcs| && RecvExcuse(run[k], a, acts[k].ch)
  }

  /** The kind of attempt belongs to the operation it is part of. */
  predicate AttemptOf(call: Choice, recv: RecvTry) {
    match recv
    case RecvOnce => call.TryRecv?
    case RecvBatch(limit) => call == RecvMany(limit)
    case _ => call.StartRecv?
  }

  predicate TookOrExcused(call: Choice, taken: int, excused: bool) {
    1 <= taken <= ReceiveLimit(call) || (taken == 0 && excused)
  }

  /** What a receive has done so far, at each of its program points. */
  predicate RecvSoFar(call: Choice, taken: int, excused: bool, pc: Pc) {
    match pc
    case Receiving(recv, at) =>
      AttemptOf(call, recv) &&
      (match at
       case Sampling(n) => taken == n && 1 <= taken <= ReceiveLimit(call)
       case Notifying(_) => 1 <= taken <= ReceiveLimit(call)
       case Pop => taken == 0
       case _ => taken == 0 && !recv.RecvBatch?)
    case RegisterReceiver => call.StartRecv? && taken == 0
    case Snapshot(_) => call.StartRecv? && taken == 0
    case RecvParked(_, _) => call.StartRecv? && taken == 0
    case ResumeRecv(_) => call.StartRecv? && taken == 0
    case Verdict(_, _) => taken == 0
    case Waking(_, ThenTaken(_)) => 1 <= taken <= ReceiveLimit(call)
    case Waking(_, ThenDone) => TookOrExcused(call, taken, excused)
    case Leave(side, _, _) => side == Receivers && TookOrExcused(call, taken, excused)
    case Forward(side) => side == Receivers && TookOrExcused(call, taken, excused)
    case _ => false
  }

  predicate RecvOn(call: Choice, taken: int, excused: bool, now: Pc) {
    if now != Quiet then RecvSoFar(call, taken, excused, now) else TookOrExcused(call, taken, excused)
  }

  lemma ReceivingOn(c: Channel, s: State, a: Tid, ch: Choice, call: Choice, taken: int, e: bool, recv: RecvTry,
                    take: RecvPc)
    requires a < |s.pcs| && s.pcs[a] == Receiving(recv, take) && RecvSoFar(call, taken, e, s.pcs[a])
    ensures RecvOn(call, taken + Takes(s, a, ch), e || RecvExcuse(s, a, ch),
                   StepRecv(c, s, a, ch, recv, take).pc)
  {
    hide Rest, First, Wakers;
    match take
    case Pop => if ch.Ready? && CanTake(s.q, recv, ch.n) { assert ch.n <= ReceiveLimit(call); }
    case IsClosed => if s.closed {}
    case VerdictTail(h) => if h >= |s.q.log| {}
    case Retry => if recv.RecvAgain? && ch.Yield? {}
    case _ =>
  }

  lemma RecvWaitsOn(s: State, a: Tid, ch: Choice, call: Choice, taken: int, e: bool)
    requires a < |s.pcs| && !s.pcs[a].Quiet? && !s.pcs[a].Sending? && !s.pcs[a].Receiving?
    requires RecvSoFar(call, taken, e, s.pcs[a])
    ensures RecvOn(call, taken, e || RecvExcuse(s, a, ch), StepWait(s, a, ch, s.pcs[a]).pc)
  {
    hide Without, Wakers, First, Rest, Ids;
  }

  lemma RecvOwnStep(c: Channel, s: State, a: Tid, ch: Choice, call: Choice, taken: int, e: bool)
    requires a < |s.pcs| && RecvSoFar(call, taken, e, s.pcs[a])
    ensures RecvOn(call, taken + Takes(s, a, ch), e || RecvExcuse(s, a, ch), StepOf(c, s, a, ch).pc)
  {
    hide StepSend, StepRecv, StepWait, StepQuiet, RecvOn, CanTake;
    if s.pcs[a].Receiving? {
      ReceivingOn(c, s, a, ch, call, taken, e, s.pcs[a].recv, s.pcs[a].take);
    } else {
      RecvWaitsOn(s, a, ch, call, taken, e);
    }
  }

  lemma {:induction false} RecvRuns(c: Channel, run: seq<State>, acts: seq<Act>, i: nat, j: nat, a: Tid)
    requires IsRun(c, run, acts) && i < |acts| && Within(run, acts, i, j, a, acts[i].ch) && StartsReceive(acts[i].ch)
    ensures RecvSoFar(acts[i].ch, TakenBy(run, acts, a, i, j), RecvExcused(run, acts, i, j, a), run[j].pcs[a])
    decreases j
  {
    hide Inv, Step, StepOf, RecvSoFar, RecvExcuse;
    RunStep(c, run, acts, j - 1);
    var x, call := acts[j - 1], acts[i].ch;
    QueueStep(c, run[j - 1], x.a, x.ch);
    if j == i + 1 {
      RecvStarts(c, run[i], a, call, RecvExcused(run, acts, i, j, a));
    } else {
      RecvRuns(c, run, acts, i, j - 1, a);
      var e, e' := RecvExcused(run, acts, i, j - 1, a), RecvExcused(run, acts, i, j, a);
      var taken := TakenBy(run, acts, a, i, j - 1);
      if x.a == a {
        RecvOwnStep(c, run[j - 1], a, x.ch, call, taken, e);
        RecvExcuseKept(call, taken + Takes(run[j - 1], a, x.ch), e || RecvExcuse(run[j - 1], a, x.ch), e',
                       run[j].pcs[a]);
      } else {
        RecvExcuseKept(call, taken, e, e', run[j].pcs[a]);
      }
    }
  }

  lemma RecvExcuseKept(call: Choice, taken: int, e: bool, e': bool, pc: Pc)
    requires RecvSoFar(call, taken, e, pc) && (e ==> e')
    ensures RecvSoFar(call, taken, e', pc)
  {
  }

  /** Who may receive does: any task, or the one that has the exclusive receiver. */
  lemma RecvStarts(c: Channel, s: State, a: Tid, ch: Choice, e: bool)
    requires a < |s.pcs| && s.pcs[a] == Quiet && StartsReceive(ch)
    ensures Takes(s, a, ch) == 0
    ensures var may := if ch.RecvMany? then c.solo == Some(a) && ch.limit > 0 else MayReceive(c, a);
      var now := StepOf(c, s, a, ch).pc;
      if may then now != Quiet && RecvSoFar(ch, 0, e, now) else now == Quiet
  {
  }

  /** A receive that is over has moved the head over at least one value and at most as many as it may take:
      one, or the limit of a batch.  Or it has taken nothing, and during this very receive the task was about
      to report the channel closed, or did not wait and found the channel open with nothing ready, or was a
      batch and found nothing ready, or dropped the future. */
  lemma RecvReturns(c: Channel, run: seq<State>, acts: seq<Act>, i: nat, j: nat, a: Tid)
    requires IsRun(c, run, acts) && i < |acts| && Returns(run, acts, i, j, a, acts[i].ch) && StartsReceive(acts[i].ch)
    ensures var taken := TakenBy(run, acts, a, i, j + 1);
      || 1 <= taken <= ReceiveLimit(acts[i].ch)
      || (taken == 0 && RecvExcused(run, acts, i, j + 1, a))
  {
    hide Inv, Step, StepOf, RecvSoFar, RecvExcuse;
    RunStep(c, run, acts, j);
    QueueStep(c, run[j], acts[j].a, acts[j].ch);
    RecvRuns(c, run, acts, i, j, a);
    RecvOwnStep(c, run[j], a, acts[j].ch, acts[i].ch, TakenBy(run, acts, a, i, j), RecvExcused(run, acts, i, j, a));
  }
}
