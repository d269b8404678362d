/**
  The channel: futures, waiter lists, wake-ups and closing, over the simple queue.

  Tasks are numbered; a task runs one operation at a time, and a pending future is polled or
  dropped by its task.  A number stands for a strand of operations and not for a thread: whoever
  has the exclusive receiver, its receives are one strand, and what else its holder does is another.
  Every atomic operation and every lock-protected section is one step.
  Waking a task sets a flag that its next poll clears; a task may also be polled without it.

  A receive attempt may find nothing at any time: the value at the head may still be being
  written, or another receive may be in a block transition.
*/
module ChannelModel {
  import opened Basics
  import opened SimpleQueues
  import opened Waiters

  /** `solo` is the exclusive receiver's task, if the receiver is the exclusive one. */
  datatype Channel = Channel(capacity: Option<nat>, solo: Option<Tid>)

  datatype Side = Senders | Receivers

  /** Which attempt of a send this is: try_send, or the first or the second of one poll. */
  datatype SendTry =
    | SendOnce
    | SendFirst
    | SendAgain(id: Id)

  /** Which attempt of a receive this is; the second one of a poll knows its snapshot of the tail.
      A batch takes up to `limit` values and does not wait. */
  datatype RecvTry =
    | RecvOnce
    | RecvFirst
    | RecvAgain(id: Id, seen: nat)
    | RecvBatch(limit: nat)

  datatype SendPc =
    | IsOpen                           // is the channel open?
    | Claim
    | Sample(k: nat)                   // position k is claimed: is a receiver waiting?
    | Write(k: nat, wake: bool)
    | Notify(k: nat)

  datatype RecvPc =
    | Pop
    | Sampling(n: nat)                 // n values are taken: are senders waiting?
    | Notifying(n: nat)
    | IsClosed                         // nothing was there: is the channel closed?
    | VerdictHead                      // closed: is everything taken?
    | VerdictTail(h: nat)
    | Below                            // open: is everything below the snapshot taken?
    | Retry                            // no: poll again a few times, then yield

  /** What follows once everyone in a list of wake-ups is woken. */
  datatype Then =
    | ThenSent(sent: SendTry)
    | ThenTaken(taken: RecvTry)
    | ThenDone
    | ThenDrainSenders

  datatype Pc =
    | Quiet                                       // no operation
    | Sending(v: Value, send: SendTry, at: SendPc)
    | RegisterSender(v: Value)
    | SendParked(v: Value, id: Id)
    | ResumeSend(v: Value, id: Id)                // a poll gives up its old registration
    | Receiving(recv: RecvTry, take: RecvPc)
    | RegisterReceiver
    | Snapshot(id: Id)                            // registered, reads the tail
    | RecvParked(id: Id, seen: nat)
    | ResumeRecv(id: Id)
    | Verdict(read: nat, reg: Option<Id>)         // reports Closed, having read this tail
    | Leave(side: Side, id: Id, forward: bool)    // a finished or dropped future unregisters
    | Forward(side: Side)
    | Waking(ws: seq<Tid>, follow: Then)
    | DrainReceivers                              // the close that found the channel open
    | DrainSenders

  /** What a task does next where it has a choice. */
  datatype Choice =
    | Continue
    | TrySend(v: Value)
    | StartSend(v: Value)
    | TryRecv
    | StartRecv
    | RecvMany(limit: nat)
    | Close
    | Poll
    | Drop
    | Ready(n: nat)                               // the attempt finds n values
    | Yield

  datatype State = State(
    q: SimpleQueue,
    closed: bool,
    senders: seq<Entry>,
    receivers: seq<Entry>,
    nextId: Id,
    woken: set<Tid>,
    pcs: seq<Pc>,
    // history
    quiet: set<nat>,       // claims whose producer saw no waiting receiver
    told: set<nat>,        // claims whose producer has notified a receiver
    closer: Option<Tid>,   // who closed the channel
    closedAt: nat,         // claims made before it was closed
    drained: bool,         // the closing has emptied the receivers' list
    dismissed: bool)       // and the senders' list

  predicate Initial(c: Channel, s: State) {
    && s == State(SimpleQueue(0, [], {}), false, [], [], 1, {}, s.pcs, {}, {}, None, 0, false, false)
    && forall a :: 0 <= a < |s.pcs| ==> s.pcs[a] == Quiet
  }

  datatype Outcome = Outcome(after: State, pc: Pc)

  function Goto(s: State, a: Tid, pc: Pc): State {
    if a < |s.pcs| then s.(pcs := s.pcs[a := pc]) else s
  }

  predicate MayReceive(c: Channel, a: Tid) {
    c.solo.None? || c.solo.value == a
  }

  predicate IsFull(c: Channel, q: SimpleQueue) {
    c.capacity.Some? && |q.log| >= q.head + c.capacity.value
  }

  /** `n` values at the head are published, as many as the attempt may take. */
  predicate CanTake(q: SimpleQueue, recv: RecvTry, n: nat) {
    && 0 < n <= (if recv.RecvBatch? then recv.limit else 1) && q.head + n <= |q.log|
    && forall k :: q.head <= k < q.head + n ==> k !in q.pending
  }

  function StepQuiet(c: Channel, s: State, a: Tid, ch: Choice): Outcome {
    match ch
    case TrySend(v) => Outcome(s, Sending(v, SendOnce, IsOpen))
    case StartSend(v) => Outcome(s.(woken := s.woken - {a}), Sending(v, SendFirst, IsOpen))
    case TryRecv => if MayReceive(c, a) then Outcome(s, Receiving(RecvOnce, Pop)) else Outcome(s, Quiet)
    case StartRecv =>
      if MayReceive(c, a) then Outcome(s.(woken := s.woken - {a}), Receiving(RecvFirst, Pop)) else Outcome(s, Quiet)
    case RecvMany(limit) =>
      if c.solo == Some(a) && limit > 0 then Outcome(s, Receiving(RecvBatch(limit), Pop)) else Outcome(s, Quiet)
    case Close =>
      if s.closed then Outcome(s, Quiet)
      else Outcome(s.(closed := true, closer := Some(a), closedAt := |s.q.log|), DrainReceivers)
    case _ => Outcome(s, Quiet)
  }

  // ---- Sending ----------------------------------------------------------------------------------

  /** A successful send ends; one that registered for it gives up its registration. */
  function Sent(send: SendTry): Pc {
    match send
    case SendAgain(id) => Leave(Senders, id, true)
    case _ => Quiet
  }

  function OpenStep(s: State, v: Value, send: SendTry): Outcome {
    if !s.closed then Outcome(s, Sending(v, send, Claim))
    else if send.SendAgain? then Outcome(s, Leave(Senders, send.id, false))
    else Outcome(s, Quiet)
  }

  function FullStep(s: State, v: Value, send: SendTry): Outcome {
    match send
    case SendOnce => Outcome(s, Quiet)
    case SendFirst => Outcome(s, RegisterSender(v))
    case SendAgain(id) => Outcome(s, SendParked(v, id))
  }

  function Pushed(q: SimpleQueue, a: Tid, v: Value): SimpleQueue {
    q.(log := q.log + [Claimed(a, v)], pending := q.pending + {|q.log|})
  }

  function ClaimStep(s: State, a: Tid, v: Value, send: SendTry): Outcome {
    Outcome(s.(q := Pushed(s.q, a, v)), Sending(v, send, Sample(|s.q.log|)))
  }

  function SampleStep(s: State, v: Value, send: SendTry, k: nat): Outcome {
    if |s.receivers| != 0 then Outcome(s, Sending(v, send, Write(k, true)))
    else Outcome(s.(quiet := s.quiet + {k}), Sending(v, send, Write(k, false)))
  }

  function WriteStep(s: State, v: Value, send: SendTry, k: nat, wake: bool): Outcome {
    Outcome(s.(q := s.q.(pending := s.q.pending - {k})), if wake then Sending(v, send, Notify(k)) else Sent(send))
  }

  function NotifyStep(s: State, send: SendTry, k: nat): Outcome {
    Outcome(s.(receivers := Rest(s.receivers, 1), told := s.told + {k}),
            Waking(Wakers(First(s.receivers, 1)), ThenSent(send)))
  }

  function StepSend(c: Channel, s: State, a: Tid, v: Value, send: SendTry, at: SendPc): Outcome {
    match at
    case IsOpen => OpenStep(s, v, send)
    case Claim => if IsFull(c, s.q) then FullStep(s, v, send) else ClaimStep(s, a, v, send)
    case Sample(k) => SampleStep(s, v, send, k)
    case Write(k, wake) => WriteStep(s, v, send, k, wake)
    case Notify(k) => NotifyStep(s, send, k)
  }

  // ---- Receiving --------------------------------------------------------------------------------

  /** A successful receive ends. */
  function Received(recv: RecvTry): Pc {
    match recv
    case RecvAgain(id, _) => Leave(Receivers, id, true)
    case _ => Quiet
  }

  function PopStep(s: State, ch: Choice, recv: RecvTry): Outcome {
    if ch.Ready? && CanTake(s.q, recv, ch.n) then
      Outcome(s.(q := s.q.(head := s.q.head + ch.n)), Receiving(recv, Sampling(ch.n)))
    else Outcome(s, if recv.RecvBatch? then Quiet else Receiving(recv, IsClosed))
  }

  function SamplingStep(c: Channel, s: State, recv: RecvTry, n: nat): Outcome {
    var m := if c.capacity.None? then 0 else if n <= |s.senders| then n else |s.senders|;
    Outcome(s, if m == 0 then Received(recv) else Receiving(recv, Notifying(m)))
  }

  function NotifyingStep(s: State, recv: RecvTry, n: nat): Outcome {
    Outcome(s.(senders := Rest(s.senders, n)), Waking(Wakers(First(s.senders, n)), ThenTaken(recv)))
  }

  function IsClosedStep(s: State, recv: RecvTry): Outcome {
    if s.closed then Outcome(s, Receiving(recv, VerdictHead))
    else
      match recv
      case RecvFirst => Outcome(s, RegisterReceiver)
      case RecvAgain(_, _) => Outcome(s, Receiving(recv, Below))
      case _ => Outcome(s, Quiet)
  }

  function VerdictStep(s: State, recv: RecvTry, h: nat): Outcome {
    if h >= |s.q.log| then Outcome(s, Verdict(|s.q.log|, if recv.RecvAgain? then Some(recv.id) else None))
    else
      match recv
      case RecvFirst => Outcome(s, RegisterReceiver)
      case RecvAgain(_, _) => Outcome(s, Receiving(recv, Retry))
      case _ => Outcome(s, Receiving(recv, Pop))
  }

  function BelowStep(s: State, recv: RecvTry): Outcome {
    if recv.RecvAgain? && s.q.head >= recv.seen then Outcome(s, RecvParked(recv.id, recv.seen))
    else Outcome(s, Receiving(recv, Retry))
  }

  function RetryStep(s: State, a: Tid, ch: Choice, recv: RecvTry): Outcome {
    if recv.RecvAgain? && ch.Yield? then Outcome(s.(woken := s.woken + {a}), RecvParked(recv.id, recv.seen))
    else Outcome(s, Receiving(recv, Pop))
  }

  function StepRecv(c: Channel, s: State, a: Tid, ch: Choice, recv: RecvTry, take: RecvPc): Outcome {
    match take
    case Pop => PopStep(s, ch, recv)
    case Sampling(n) => SamplingStep(c, s, recv, n)
    case Notifying(n) => NotifyingStep(s, recv, n)
    case IsClosed => IsClosedStep(s, recv)
    case VerdictHead => Outcome(s, Receiving(recv, VerdictTail(s.q.head)))
    case VerdictTail(h) => VerdictStep(s, recv, h)
    case Below => BelowStep(s, recv)
    case Retry => RetryStep(s, a, ch, recv)
  }

  // ---- Registering, parking and leaving ---------------------------------------------------------

  function Next(follow: Then): Pc {
    match follow
    case ThenSent(send) => Sent(send)
    case ThenTaken(recv) => Received(recv)
    case ThenDone => Quiet
    case ThenDrainSenders => DrainSenders
  }

  function RegisterSenderStep(s: State, a: Tid, v: Value): Outcome {
    Outcome(s.(senders := s.senders + [Entry(s.nextId, a)], nextId := s.nextId + 1),
            Sending(v, SendAgain(s.nextId), IsOpen))
  }

  function RegisterReceiverStep(s: State, a: Tid): Outcome {
    Outcome(s.(receivers := s.receivers + [Entry(s.nextId, a)], nextId := s.nextId + 1), Snapshot(s.nextId))
  }

  /** A parked future is polled, dropped or left alone. */
  function ParkedStep(s: State, a: Tid, ch: Choice, side: Side, id: Id, stay: Pc, resume: Pc): Outcome {
    if ch.Poll? then Outcome(s.(woken := s.woken - {a}), resume)
    else if ch.Drop? then Outcome(s, Leave(side, id, true))
    else Outcome(s, stay)
  }

  function WithoutId(s: State, side: Side, id: Id): State {
    match side
    case Senders => s.(senders := Without(s.senders, id))
    case Receivers => s.(receivers := Without(s.receivers, id))
  }

  function ListOf(s: State, side: Side): seq<Entry> {
    match side
    case Senders => s.senders
    case Receivers => s.receivers
  }

  function LeaveStep(s: State, side: Side, id: Id, forward: bool): Outcome {
    if id in Ids(ListOf(s, side)) then Outcome(WithoutId(s, side, id), Quiet)
    else Outcome(s, if forward then Forward(side) else Quiet)
  }

  /** The longest waiting entry is notified. */
  function ForwardStep(s: State, side: Side): Outcome {
    Outcome(if side.Senders? then s.(senders := Rest(s.senders, 1)) else s.(receivers := Rest(s.receivers, 1)),
            Waking(Wakers(First(ListOf(s, side), 1)), ThenDone))
  }

  function WakingStep(s: State, ws: seq<Tid>, follow: Then): Outcome {
    if |ws| == 0 then Outcome(s, Next(follow))
    else Outcome(s.(woken := s.woken + {ws[0]}), Waking(ws[1..], follow))
  }

  function StepWait(s: State, a: Tid, ch: Choice, pc: Pc): Outcome {
    match pc
    case RegisterSender(v) => RegisterSenderStep(s, a, v)
    case SendParked(v, id) => ParkedStep(s, a, ch, Senders, id, pc, ResumeSend(v, id))
    case ResumeSend(v, id) => Outcome(WithoutId(s, Senders, id), Sending(v, SendFirst, IsOpen))
    case RegisterReceiver => RegisterReceiverStep(s, a)
    case Snapshot(id) => Outcome(s, Receiving(RecvAgain(id, |s.q.log|), Pop))
    case RecvParked(id, _) => ParkedStep(s, a, ch, Receivers, id, pc, ResumeRecv(id))
    case ResumeRecv(id) => Outcome(WithoutId(s, Receivers, id), Receiving(RecvFirst, Pop))
    case Verdict(_, reg) => Outcome(s, if reg.Some? then Leave(Receivers, reg.value, false) else Quiet)
    case Leave(side, id, forward) => LeaveStep(s, side, id, forward)
    case Forward(side) => ForwardStep(s, side)
    case Waking(ws, follow) => WakingStep(s, ws, follow)
    case DrainReceivers => Outcome(s.(receivers := [], drained := true), Waking(Wakers(s.receivers), ThenDrainSenders))
    case DrainSenders => Outcome(s.(senders := [], dismissed := true), Waking(Wakers(s.senders), ThenDone))
    case _ => Outcome(s, pc)
  }

  function StepOf(c: Channel, s: State, a: Tid, ch: Choice): Outcome
    requires a < |s.pcs|
  {
    match s.pcs[a]
    case Quiet => StepQuiet(c, s, a, ch)
    case Sending(v, send, at) => StepSend(c, s, a, v, send, at)
    case Receiving(recv, take) => StepRecv(c, s, a, ch, recv, take)
    case pc => StepWait(s, a, ch, pc)
  }

  function Step(c: Channel, s: State, a: Tid, ch: Choice): State
    requires a < |s.pcs|
  {
    var o := StepOf(c, s, a, ch);
    Goto(o.after, a, o.pc)
  }

  datatype Act = Act(a: Tid, ch: Choice)

  predicate IsRun(c: Channel, run: seq<State>, acts: seq<Act>) {
    && |run| == |acts| + 1 && Initial(c, run[0])
    && forall i :: 0 <= i < |acts| ==>
         acts[i].a < |run[i].pcs| && run[i + 1] == Step(c, run[i], acts[i].a, acts[i].ch)
  }
}
