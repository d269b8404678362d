/**
  The invariant of the channel.
*/
module ChannelInvariant {
  import opened Basics
  import opened SimpleQueues
  import opened Waiters
  import opened ChannelModel

  // ---- What a program point says about its task -------------------------------------------------

  /** The registration a future has not given up. */
  function RegOf(side: Side, pc: Pc): Option<Id> {
    match side
    case Senders =>
      (match pc
       case Sending(_, SendAgain(id), _) => Some(id)
       case SendParked(_, id) => Some(id)
       case ResumeSend(_, id) => Some(id)
       case Leave(Senders, id, _) => Some(id)
       case Waking(_, ThenSent(SendAgain(id))) => Some(id)
       case _ => None)
    case Receivers =>
      (match pc
       case Receiving(RecvAgain(id, _), _) => Some(id)
       case Snapshot(id) => Some(id)
       case RecvParked(id, _) => Some(id)
       case ResumeRecv(id) => Some(id)
       case Verdict(_, Some(id)) => Some(id)
       case Leave(Receivers, id, _) => Some(id)
       case Waking(_, ThenTaken(RecvAgain(id, _))) => Some(id)
       case _ => None)
  }

  /** The position a send has claimed and not yet dealt with. */
  function ClaimOf(pc: Pc): Option<nat> {
    match pc
    case Sending(_, _, Sample(k)) => Some(k)
    case Sending(_, _, Write(k, _)) => Some(k)
    case Sending(_, _, Notify(k)) => Some(k)
    case _ => None
  }

  predicate IsWriting(pc: Pc) {
    pc.Sending? && (pc.at.Sample? || pc.at.Write?)
  }

  /** A receive that may still go to sleep: its registration and its snapshot of the tail. */
  datatype Ear = Ear(id: Id, seen: nat)

  function EarOf(pc: Pc): Option<Ear> {
    match pc
    case Receiving(RecvAgain(id, seen), _) => Some(Ear(id, seen))
    case RecvParked(id, seen) => Some(Ear(id, seen))
    case _ => None
  }

  predicate IsReceiver(pc: Pc) {
    || pc.Receiving? || pc.RegisterReceiver? || RegOf(Receivers, pc).Some?
    || (pc.Waking? && pc.follow.ThenTaken?)
  }

  /** The registration of a future that may still go to sleep under it. */
  function Expects(side: Side, pc: Pc): Option<Id> {
    match side
    case Senders =>
      (match pc
       case Sending(_, SendAgain(id), _) => Some(id)
       case SendParked(_, id) => Some(id)
       case _ => None)
    case Receivers =>
      (match pc
       case Receiving(RecvAgain(id, _), _) => Some(id)
       case Snapshot(id) => Some(id)
       case RecvParked(id, _) => Some(id)
       case _ => None)
  }

  // ---- The queue --------------------------------------------------------------------------------

  ghost predicate QueueOk(c: Channel, q: SimpleQueue) {
    && q.head <= |q.log| && (forall k :: k in q.pending ==> k < |q.log|)
    && (c.capacity.Some? ==> |q.log| <= q.head + c.capacity.value)
  }

  /** Every claim is its task's; one that is over was announced to the receivers, or its producer
      saw none waiting. */
  ghost predicate ClaimsOk(q: SimpleQueue, quiet: set<nat>, told: set<nat>, pcs: seq<Pc>) {
    && (forall k :: k in quiet || k in told ==> k < |q.log|)
    && (forall a :: 0 <= a < |pcs| && ClaimOf(pcs[a]).Some? ==>
          ClaimOf(pcs[a]).value < |q.log| && q.log[ClaimOf(pcs[a]).value].who == a)
    && (forall a :: 0 <= a < |pcs| && IsWriting(pcs[a]) ==> pcs[a].at.k in q.pending)
    && (forall a :: 0 <= a < |pcs| && pcs[a].Sending? && pcs[a].at.Write? && !pcs[a].at.wake ==> pcs[a].at.k in quiet)
    && (forall k :: 0 <= k < |q.log| && k !in quiet && k !in told ==>
          q.log[k].who < |pcs| && ClaimOf(pcs[q.log[k].who]) == Some(k))
  }

  // ---- The lists --------------------------------------------------------------------------------

  /** Ids are distinct, and every entry is the registration its future still holds. */
  ghost predicate ListOk(side: Side, list: seq<Entry>, nextId: Id, pcs: seq<Pc>) {
    && DistinctIds(list)
    && (forall i :: 0 <= i < |list| ==>
          list[i].id < nextId && list[i].who < |pcs| && RegOf(side, pcs[list[i].who]) == Some(list[i].id))
    && (forall a :: 0 <= a < |pcs| && RegOf(side, pcs[a]).Some? ==> RegOf(side, pcs[a]).value < nextId)
    && (forall a, b :: 0 <= a < b < |pcs| && RegOf(side, pcs[a]).Some? ==> RegOf(side, pcs[a]) != RegOf(side, pcs[b]))
  }

  /** A wake-up on its way to task `a`. */
  ghost predicate Promised(pcs: seq<Pc>, a: Tid) {
    exists b :: 0 <= b < |pcs| && pcs[b].Waking? && a in pcs[b].ws
  }

  /** A future whose entry is gone has been woken, or is about to be. */
  ghost predicate PromiseOk(side: Side, list: seq<Entry>, woken: set<Tid>, pcs: seq<Pc>) {
    forall a :: 0 <= a < |pcs| && Expects(side, pcs[a]).Some? && Expects(side, pcs[a]).value !in Ids(list) ==>
      a in woken || Promised(pcs, a)
  }

  // ---- Receivers --------------------------------------------------------------------------------

  ghost predicate SoloOk(c: Channel, pcs: seq<Pc>) {
    && (c.solo.Some? ==> forall a :: 0 <= a < |pcs| && IsReceiver(pcs[a]) ==> c.solo == Some(a))
    && (forall a :: 0 <= a < |pcs| && pcs[a].Receiving? && pcs[a].recv.RecvBatch? ==> c.solo == Some(a))
  }

  /** While a receiver's entry is in the list, no producer that claimed after its snapshot has seen
      the list empty; with one receiver, none has notified anyone either. */
  ghost predicate HearsOk(c: Channel, q: SimpleQueue, receivers: seq<Entry>, quiet: set<nat>, told: set<nat>,
          pcs: seq<Pc>) {
    forall a :: 0 <= a < |pcs| && EarOf(pcs[a]).Some? ==>
      var e := EarOf(pcs[a]).value;
      && e.seen <= |q.log|
      && (e.id in Ids(receivers) ==>
            forall k :: e.seen <= k < |q.log| ==> k !in quiet && (c.solo.Some? ==> k !in told))
  }

  /** A receiver asleep has found everything below its snapshot taken, unless it woke itself, and
      has registered before the closing emptied the list. */
  ghost predicate AsleepOk(head: nat, receivers: seq<Entry>, woken: set<Tid>, drained: bool, pcs: seq<Pc>) {
    && (forall a :: 0 <= a < |pcs| && pcs[a].RecvParked? && a !in woken ==>
          pcs[a].seen <= head && (pcs[a].id in Ids(receivers) ==> !drained))
    && (forall a :: 0 <= a < |pcs| && pcs[a].Receiving? && pcs[a].take.Below? && pcs[a].recv.RecvAgain? ==>
          (pcs[a].recv.id in Ids(receivers) ==> !drained))
  }

  // ---- Closing ----------------------------------------------------------------------------------

  predicate KnowsClosed(pc: Pc) {
    || (pc.Receiving? && (pc.take.VerdictHead? || pc.take.VerdictTail?))
    || pc.Verdict? || (pc.Leave? && !pc.forward) || pc.DrainReceivers?
  }

  /** How far the close has come: 1 before it empties the receivers' list, 2 before the senders'. */
  function Stage(pc: Pc): nat {
    match pc
    case DrainReceivers => 1
    case Waking(_, ThenDrainSenders) => 2
    case DrainSenders => 2
    case _ => 0
  }

  ghost predicate ClosedOk(q: SimpleQueue, closed: bool, closer: Option<Tid>, closedAt: nat, drained: bool,
                           dismissed: bool, pcs: seq<Pc>) {
    && (closed ==> closedAt <= |q.log|) && (drained ==> closed) && (dismissed ==> drained)
    && (closed && !drained ==> closer.Some? && closer.value < |pcs| && Stage(pcs[closer.value]) == 1)
    && (drained && !dismissed ==> closer.Some? && closer.value < |pcs| && Stage(pcs[closer.value]) == 2)
    && (forall a :: 0 <= a < |pcs| && Stage(pcs[a]) == 1 ==> !drained && closer == Some(a))
    && (forall a :: 0 <= a < |pcs| && Stage(pcs[a]) == 2 ==> drained && !dismissed && closer == Some(a))
    && (forall a :: 0 <= a < |pcs| && KnowsClosed(pcs[a]) ==> closed)
    && (forall a :: 0 <= a < |pcs| && pcs[a].Receiving? && pcs[a].take.VerdictTail? ==> pcs[a].take.h <= q.head)
    && (forall a :: 0 <= a < |pcs| && pcs[a].Verdict? ==> closedAt <= pcs[a].read <= q.head)
  }

  /** A sender going to sleep registered before the closing emptied the list. */
  ghost predicate OpenOk(senders: seq<Entry>, dismissed: bool, pcs: seq<Pc>) {
    forall a :: 0 <= a < |pcs| && SleepyOf(pcs[a]).Some? && SleepyOf(pcs[a]).value in Ids(senders) ==> !dismissed
  }

  /** The registration of a sender that has found the channel open under it. */
  function SleepyOf(pc: Pc): Option<Id> {
    match pc
    case Sending(_, SendAgain(id), Claim) => Some(id)
    case SendParked(_, id) => Some(id)
    case _ => None
  }

  // ---- Outstanding wake-ups ---------------------------------------------------------------------

  /** The wake-ups a task accounts for on one side: a notification its registration has absorbed and it
      will use or pass on.  For the senders these stand for free slots, and so do a first attempt the
      task is about to make and slots it has freed and not yet announced. */
  function Weight(side: Side, pc: Pc, ids: set<Id>): nat {
    if RegOf(side, pc).Some? then (if RegOf(side, pc).value in ids then 0 else 1)
    else if pc.Forward? then (if pc.side == side then 1 else 0)
    else if side.Receivers? then 0
    else
      match pc
      case Sending(_, SendFirst, IsOpen) => 1
      case Sending(_, SendFirst, Claim) => 1
      case Receiving(_, Sampling(n)) => n
      case Receiving(_, Notifying(n)) => n
      case _ => 0
  }

  /** Notifications decided on and not yet made. */
  function Due(pc: Pc): nat {
    match pc
    case Receiving(_, Notifying(n)) => n
    case _ => 0
  }

  function Sum(side: Side, pcs: seq<Pc>, ids: set<Id>): nat {
    if |pcs| == 0 then 0 else Sum(side, pcs[..|pcs| - 1], ids) + Weight(side, pcs[|pcs| - 1], ids)
  }

  function Dues(pcs: seq<Pc>): nat {
    if |pcs| == 0 then 0 else Dues(pcs[..|pcs| - 1]) + Due(pcs[|pcs| - 1])
  }

  /** Some sender sleeps beyond the notifications that are due. */
  ghost predicate Stranded(senders: seq<Entry>, pcs: seq<Pc>) {
    exists i :: Dues(pcs) <= i < |senders| && senders[i].who < |pcs| && pcs[senders[i].who].SendParked?
  }

  /** As long as the channel is open, a sleeping sender has as many wake-ups on their way as there
      are free slots. */
  ghost predicate TokensOk(c: Channel, q: SimpleQueue, closed: bool, senders: seq<Entry>, pcs: seq<Pc>) {
    !closed && c.capacity.Some? && Stranded(senders, pcs) ==>
      c.capacity.value <= (|q.log| - q.head) + Sum(Senders, pcs, Ids(senders))
  }

  ghost predicate Inv(c: Channel, s: State) {
    && QueueOk(c, s.q)
    && ClaimsOk(s.q, s.quiet, s.told, s.pcs)
    && ListOk(Senders, s.senders, s.nextId, s.pcs)
    && ListOk(Receivers, s.receivers, s.nextId, s.pcs)
    && PromiseOk(Senders, s.senders, s.woken, s.pcs)
    && PromiseOk(Receivers, s.receivers, s.woken, s.pcs)
    && SoloOk(c, s.pcs)
    && HearsOk(c, s.q, s.receivers, s.quiet, s.told, s.pcs)
    && AsleepOk(s.q.head, s.receivers, s.woken, s.drained, s.pcs)
    && ClosedOk(s.q, s.closed, s.closer, s.closedAt, s.drained, s.dismissed, s.pcs)
    && OpenOk(s.senders, s.dismissed, s.pcs)
    && TokensOk(c, s.q, s.closed, s.senders, s.pcs)
  }
}
