/**
  Every step of the channel keeps the invariant.
*/
module ChannelSteps {
  import opened Basics
  import opened SimpleQueues
  import opened Waiters
  import opened ChannelModel
  import opened ChannelInvariant
  import opened ChannelMoves

  // ---- What a move must respect ------------------------------------------------------------------

  /** A task moves from `was` to `pc`: its claim goes on, or has been dealt with. */
  ghost predicate MoveClaimOk(s: State, was: Pc, pc: Pc) {
    && (ClaimOf(pc) == ClaimOf(was)
        || (ClaimOf(pc).None? && (ClaimOf(was).Some? ==> ClaimOf(was).value in s.quiet + s.told)))
    && (IsWriting(pc) ==> IsWriting(was))
    && (pc.Sending? && pc.at.Write? && !pc.at.wake ==> pc.at.k in s.quiet)
  }

  /** It keeps its registration, or gives up one that is not listed. */
  ghost predicate MoveRegOk(side: Side, list: seq<Entry>, was: Pc, pc: Pc) {
    || RegOf(side, pc) == RegOf(side, was)
    || (RegOf(side, pc).None? && (RegOf(side, was).Some? ==> RegOf(side, was).value !in Ids(list)))
  }

  /** Nobody else is forgotten: whoever was woken or about to be still is. */
  ghost predicate MoveWakeOk(s: State, woken': set<Tid>, a: Tid, was: Pc, pc: Pc) {
    && (forall w :: w in s.woken && w != a ==> w in woken')
    && (was.Waking? ==> forall w :: w in was.ws ==> w in woken' || (pc.Waking? && w in pc.ws))
  }

  /** A future that may go to sleep keeps the wake-up it has had. */
  ghost predicate MoveExpectOk(side: Side, s: State, woken': set<Tid>, a: Tid, was: Pc, pc: Pc) {
    Expects(side, pc).Some? ==> Expects(side, pc) == Expects(side, was) && (a in s.woken ==> a in woken')
  }

  /** A receive that may go to sleep keeps its snapshot, and sleeps only on what is drained. */
  ghost predicate MoveEarOk(s: State, q': SimpleQueue, woken': set<Tid>, a: Tid, was: Pc, pc: Pc) {
    && (EarOf(pc).Some? ==> EarOf(pc) == EarOf(was) || EarOf(pc).value.seen == |q'.log|)
    && (pc.RecvParked? && a !in woken' ==> pc.seen <= q'.head && (pc.id in Ids(s.receivers) ==> !s.drained))
    && (pc.Receiving? && pc.take.Below? && pc.recv.RecvAgain? ==> (pc.recv.id in Ids(s.receivers) ==> !s.drained))
  }

  ghost predicate MoveClosedOk(s: State, q': SimpleQueue, was: Pc, pc: Pc) {
    && Stage(pc) == Stage(was) && (KnowsClosed(pc) ==> s.closed)
    && (pc.Receiving? && pc.take.VerdictTail? ==> pc.take.h <= q'.head)
    && (pc.Verdict? ==> s.closedAt <= pc.read <= q'.head)
  }

  /** It counts for as many wake-ups as before, or the queue is full, or nobody waits beyond the
      notifications due. */
  ghost predicate MoveTokensOk(c: Channel, s: State, q': SimpleQueue, closed': bool, was: Pc, pc: Pc) {
    || closed' || c.capacity.None? || IsFull(c, q') || |s.senders| <= Due(pc)
    || (Due(pc) >= Due(was) && (pc.SendParked? ==> was.SendParked?)
        && |q'.log| - q'.head + Weight(Senders, pc, Ids(s.senders))
           >= |s.q.log| - s.q.head + Weight(Senders, was, Ids(s.senders)))
  }

  ghost predicate MoveSleepyOk(s: State, was: Pc, pc: Pc) {
    SleepyOf(pc).Some? ==> SleepyOf(pc) == SleepyOf(was) || !s.dismissed
  }

  /** The senders' list is left alone. */
  lemma SendersKept(c: Channel, s: State, q': SimpleQueue, closed': bool, nextId': Id, woken': set<Tid>, a: Tid, pc: Pc)
    requires Inv(c, s) && a < |s.pcs| && s.nextId <= nextId' && (s.closed ==> closed')
    requires MoveRegOk(Senders, s.senders, s.pcs[a], pc) && MoveWakeOk(s, woken', a, s.pcs[a], pc)
    requires MoveExpectOk(Senders, s, woken', a, s.pcs[a], pc)
    requires MoveSleepyOk(s, s.pcs[a], pc) && MoveTokensOk(c, s, q', closed', s.pcs[a], pc)
    ensures ListOk(Senders, s.senders, nextId', s.pcs[a := pc])
    ensures PromiseOk(Senders, s.senders, woken', s.pcs[a := pc])
    ensures OpenOk(s.senders, s.dismissed, s.pcs[a := pc])
    ensures TokensOk(c, q', closed', s.senders, s.pcs[a := pc])
  {
    hide QueueOk, ClaimsOk, ListOk, PromiseOk, SoloOk, HearsOk, AsleepOk, ClosedOk, OpenOk, TokensOk, RegOf, ClaimOf,
      EarOf, Expects, KnowsClosed, Weight, Due;
    ListsDistinct(c, s);
    ListMove(Senders, s.senders, s.senders, s.nextId, nextId', s.pcs, a, pc);
    PromiseMove(Senders, s.senders, s.senders, s.nextId, s.woken, woken', s.pcs, a, pc);
    OpenMove(s.senders, s.senders, s.dismissed, s.dismissed, s.pcs, a, pc);
    TokensMove(c, s.q, q', s.closed, closed', s.senders, s.pcs, a, pc);
  }

  /** The receivers' list is left alone. */
  lemma ReceiversKept(c: Channel, s: State, q': SimpleQueue, nextId': Id, woken': set<Tid>, a: Tid, pc: Pc)
    requires Inv(c, s) && a < |s.pcs| && s.nextId <= nextId' && s.q.head <= q'.head && |s.q.log| <= |q'.log|
    requires MoveRegOk(Receivers, s.receivers, s.pcs[a], pc) && MoveWakeOk(s, woken', a, s.pcs[a], pc)
    requires MoveExpectOk(Receivers, s, woken', a, s.pcs[a], pc) && MoveEarOk(s, q', woken', a, s.pcs[a], pc)
    ensures ListOk(Receivers, s.receivers, nextId', s.pcs[a := pc])
    ensures PromiseOk(Receivers, s.receivers, woken', s.pcs[a := pc])
    ensures HearsOk(c, q', s.receivers, s.quiet, s.told, s.pcs[a := pc])
    ensures AsleepOk(q'.head, s.receivers, woken', s.drained, s.pcs[a := pc])
  {
    hide QueueOk, ClaimsOk, ListOk, PromiseOk, SoloOk, HearsOk, AsleepOk, ClosedOk, OpenOk, TokensOk, RegOf, ClaimOf,
      EarOf, Expects, KnowsClosed, Weight, Due;
    ListsDistinct(c, s);
    ListMove(Receivers, s.receivers, s.receivers, s.nextId, nextId', s.pcs, a, pc);
    PromiseMove(Receivers, s.receivers, s.receivers, s.nextId, s.woken, woken', s.pcs, a, pc);
    HearsMove(c, s.q, q', s.receivers, s.receivers, s.quiet, s.quiet, s.told, s.told, s.pcs, a, pc);
    AsleepMove(s.q.head, q'.head, s.receivers, s.receivers, s.woken, woken', s.drained, s.drained, s.pcs, a, pc);
  }

  /** A move that touches neither list. */
  ghost predicate MoveOk(c: Channel, s: State, q': SimpleQueue, woken': set<Tid>, a: Tid, was: Pc, pc: Pc) {
    && QueueOk(c, q') && q'.log == s.q.log && s.q.head <= q'.head
    && (forall k :: k in s.q.pending ==> k in q'.pending || (ClaimOf(was) == Some(k) && !IsWriting(pc)))
    && MoveClaimOk(s, was, pc)
    && MoveRegOk(Senders, s.senders, was, pc) && MoveRegOk(Receivers, s.receivers, was, pc)
    && MoveWakeOk(s, woken', a, was, pc)
    && MoveExpectOk(Senders, s, woken', a, was, pc) && MoveExpectOk(Receivers, s, woken', a, was, pc)
    && (IsReceiver(pc) ==> IsReceiver(was) || MayReceive(c, a))
    && (pc.Receiving? && pc.recv.RecvBatch? ==> c.solo == Some(a) || (was.Receiving? && was.recv.RecvBatch?))
    && MoveEarOk(s, q', woken', a, was, pc) && MoveClosedOk(s, q', was, pc) && MoveSleepyOk(s, was, pc)
    && MoveTokensOk(c, s, q', s.closed, was, pc)
  }

  lemma PlainMove(c: Channel, s: State, q': SimpleQueue, woken': set<Tid>, a: Tid, pc: Pc)
    requires Inv(c, s) && a < |s.pcs| && MoveOk(c, s, q', woken', a, s.pcs[a], pc)
    ensures Inv(c, Goto(s.(q := q', woken := woken'), a, pc))
  {
    hide QueueOk, ClaimsOk, ListOk, PromiseOk, SoloOk, HearsOk, AsleepOk, ClosedOk, OpenOk, TokensOk, RegOf, ClaimOf,
      EarOf, Expects, KnowsClosed, Weight, Due, MoveWakeOk, MoveExpectOk, MoveEarOk, MoveTokensOk, MoveSleepyOk,
      MoveRegOk;
    ListsDistinct(c, s);
    ClaimsMove(s.q, q', s.quiet, s.quiet, s.told, s.told, s.pcs, a, pc);
    SendersKept(c, s, q', s.closed, s.nextId, woken', a, pc);
    ReceiversKept(c, s, q', s.nextId, woken', a, pc);
    SoloMove(c, s.pcs, a, pc);
    ClosedMove(s.q, q', s.closed, s.closer, s.closedAt, s.drained, s.dismissed, s.pcs, a, pc);
  }

  lemma ListsDistinct(c: Channel, s: State)
    requires Inv(c, s)
    ensures DistinctIds(s.senders) && DistinctIds(s.receivers)
    ensures forall k :: k in s.quiet || k in s.told ==> k < |s.q.log|
    ensures forall i :: 0 <= i < |s.senders| ==> s.senders[i].id in Ids(s.senders)
    ensures forall i :: 0 <= i < |s.receivers| ==> s.receivers[i].id in Ids(s.receivers)
  {
    hide QueueOk, PromiseOk, SoloOk, HearsOk, AsleepOk, ClosedOk, OpenOk, TokensOk, RegOf, ClaimOf, DistinctIds;
  }

  /** What a task knows at its program point. */
  lemma TaskFacts(c: Channel, s: State, a: Tid)
    requires Inv(c, s) && a < |s.pcs|
    ensures QueueOk(c, s.q) && (s.drained ==> s.closed) && (s.dismissed ==> s.closed)
    ensures KnowsClosed(s.pcs[a]) ==> s.closed
    ensures s.closed ==> s.closedAt <= |s.q.log|
    ensures s.pcs[a].Receiving? && s.pcs[a].take.VerdictTail? ==> s.pcs[a].take.h <= s.q.head
    ensures s.pcs[a].Sending? && s.pcs[a].at.Write? && !s.pcs[a].at.wake ==> s.pcs[a].at.k in s.quiet
    ensures s.pcs[a].Receiving? && s.pcs[a].take.Below? && s.pcs[a].recv.RecvAgain? ==>
      (s.pcs[a].recv.id in Ids(s.receivers) ==> !s.drained)
    ensures s.pcs[a].RecvParked? && a !in s.woken ==>
      s.pcs[a].seen <= s.q.head && (s.pcs[a].id in Ids(s.receivers) ==> !s.drained)
  {
    hide ListOk, PromiseOk, SoloOk, HearsOk, TokensOk, RegOf, ClaimOf, QueueOk;
  }

  lemma Same(s: State)
    ensures s.(q := s.q, woken := s.woken) == s
  {
  }

  lemma QuietStepInv(c: Channel, s: State, a: Tid, ch: Choice)
    requires Inv(c, s) && a < |s.pcs| && s.pcs[a] == Quiet
    ensures var o := StepQuiet(c, s, a, ch); Inv(c, Goto(o.after, a, o.pc))
  {
    hide Inv, Goto;
    if ch.Close? && !s.closed {
      CloseInv(c, s, a);
    } else if ch.StartSend? || (ch.StartRecv? && MayReceive(c, a)) {
      BeginPollInv(c, s, a, StepQuiet(c, s, a, ch).pc);
    } else {
      BeginInv(c, s, a, StepQuiet(c, s, a, ch).pc);
    }
  }

  /** A task begins an attempt, or does nothing. */
  lemma BeginInv(c: Channel, s: State, a: Tid, pc: Pc)
    requires Inv(c, s) && a < |s.pcs| && s.pcs[a] == Quiet
    requires
      || pc == Quiet
      || (pc.Sending? && pc.send == SendOnce && pc.at == IsOpen)
      || (pc == Receiving(RecvOnce, Pop) && MayReceive(c, a))
      || (pc.Receiving? && pc.recv.RecvBatch? && pc.take == Pop && c.solo == Some(a))
    ensures Inv(c, Goto(s, a, pc))
  {
    hide Inv;
    TaskFacts(c, s, a);
    Same(s);
    PlainMove(c, s, s.q, s.woken, a, pc);
  }

  /** A task begins to poll a new future. */
  lemma BeginPollInv(c: Channel, s: State, a: Tid, pc: Pc)
    requires Inv(c, s) && a < |s.pcs| && s.pcs[a] == Quiet
    requires
      || (pc.Sending? && pc.send == SendFirst && pc.at == IsOpen)
      || (pc == Receiving(RecvFirst, Pop) && MayReceive(c, a))
    ensures Inv(c, Goto(s.(woken := s.woken - {a}), a, pc))
  {
    hide Inv;
    TaskFacts(c, s, a);
    var s2 := s.(q := s.q, woken := s.woken - {a});
    PlainMove(c, s, s.q, s.woken - {a}, a, pc);
  }

  /** The close that finds the channel open. */
  lemma CloseInv(c: Channel, s: State, a: Tid)
    requires Inv(c, s) && a < |s.pcs| && s.pcs[a] == Quiet && !s.closed
    ensures Inv(c, Goto(s.(closed := true, closer := Some(a), closedAt := |s.q.log|), a, DrainReceivers))
  {
    hide QueueOk, ClaimsOk, ListOk, PromiseOk, SoloOk, HearsOk, AsleepOk, OpenOk, TokensOk;
    var pc := DrainReceivers;
    ListsDistinct(c, s);
    ClaimsMove(s.q, s.q, s.quiet, s.quiet, s.told, s.told, s.pcs, a, pc);
    SendersKept(c, s, s.q, true, s.nextId, s.woken, a, pc);
    ReceiversKept(c, s, s.q, s.nextId, s.woken, a, pc);
    SoloMove(c, s.pcs, a, pc);
  }

  // ---- Sending ----------------------------------------------------------------------------------

  lemma SendStepInv(c: Channel, s: State, a: Tid, v: Value, send: SendTry, at: SendPc)
    requires Inv(c, s) && a < |s.pcs| && s.pcs[a] == Sending(v, send, at)
    ensures var o := StepSend(c, s, a, v, send, at); Inv(c, Goto(o.after, a, o.pc))
  {
    hide Inv, FullStep, ClaimStep, SampleStep, WriteStep, NotifyStep, OpenStep;
    match at
    case IsOpen => OpenInv(c, s, a, v, send);
    case Claim => if IsFull(c, s.q) { FullInv(c, s, a, v, send); } else { ClaimInv(c, s, a, v, send); }
    case Sample(k) => SampleInv(c, s, a, v, send, k);
    case Write(k, wake) => WriteInv(c, s, a, v, send, k, wake);
    case Notify(k) => NotifyInv(c, s, a, v, send, k);
  }

  lemma OpenInv(c: Channel, s: State, a: Tid, v: Value, send: SendTry)
    requires Inv(c, s) && a < |s.pcs| && s.pcs[a] == Sending(v, send, IsOpen)
    ensures var o := OpenStep(s, v, send); Inv(c, Goto(o.after, a, o.pc))
  {
    hide Inv;
    TaskFacts(c, s, a);
    Same(s);
    if !s.closed { PlainMove(c, s, s.q, s.woken, a, Sending(v, send, Claim)); }
    else if send.SendAgain? { PlainMove(c, s, s.q, s.woken, a, Leave(Senders, send.id, false)); }
    else { PlainMove(c, s, s.q, s.woken, a, Quiet); }
  }

  lemma FullInv(c: Channel, s: State, a: Tid, v: Value, send: SendTry)
    requires Inv(c, s) && a < |s.pcs| && s.pcs[a] == Sending(v, send, Claim) && IsFull(c, s.q)
    ensures var o := FullStep(s, v, send); Inv(c, Goto(o.after, a, o.pc))
  {
    hide Inv;
    TaskFacts(c, s, a);
    Same(s);
    match send
    case SendOnce => PlainMove(c, s, s.q, s.woken, a, Quiet);
    case SendFirst => PlainMove(c, s, s.q, s.woken, a, RegisterSender(v));
    case SendAgain(id) => PlainMove(c, s, s.q, s.woken, a, SendParked(v, id));
  }

  lemma ClaimInv(c: Channel, s: State, a: Tid, v: Value, send: SendTry)
    requires Inv(c, s) && a < |s.pcs| && s.pcs[a] == Sending(v, send, Claim) && !IsFull(c, s.q)
    ensures var o := ClaimStep(s, a, v, send); Inv(c, Goto(o.after, a, o.pc))
  {
    hide QueueOk, ClaimsOk, ListOk, PromiseOk, SoloOk, HearsOk, AsleepOk, ClosedOk, OpenOk, TokensOk;
    var q', pc := Pushed(s.q, a, v), Sending(v, send, Sample(|s.q.log|));
    ListsDistinct(c, s);
    ClaimPushed(c, s, a, v, send);
    SendersKept(c, s, q', s.closed, s.nextId, s.woken, a, pc);
    ReceiversKept(c, s, q', s.nextId, s.woken, a, pc);
    SoloMove(c, s.pcs, a, pc);
    ClosedMove(s.q, q', s.closed, s.closer, s.closedAt, s.drained, s.dismissed, s.pcs, a, pc);
  }

  lemma ClaimPushed(c: Channel, s: State, a: Tid, v: Value, send: SendTry)
    requires QueueOk(c, s.q) && ClaimsOk(s.q, s.quiet, s.told, s.pcs)
    requires a < |s.pcs| && s.pcs[a] == Sending(v, send, Claim) && !IsFull(c, s.q)
    ensures QueueOk(c, Pushed(s.q, a, v))
    ensures ClaimsOk(Pushed(s.q, a, v), s.quiet, s.told, s.pcs[a := Sending(v, send, Sample(|s.q.log|))])
  {
  }

  lemma SampleInv(c: Channel, s: State, a: Tid, v: Value, send: SendTry, k: nat)
    requires Inv(c, s) && a < |s.pcs| && s.pcs[a] == Sending(v, send, Sample(k))
    ensures var o := SampleStep(s, v, send, k); Inv(c, Goto(o.after, a, o.pc))
  {
    hide Inv;
    TaskFacts(c, s, a);
    Same(s);
    if |s.receivers| != 0 { PlainMove(c, s, s.q, s.woken, a, Sending(v, send, Write(k, true))); }
    else { SeesNoneInv(c, s, a, v, send, k); }
  }

  /** A producer sees no receiver waiting: none hears of this claim. */
  lemma SeesNoneInv(c: Channel, s: State, a: Tid, v: Value, send: SendTry, k: nat)
    requires Inv(c, s) && a < |s.pcs| && s.pcs[a] == Sending(v, send, Sample(k)) && |s.receivers| == 0
    ensures Inv(c, Goto(s.(quiet := s.quiet + {k}), a, Sending(v, send, Write(k, false))))
  {
    hide QueueOk, ClaimsOk, ListOk, PromiseOk, SoloOk, HearsOk, AsleepOk, ClosedOk, OpenOk, TokensOk;
    var quiet', pc := s.quiet + {k}, Sending(v, send, Write(k, false));
    ListsDistinct(c, s);
    ClaimKnown(c, s, a, k);
    ClaimsMove(s.q, s.q, s.quiet, quiet', s.told, s.told, s.pcs, a, pc);
    SendersKept(c, s, s.q, s.closed, s.nextId, s.woken, a, pc);
    ListMove(Receivers, s.receivers, s.receivers, s.nextId, s.nextId, s.pcs, a, pc);
    PromiseMove(Receivers, s.receivers, s.receivers, s.nextId, s.woken, s.woken, s.pcs, a, pc);
    SoloMove(c, s.pcs, a, pc);
    HearsMove(c, s.q, s.q, s.receivers, s.receivers, s.quiet, quiet', s.told, s.told, s.pcs, a, pc);
    AsleepMove(s.q.head, s.q.head, s.receivers, s.receivers, s.woken, s.woken, s.drained, s.drained, s.pcs, a, pc);
    ClosedMove(s.q, s.q, s.closed, s.closer, s.closedAt, s.drained, s.dismissed, s.pcs, a, pc);
  }

  lemma ClaimKnown(c: Channel, s: State, a: Tid, k: nat)
    requires Inv(c, s) && a < |s.pcs| && ClaimOf(s.pcs[a]) == Some(k)
    ensures k < |s.q.log|
  {
    hide QueueOk, ListOk, PromiseOk, SoloOk, HearsOk, AsleepOk, ClosedOk, OpenOk, TokensOk, ClaimOf;
  }

  lemma WriteInv(c: Channel, s: State, a: Tid, v: Value, send: SendTry, k: nat, wake: bool)
    requires Inv(c, s) && a < |s.pcs| && s.pcs[a] == Sending(v, send, Write(k, wake))
    ensures var o := WriteStep(s, v, send, k, wake); Inv(c, Goto(o.after, a, o.pc))
  {
    hide Inv;
    TaskFacts(c, s, a);
    var q' := s.q.(pending := s.q.pending - {k});
    assert s.(q := q', woken := s.woken) == s.(q := q');
    if wake { PlainMove(c, s, q', s.woken, a, Sending(v, send, Notify(k))); }
    else { PlainMove(c, s, q', s.woken, a, Sent(send)); }
  }

  lemma NotifyInv(c: Channel, s: State, a: Tid, v: Value, send: SendTry, k: nat)
    requires Inv(c, s) && a < |s.pcs| && s.pcs[a] == Sending(v, send, Notify(k))
    ensures var o := NotifyStep(s, send, k); Inv(c, Goto(o.after, a, o.pc))
  {
    hide Inv;
    ClaimKnown(c, s, a, k);
    ReceiversPopInv(c, s, s.told + {k}, a, Waking(Wakers(First(s.receivers, 1)), ThenSent(send)));
  }

  /** The exclusive receiver has at most one entry. */
  lemma OneReceiver(c: Channel, s: State)
    requires Inv(c, s) && c.solo.Some?
    ensures |s.receivers| <= 1
  {
    hide Inv, RegOf;
    ListsDistinct(c, s);
    if |s.receivers| > 1 {
      SoloEntry(c, s, 0);
      SoloEntry(c, s, 1);
    }
  }

  lemma SoloEntry(c: Channel, s: State, i: nat)
    requires Inv(c, s) && c.solo.Some? && i < |s.receivers|
    ensures c.solo.value < |s.pcs| && RegOf(Receivers, s.pcs[c.solo.value]) == Some(s.receivers[i].id)
  {
    hide QueueOk, ClaimsOk, PromiseOk, HearsOk, AsleepOk, ClosedOk, OpenOk, TokensOk, RegOf, DistinctIds;
  }

  /** The longest waiting receiver is notified, by a producer or by a future passing it on. */
  lemma ReceiversPopInv(c: Channel, s: State, told': set<nat>, a: Tid, pc: Pc)
    requires Inv(c, s) && a < |s.pcs|
    requires (s.pcs[a] == Forward(Receivers) && told' == s.told
      && pc == Waking(Wakers(First(s.receivers, 1)), ThenDone))
      || (s.pcs[a].Sending? && s.pcs[a].at.Notify? && s.pcs[a].at.k < |s.q.log| && told' == s.told + {s.pcs[a].at.k}
          && pc == Waking(Wakers(First(s.receivers, 1)), ThenSent(s.pcs[a].send)))
    ensures Inv(c, Goto(s.(receivers := Rest(s.receivers, 1), told := told'), a, pc))
  {
    hide QueueOk, ClaimsOk, ListOk, PromiseOk, SoloOk, HearsOk, AsleepOk, ClosedOk, OpenOk, TokensOk;
    var receivers' := Rest(s.receivers, 1);
    ListsDistinct(c, s);
    RestIds(s.receivers, 1);
    Popped(s.receivers, 1);
    if c.solo.Some? { OneReceiver(c, s); }
    ClaimsMove(s.q, s.q, s.quiet, s.quiet, s.told, told', s.pcs, a, pc);
    SendersKept(c, s, s.q, s.closed, s.nextId, s.woken, a, pc);
    ListMove(Receivers, s.receivers, receivers', s.nextId, s.nextId, s.pcs, a, pc);
    PromiseMove(Receivers, s.receivers, receivers', s.nextId, s.woken, s.woken, s.pcs, a, pc);
    SoloMove(c, s.pcs, a, pc);
    HearsMove(c, s.q, s.q, s.receivers, receivers', s.quiet, s.quiet, s.told, told', s.pcs, a, pc);
    AsleepMove(s.q.head, s.q.head, s.receivers, receivers', s.woken, s.woken, s.drained, s.drained, s.pcs, a, pc);
    ClosedMove(s.q, s.q, s.closed, s.closer, s.closedAt, s.drained, s.dismissed, s.pcs, a, pc);
  }

  /** Whoever is taken off the front of the list is woken. */
  lemma Popped(list: seq<Entry>, n: nat)
    ensures forall i :: 0 <= i < |list| ==>
      list[i].id in Ids(Rest(list, n)) || list[i].who in Wakers(First(list, n))
    ensures forall i :: 0 <= i < |Rest(list, n)| ==> Rest(list, n)[i] in list
    ensures n >= |list| ==> Rest(list, n) == []
  {
    var m := if n <= |list| then n else |list|;
    forall i | 0 <= i < |list| ensures list[i].id in Ids(Rest(list, n)) || list[i].who in Wakers(First(list, n)) {
      if i < m {
        assert Wakers(First(list, n))[i] == list[i].who;
      } else {
        assert Rest(list, n)[i - m].id == list[i].id;
      }
    }
  }

  // ---- Receiving --------------------------------------------------------------------------------

  lemma RecvStepInv(c: Channel, s: State, a: Tid, ch: Choice, recv: RecvTry, take: RecvPc)
    requires Inv(c, s) && a < |s.pcs| && s.pcs[a] == Receiving(recv, take)
    ensures var o := StepRecv(c, s, a, ch, recv, take); Inv(c, Goto(o.after, a, o.pc))
  {
    hide Inv, PopStep, SamplingStep, NotifyingStep, IsClosedStep, VerdictStep, BelowStep, RetryStep;
    match take
    case Pop => PopInv(c, s, a, ch, recv);
    case Sampling(n) => SamplingInv(c, s, a, recv, n);
    case Notifying(n) =>
      SendersPopInv(c, s, a, n, Waking(Wakers(First(s.senders, n)), ThenTaken(recv)));
      NotifyingIs(s, recv, n);
    case IsClosed => IsClosedInv(c, s, a, recv);
    case VerdictHead => VerdictHeadInv(c, s, a, recv);
    case VerdictTail(h) => VerdictInv(c, s, a, recv, h);
    case Below => BelowInv(c, s, a, recv);
    case Retry => RetryInv(c, s, a, ch, recv);
  }

  lemma NotifyingIs(s: State, recv: RecvTry, n: nat)
    ensures NotifyingStep(s, recv, n) ==
      Outcome(s.(senders := Rest(s.senders, n)), Waking(Wakers(First(s.senders, n)), ThenTaken(recv)))
  {
  }

  lemma PopInv(c: Channel, s: State, a: Tid, ch: Choice, recv: RecvTry)
    requires Inv(c, s) && a < |s.pcs| && s.pcs[a] == Receiving(recv, Pop)
    ensures var o := PopStep(s, ch, recv); Inv(c, Goto(o.after, a, o.pc))
  {
    hide Inv;
    TaskFacts(c, s, a);
    Same(s);
    if ch.Ready? && CanTake(s.q, recv, ch.n) {
      var q' := s.q.(head := s.q.head + ch.n);
      assert s.(q := q', woken := s.woken) == s.(q := q');
      PlainMove(c, s, q', s.woken, a, Receiving(recv, Sampling(ch.n)));
    } else if recv.RecvBatch? {
      PlainMove(c, s, s.q, s.woken, a, Quiet);
    } else {
      PlainMove(c, s, s.q, s.woken, a, Receiving(recv, IsClosed));
    }
  }

  lemma SamplingInv(c: Channel, s: State, a: Tid, recv: RecvTry, n: nat)
    requires Inv(c, s) && a < |s.pcs| && s.pcs[a] == Receiving(recv, Sampling(n))
    ensures var o := SamplingStep(c, s, recv, n); Inv(c, Goto(o.after, a, o.pc))
  {
    hide Inv;
    TaskFacts(c, s, a);
    Same(s);
    var m := if c.capacity.None? then 0 else if n <= |s.senders| then n else |s.senders|;
    if m == 0 { PlainMove(c, s, s.q, s.woken, a, Received(recv)); }
    else { PlainMove(c, s, s.q, s.woken, a, Receiving(recv, Notifying(m))); }
  }

  lemma IsClosedInv(c: Channel, s: State, a: Tid, recv: RecvTry)
    requires Inv(c, s) && a < |s.pcs| && s.pcs[a] == Receiving(recv, IsClosed)
    ensures var o := IsClosedStep(s, recv); Inv(c, Goto(o.after, a, o.pc))
  {
    hide Inv;
    TaskFacts(c, s, a);
    Same(s);
    if s.closed { PlainMove(c, s, s.q, s.woken, a, Receiving(recv, VerdictHead)); }
    else {
      match recv
      case RecvFirst => PlainMove(c, s, s.q, s.woken, a, RegisterReceiver);
      case RecvAgain(_, _) => PlainMove(c, s, s.q, s.woken, a, Receiving(recv, Below));
      case _ => PlainMove(c, s, s.q, s.woken, a, Quiet);
    }
  }

  lemma VerdictHeadInv(c: Channel, s: State, a: Tid, recv: RecvTry)
    requires Inv(c, s) && a < |s.pcs| && s.pcs[a] == Receiving(recv, VerdictHead)
    ensures Inv(c, Goto(s, a, Receiving(recv, VerdictTail(s.q.head))))
  {
    hide Inv;
    TaskFacts(c, s, a);
    Same(s);
    PlainMove(c, s, s.q, s.woken, a, Receiving(recv, VerdictTail(s.q.head)));
  }

  lemma VerdictInv(c: Channel, s: State, a: Tid, recv: RecvTry, h: nat)
    requires Inv(c, s) && a < |s.pcs| && s.pcs[a] == Receiving(recv, VerdictTail(h))
    ensures var o := VerdictStep(s, recv, h); Inv(c, Goto(o.after, a, o.pc))
  {
    hide Inv;
    TaskFacts(c, s, a);
    Same(s);
    if h >= |s.q.log| {
      PlainMove(c, s, s.q, s.woken, a, Verdict(|s.q.log|, if recv.RecvAgain? then Some(recv.id) else None));
    } else {
      match recv
      case RecvFirst => PlainMove(c, s, s.q, s.woken, a, RegisterReceiver);
      case RecvAgain(_, _) => PlainMove(c, s, s.q, s.woken, a, Receiving(recv, Retry));
      case _ => PlainMove(c, s, s.q, s.woken, a, Receiving(recv, Pop));
    }
  }

  lemma BelowInv(c: Channel, s: State, a: Tid, recv: RecvTry)
    requires Inv(c, s) && a < |s.pcs| && s.pcs[a] == Receiving(recv, Below)
    ensures var o := BelowStep(s, recv); Inv(c, Goto(o.after, a, o.pc))
  {
    hide Inv;
    TaskFacts(c, s, a);
    Same(s);
    if recv.RecvAgain? && s.q.head >= recv.seen { PlainMove(c, s, s.q, s.woken, a, RecvParked(recv.id, recv.seen)); }
    else { PlainMove(c, s, s.q, s.woken, a, Receiving(recv, Retry)); }
  }

  lemma RetryInv(c: Channel, s: State, a: Tid, ch: Choice, recv: RecvTry)
    requires Inv(c, s) && a < |s.pcs| && s.pcs[a] == Receiving(recv, Retry)
    ensures var o := RetryStep(s, a, ch, recv); Inv(c, Goto(o.after, a, o.pc))
  {
    hide Inv;
    TaskFacts(c, s, a);
    Same(s);
    if recv.RecvAgain? && ch.Yield? {
      var woken' := s.woken + {a};
      assert s.(q := s.q, woken := woken') == s.(woken := woken');
      PlainMove(c, s, s.q, woken', a, RecvParked(recv.id, recv.seen));
    } else {
      PlainMove(c, s, s.q, s.woken, a, Receiving(recv, Pop));
    }
  }

  /** Senders are notified: as many as a receive has decided on, or one passed on. */
  lemma SendersPopInv(c: Channel, s: State, a: Tid, n: nat, pc: Pc)
    requires Inv(c, s) && a < |s.pcs|
    requires (s.pcs[a] == Forward(Senders) && n == 1 && pc == Waking(Wakers(First(s.senders, 1)), ThenDone))
      || (s.pcs[a].Receiving? && s.pcs[a].take == Notifying(n)
          && pc == Waking(Wakers(First(s.senders, n)), ThenTaken(s.pcs[a].recv)))
    ensures Inv(c, Goto(s.(senders := Rest(s.senders, n)), a, pc))
  {
    hide QueueOk, ClaimsOk, ListOk, PromiseOk, SoloOk, HearsOk, AsleepOk, ClosedOk, OpenOk, TokensOk;
    var senders' := Rest(s.senders, n);
    ListsDistinct(c, s);
    RestIds(s.senders, n);
    Popped(s.senders, n);
    ClaimsMove(s.q, s.q, s.quiet, s.quiet, s.told, s.told, s.pcs, a, pc);
    ListMove(Senders, s.senders, senders', s.nextId, s.nextId, s.pcs, a, pc);
    ReceiversKept(c, s, s.q, s.nextId, s.woken, a, pc);
    PromiseMove(Senders, s.senders, senders', s.nextId, s.woken, s.woken, s.pcs, a, pc);
    SoloMove(c, s.pcs, a, pc);
    ClosedMove(s.q, s.q, s.closed, s.closer, s.closedAt, s.drained, s.dismissed, s.pcs, a, pc);
    OpenMove(s.senders, senders', s.dismissed, s.dismissed, s.pcs, a, pc);
    TokensPop(c, s.q, s.closed, s.senders, s.nextId, s.pcs, a, n, pc);
  }

  // ---- Registering, parking and leaving ---------------------------------------------------------

  lemma WaitStepInv(c: Channel, s: State, a: Tid, ch: Choice)
    requires Inv(c, s) && a < |s.pcs| && !s.pcs[a].Quiet? && !s.pcs[a].Sending? && !s.pcs[a].Receiving?
    ensures var o := StepWait(s, a, ch, s.pcs[a]); Inv(c, Goto(o.after, a, o.pc))
  {
    hide Inv, RegisterSenderStep, RegisterReceiverStep, ParkedStep, WithoutId, LeaveStep, ForwardStep, WakingStep;
    match s.pcs[a]
    case RegisterSender(v) => RegisterSenderInv(c, s, a, v);
    case SendParked(v, id) => SendParkedInv(c, s, a, ch, v, id);
    case ResumeSend(v, id) => WithoutInv(c, s, a, Senders, id, Sending(v, SendFirst, IsOpen));
    case RegisterReceiver => RegisterReceiverInv(c, s, a);
    case Snapshot(id) => SnapshotInv(c, s, a, id);
    case RecvParked(id, seen) => RecvParkedInv(c, s, a, ch, id, seen);
    case ResumeRecv(id) => WithoutInv(c, s, a, Receivers, id, Receiving(RecvFirst, Pop));
    case Verdict(read, reg) => ReportInv(c, s, a, read, reg);
    case Leave(side, id, forward) => LeaveInv(c, s, a, side, id, forward);
    case Forward(side) => ForwardInv(c, s, a, side);
    case Waking(ws, follow) => WakingInv(c, s, a, ws, follow);
    case DrainReceivers => DrainReceiversInv(c, s, a);
    case DrainSenders => DrainSendersInv(c, s, a);
  }

  lemma SnapshotInv(c: Channel, s: State, a: Tid, id: Id)
    requires Inv(c, s) && a < |s.pcs| && s.pcs[a] == Snapshot(id)
    ensures Inv(c, Goto(s, a, Receiving(RecvAgain(id, |s.q.log|), Pop)))
  {
    hide Inv;
    TaskFacts(c, s, a);
    Same(s);
    PlainMove(c, s, s.q, s.woken, a, Receiving(RecvAgain(id, |s.q.log|), Pop));
  }

  lemma ReportInv(c: Channel, s: State, a: Tid, read: nat, reg: Option<Id>)
    requires Inv(c, s) && a < |s.pcs| && s.pcs[a] == Verdict(read, reg)
    ensures Inv(c, Goto(s, a, if reg.Some? then Leave(Receivers, reg.value, false) else Quiet))
  {
    hide Inv;
    TaskFacts(c, s, a);
    Same(s);
    if reg.Some? { PlainMove(c, s, s.q, s.woken, a, Leave(Receivers, reg.value, false)); }
    else { PlainMove(c, s, s.q, s.woken, a, Quiet); }
  }

  lemma SendParkedInv(c: Channel, s: State, a: Tid, ch: Choice, v: Value, id: Id)
    requires Inv(c, s) && a < |s.pcs| && s.pcs[a] == SendParked(v, id)
    ensures var o := ParkedStep(s, a, ch, Senders, id, s.pcs[a], ResumeSend(v, id)); Inv(c, Goto(o.after, a, o.pc))
  {
    hide Inv;
    TaskFacts(c, s, a);
    Same(s);
    if ch.Poll? {
      assert s.(q := s.q, woken := s.woken - {a}) == s.(woken := s.woken - {a});
      PlainMove(c, s, s.q, s.woken - {a}, a, ResumeSend(v, id));
    } else if ch.Drop? { PlainMove(c, s, s.q, s.woken, a, Leave(Senders, id, true)); }
    else { PlainMove(c, s, s.q, s.woken, a, s.pcs[a]); }
  }

  lemma RecvParkedInv(c: Channel, s: State, a: Tid, ch: Choice, id: Id, seen: nat)
    requires Inv(c, s) && a < |s.pcs| && s.pcs[a] == RecvParked(id, seen)
    ensures var o := ParkedStep(s, a, ch, Receivers, id, s.pcs[a], ResumeRecv(id)); Inv(c, Goto(o.after, a, o.pc))
  {
    hide Inv;
    TaskFacts(c, s, a);
    Same(s);
    if ch.Poll? {
      assert s.(q := s.q, woken := s.woken - {a}) == s.(woken := s.woken - {a});
      PlainMove(c, s, s.q, s.woken - {a}, a, ResumeRecv(id));
    } else if ch.Drop? { PlainMove(c, s, s.q, s.woken, a, Leave(Receivers, id, true)); }
    else { PlainMove(c, s, s.q, s.woken, a, s.pcs[a]); }
  }

  lemma LeaveInv(c: Channel, s: State, a: Tid, side: Side, id: Id, forward: bool)
    requires Inv(c, s) && a < |s.pcs| && s.pcs[a] == Leave(side, id, forward)
    ensures var o := LeaveStep(s, side, id, forward); Inv(c, Goto(o.after, a, o.pc))
  {
    hide Inv;
    TaskFacts(c, s, a);
    Same(s);
    if id in Ids(ListOf(s, side)) { WithoutInv(c, s, a, side, id, Quiet); }
    else if forward { PlainMove(c, s, s.q, s.woken, a, Forward(side)); }
    else { PlainMove(c, s, s.q, s.woken, a, Quiet); }
  }

  lemma ForwardInv(c: Channel, s: State, a: Tid, side: Side)
    requires Inv(c, s) && a < |s.pcs| && s.pcs[a] == Forward(side)
    ensures var o := ForwardStep(s, side); Inv(c, Goto(o.after, a, o.pc))
  {
    hide Inv;
    match side
    case Senders => SendersPopInv(c, s, a, 1, Waking(Wakers(First(s.senders, 1)), ThenDone));
    case Receivers =>
      assert s.(receivers := Rest(s.receivers, 1), told := s.told) == s.(receivers := Rest(s.receivers, 1));
      ReceiversPopInv(c, s, s.told, a, Waking(Wakers(First(s.receivers, 1)), ThenDone));
  }

  lemma WakingInv(c: Channel, s: State, a: Tid, ws: seq<Tid>, follow: Then)
    requires Inv(c, s) && a < |s.pcs| && s.pcs[a] == Waking(ws, follow)
    ensures var o := WakingStep(s, ws, follow); Inv(c, Goto(o.after, a, o.pc))
  {
    hide Inv;
    TaskFacts(c, s, a);
    Same(s);
    if |ws| == 0 { PlainMove(c, s, s.q, s.woken, a, Next(follow)); }
    else {
      var woken' := s.woken + {ws[0]};
      assert s.(q := s.q, woken := woken') == s.(woken := woken');
      PlainMove(c, s, s.q, woken', a, Waking(ws[1..], follow));
    }
  }

  /** A registration leaves its list: at the start of a poll, or when its future goes. */
  lemma WithoutInv(c: Channel, s: State, a: Tid, side: Side, id: Id, pc: Pc)
    requires Inv(c, s) && a < |s.pcs|
    requires || (side == Senders && s.pcs[a].ResumeSend? && s.pcs[a].id == id
      && pc == Sending(s.pcs[a].v, SendFirst, IsOpen))
             || (side == Receivers && s.pcs[a] == ResumeRecv(id) && pc == Receiving(RecvFirst, Pop))
             || (s.pcs[a].Leave? && s.pcs[a].side == side && s.pcs[a].id == id && id in Ids(ListOf(s, side))
               && pc == Quiet)
    ensures Inv(c, Goto(WithoutId(s, side, id), a, pc))
  {
    hide Inv;
    match side
    case Senders => SendersWithoutInv(c, s, a, id, pc);
    case Receivers => ReceiversWithoutInv(c, s, a, id, pc);
  }

  lemma SendersWithoutInv(c: Channel, s: State, a: Tid, id: Id, pc: Pc)
    requires Inv(c, s) && a < |s.pcs|
    requires || (s.pcs[a].ResumeSend? && s.pcs[a].id == id && pc == Sending(s.pcs[a].v, SendFirst, IsOpen))
             || (s.pcs[a].Leave? && s.pcs[a].side == Senders && s.pcs[a].id == id && id in Ids(s.senders)
               && pc == Quiet)
    ensures Inv(c, Goto(s.(senders := Without(s.senders, id)), a, pc))
  {
    hide QueueOk, ClaimsOk, ListOk, PromiseOk, SoloOk, HearsOk, AsleepOk, ClosedOk, OpenOk, TokensOk, RegOf,
      ClaimOf, IsWriting,
      Expects, EarOf, SleepyOf, IsReceiver, KnowsClosed, Stage, Due, Weight;
    SenderOut(c, s, s.pcs[a], id, pc);
    var senders' := Without(s.senders, id);
    ListsDistinct(c, s);
    OwnEntry(c, s, Senders, a, id);
    ClaimsMove(s.q, s.q, s.quiet, s.quiet, s.told, s.told, s.pcs, a, pc);
    ListMove(Senders, s.senders, senders', s.nextId, s.nextId, s.pcs, a, pc);
    ReceiversKept(c, s, s.q, s.nextId, s.woken, a, pc);
    PromiseMove(Senders, s.senders, senders', s.nextId, s.woken, s.woken, s.pcs, a, pc);
    SoloMove(c, s.pcs, a, pc);
    ClosedMove(s.q, s.q, s.closed, s.closer, s.closedAt, s.drained, s.dismissed, s.pcs, a, pc);
    OpenMove(s.senders, senders', s.dismissed, s.dismissed, s.pcs, a, pc);
    TokensWithout(c, s.q, s.closed, s.senders, s.nextId, s.pcs, a, id, pc);
  }

  /** A sender that gives up its registration, to poll again or to be dropped. */
  lemma SenderOut(c: Channel, s: State, was: Pc, id: Id, pc: Pc)
    requires (was.ResumeSend? && was.id == id && pc == Sending(was.v, SendFirst, IsOpen))
          || (was.Leave? && was.side == Senders && was.id == id && pc == Quiet)
    ensures RegOf(Senders, was) == Some(id) && RegOf(Senders, pc).None?
      && RegOf(Receivers, was) == RegOf(Receivers, pc) == None
    ensures ClaimOf(was) == ClaimOf(pc) == None && !IsWriting(pc) && !was.Waking? && !pc.Verdict? && !pc.Receiving?
    ensures Expects(Senders, pc).None? && Expects(Receivers, pc).None? && EarOf(pc).None? && SleepyOf(pc).None?
    ensures !IsReceiver(pc) && !KnowsClosed(pc) && Stage(was) == Stage(pc) && Due(was) == 0
    ensures !pc.SendParked? && !pc.RecvParked? && (pc.Sending? ==> !pc.at.Write?)
    ensures pc.Quiet? || forall ids :: Weight(Senders, pc, ids) >= 1
  {
  }

  /** A receive that starts a poll or leaves has no duty but its registration. */
  lemma ReceiverOut(c: Channel, s: State, was: Pc, id: Id, pc: Pc)
    requires (was == ResumeRecv(id) && pc == Receiving(RecvFirst, Pop))
          || (was.Leave? && was.side == Receivers && was.id == id && pc == Quiet)
    ensures RegOf(Receivers, was) == Some(id) && RegOf(Receivers, pc).None?
      && RegOf(Senders, was) == RegOf(Senders, pc) == None
    ensures ClaimOf(was) == ClaimOf(pc) == None && !IsWriting(pc) && !was.Waking? && !pc.Sending? && !pc.Verdict?
    ensures Expects(Receivers, pc).None? && Expects(Senders, pc).None? && EarOf(pc).None? && SleepyOf(pc).None?
    ensures IsReceiver(was) && !KnowsClosed(pc) && Stage(was) == Stage(pc) && Due(was) == Due(pc) && !pc.SendParked?
    ensures forall ids :: Weight(Senders, was, ids) == 0 && Weight(Senders, pc, ids) == 0
    ensures !pc.RecvParked? && (pc.Receiving? ==> !pc.take.Below? && !pc.take.VerdictTail? && !pc.recv.RecvBatch?)
  {
  }

  lemma ReceiversWithoutInv(c: Channel, s: State, a: Tid, id: Id, pc: Pc)
    requires Inv(c, s) && a < |s.pcs|
    requires || (s.pcs[a] == ResumeRecv(id) && pc == Receiving(RecvFirst, Pop))
             || (s.pcs[a].Leave? && s.pcs[a].side == Receivers && s.pcs[a].id == id && pc == Quiet)
    ensures Inv(c, Goto(s.(receivers := Without(s.receivers, id)), a, pc))
  {
    hide QueueOk, ClaimsOk, ListOk, PromiseOk, SoloOk, HearsOk, AsleepOk, ClosedOk, OpenOk, TokensOk, RegOf,
      ClaimOf, IsWriting,
      Expects, EarOf, SleepyOf, IsReceiver, KnowsClosed, Stage, Due, Weight;
    ReceiverOut(c, s, s.pcs[a], id, pc);
    var receivers' := Without(s.receivers, id);
    ListsDistinct(c, s);
    OwnEntry(c, s, Receivers, a, id);
    ClaimsMove(s.q, s.q, s.quiet, s.quiet, s.told, s.told, s.pcs, a, pc);
    SendersKept(c, s, s.q, s.closed, s.nextId, s.woken, a, pc);
    ListMove(Receivers, s.receivers, receivers', s.nextId, s.nextId, s.pcs, a, pc);
    PromiseMove(Receivers, s.receivers, receivers', s.nextId, s.woken, s.woken, s.pcs, a, pc);
    SoloMove(c, s.pcs, a, pc);
    HearsMove(c, s.q, s.q, s.receivers, receivers', s.quiet, s.quiet, s.told, s.told, s.pcs, a, pc);
    AsleepMove(s.q.head, s.q.head, s.receivers, receivers', s.woken, s.woken, s.drained, s.drained, s.pcs, a, pc);
    ClosedMove(s.q, s.q, s.closed, s.closer, s.closedAt, s.drained, s.dismissed, s.pcs, a, pc);
  }

  /** Taking one's own registration out leaves the others' in. */
  lemma OwnEntry(c: Channel, s: State, side: Side, a: Tid, id: Id)
    requires Inv(c, s) && a < |s.pcs| && RegOf(side, s.pcs[a]) == Some(id)
    ensures var list := ListOf(s, side); var out := Without(list, id);
      && DistinctIds(out) && Ids(out) == Ids(list) - {id}
      && (forall i :: 0 <= i < |list| ==> list[i].id in Ids(out) || list[i].who == a)
      && (forall i :: 0 <= i < |out| ==> out[i] in list)
  {
    hide Inv, RegOf;
    ListsDistinct(c, s);
    var list := ListOf(s, side);
    WithoutIds(list, id);
    forall i | 0 <= i < |list| ensures list[i].id in Ids(Without(list, id)) || list[i].who == a {
      assert list[i].id in Ids(list);
      EntryOwner(c, s, side, i, a);
    }
  }

  lemma EntryOwner(c: Channel, s: State, side: Side, i: nat, a: Tid)
    requires Inv(c, s) && a < |s.pcs| && i < |ListOf(s, side)|
    ensures RegOf(side, s.pcs[a]) == Some(ListOf(s, side)[i].id) ==> ListOf(s, side)[i].who == a
  {
    hide QueueOk, ClaimsOk, PromiseOk, SoloOk, HearsOk, AsleepOk, ClosedOk, OpenOk, TokensOk, RegOf, DistinctIds;
  }

  lemma RegisterSenderInv(c: Channel, s: State, a: Tid, v: Value)
    requires Inv(c, s) && a < |s.pcs| && s.pcs[a] == RegisterSender(v)
    ensures var o := RegisterSenderStep(s, a, v); Inv(c, Goto(o.after, a, o.pc))
  {
    hide QueueOk, ClaimsOk, ListOk, PromiseOk, SoloOk, HearsOk, AsleepOk, ClosedOk, OpenOk, TokensOk;
    var senders', pc := s.senders + [Entry(s.nextId, a)], Sending(v, SendAgain(s.nextId), IsOpen);
    ListsDistinct(c, s);
    Appended(s.senders, Entry(s.nextId, a));
    ClaimsMove(s.q, s.q, s.quiet, s.quiet, s.told, s.told, s.pcs, a, pc);
    ListRegister(Senders, s.senders, s.nextId, s.pcs, a, pc);
    ReceiversKept(c, s, s.q, s.nextId + 1, s.woken, a, pc);
    PromiseMove(Senders, s.senders, senders', s.nextId, s.woken, s.woken, s.pcs, a, pc);
    SoloMove(c, s.pcs, a, pc);
    ClosedMove(s.q, s.q, s.closed, s.closer, s.closedAt, s.drained, s.dismissed, s.pcs, a, pc);
    OpenRegister(s.senders, s.nextId, s.dismissed, s.pcs, a, pc);
    TokensRegister(c, s.q, s.closed, s.senders, s.nextId, s.pcs, a, pc);
  }

  lemma RegisterReceiverInv(c: Channel, s: State, a: Tid)
    requires Inv(c, s) && a < |s.pcs| && s.pcs[a] == RegisterReceiver
    ensures var o := RegisterReceiverStep(s, a); Inv(c, Goto(o.after, a, o.pc))
  {
    hide QueueOk, ClaimsOk, ListOk, PromiseOk, SoloOk, HearsOk, AsleepOk, ClosedOk, OpenOk, TokensOk;
    var receivers', pc := s.receivers + [Entry(s.nextId, a)], Snapshot(s.nextId);
    ListsDistinct(c, s);
    Appended(s.receivers, Entry(s.nextId, a));
    ClaimsMove(s.q, s.q, s.quiet, s.quiet, s.told, s.told, s.pcs, a, pc);
    SendersKept(c, s, s.q, s.closed, s.nextId + 1, s.woken, a, pc);
    ListRegister(Receivers, s.receivers, s.nextId, s.pcs, a, pc);
    PromiseMove(Receivers, s.receivers, receivers', s.nextId, s.woken, s.woken, s.pcs, a, pc);
    SoloMove(c, s.pcs, a, pc);
    HearsRegister(c, s.q, s.receivers, s.nextId, s.quiet, s.told, s.pcs, a, pc);
    AsleepRegister(s.q.head, s.receivers, s.nextId, s.woken, s.drained, s.pcs, a, pc);
    ClosedMove(s.q, s.q, s.closed, s.closer, s.closedAt, s.drained, s.dismissed, s.pcs, a, pc);
  }

  lemma Appended(list: seq<Entry>, e: Entry)
    ensures forall i :: 0 <= i < |list| ==> list[i].id in Ids(list + [e])
    ensures e.id in Ids(list + [e])
  {
    forall i | 0 <= i < |list| ensures list[i].id in Ids(list + [e]) {
      assert (list + [e])[i].id == list[i].id;
    }
    assert (list + [e])[|list|].id == e.id;
  }

  // ---- Closing ----------------------------------------------------------------------------------

  lemma DrainReceiversInv(c: Channel, s: State, a: Tid)
    requires Inv(c, s) && a < |s.pcs| && s.pcs[a] == DrainReceivers
    ensures Inv(c, Goto(s.(receivers := [], drained := true), a, Waking(Wakers(s.receivers), ThenDrainSenders)))
  {
    hide QueueOk, ClaimsOk, ListOk, PromiseOk, SoloOk, HearsOk, AsleepOk, ClosedOk, OpenOk, TokensOk;
    var pc := Waking(Wakers(s.receivers), ThenDrainSenders);
    ListsDistinct(c, s);
    Popped(s.receivers, |s.receivers|);
    assert First(s.receivers, |s.receivers|) == s.receivers;
    ClaimsMove(s.q, s.q, s.quiet, s.quiet, s.told, s.told, s.pcs, a, pc);
    SendersKept(c, s, s.q, s.closed, s.nextId, s.woken, a, pc);
    ListMove(Receivers, s.receivers, [], s.nextId, s.nextId, s.pcs, a, pc);
    PromiseMove(Receivers, s.receivers, [], s.nextId, s.woken, s.woken, s.pcs, a, pc);
    SoloMove(c, s.pcs, a, pc);
    HearsMove(c, s.q, s.q, s.receivers, [], s.quiet, s.quiet, s.told, s.told, s.pcs, a, pc);
    AsleepMove(s.q.head, s.q.head, s.receivers, [], s.woken, s.woken, s.drained, true, s.pcs, a, pc);
    DrainClosed(c, s, a, pc);
  }

  lemma DrainClosed(c: Channel, s: State, a: Tid, pc: Pc)
    requires ClosedOk(s.q, s.closed, s.closer, s.closedAt, s.drained, s.dismissed, s.pcs)
    requires a < |s.pcs| && s.pcs[a] == DrainReceivers && pc.Waking? && pc.follow == ThenDrainSenders
    ensures s.closed && ClosedOk(s.q, s.closed, s.closer, s.closedAt, true, s.dismissed, s.pcs[a := pc])
  {
  }

  lemma DrainSendersInv(c: Channel, s: State, a: Tid)
    requires Inv(c, s) && a < |s.pcs| && s.pcs[a] == DrainSenders
    ensures Inv(c, Goto(s.(senders := [], dismissed := true), a, Waking(Wakers(s.senders), ThenDone)))
  {
    hide QueueOk, ClaimsOk, ListOk, PromiseOk, SoloOk, HearsOk, AsleepOk, ClosedOk, OpenOk;
    var pc := Waking(Wakers(s.senders), ThenDone);
    ListsDistinct(c, s);
    Popped(s.senders, |s.senders|);
    assert First(s.senders, |s.senders|) == s.senders;
    ClaimsMove(s.q, s.q, s.quiet, s.quiet, s.told, s.told, s.pcs, a, pc);
    ListMove(Senders, s.senders, [], s.nextId, s.nextId, s.pcs, a, pc);
    ReceiversKept(c, s, s.q, s.nextId, s.woken, a, pc);
    PromiseMove(Senders, s.senders, [], s.nextId, s.woken, s.woken, s.pcs, a, pc);
    SoloMove(c, s.pcs, a, pc);
    DismissClosed(c, s, a, pc);
    OpenMove(s.senders, [], s.dismissed, true, s.pcs, a, pc);
  }

  lemma DismissClosed(c: Channel, s: State, a: Tid, pc: Pc)
    requires ClosedOk(s.q, s.closed, s.closer, s.closedAt, s.drained, s.dismissed, s.pcs)
    requires a < |s.pcs| && s.pcs[a] == DrainSenders && pc.Waking? && pc.follow == ThenDone
    ensures ClosedOk(s.q, s.closed, s.closer, s.closedAt, s.drained, true, s.pcs[a := pc])
  {
  }

  // ---- Every step, every run --------------------------------------------------------------------

  lemma StepKeepsInv(c: Channel, s: State, a: Tid, ch: Choice)
    requires Inv(c, s) && a < |s.pcs|
    ensures Inv(c, Step(c, s, a, ch))
  {
    hide Inv, Goto, StepQuiet, StepSend, StepRecv, StepWait;
    match s.pcs[a]
    case Quiet => QuietStepInv(c, s, a, ch);
    case Sending(v, send, at) => SendStepInv(c, s, a, v, send, at);
    case Receiving(recv, take) => RecvStepInv(c, s, a, ch, recv, take);
    case _ => WaitStepInv(c, s, a, ch);
  }

  lemma InitialInv(c: Channel, s: State)
    requires Initial(c, s)
    ensures Inv(c, s)
  {
    hide TokensOk, ListOk, ClosedOk;
    InitialLists(c, s);
    InitialClosed(c, s);
  }

  lemma InitialLists(c: Channel, s: State)
    requires Initial(c, s)
    ensures ListOk(Senders, s.senders, s.nextId, s.pcs) && ListOk(Receivers, s.receivers, s.nextId, s.pcs)
  {
  }

  lemma InitialClosed(c: Channel, s: State)
    requires Initial(c, s)
    ensures ClosedOk(s.q, s.closed, s.closer, s.closedAt, s.drained, s.dismissed, s.pcs)
    ensures TokensOk(c, s.q, s.closed, s.senders, s.pcs)
  {
  }

  /** Every state of every run satisfies the invariant. */
  lemma {:induction false} RunInv(c: Channel, run: seq<State>, acts: seq<Act>, i: nat)
    requires IsRun(c, run, acts) && i < |run|
    ensures Inv(c, run[i])
    decreases i
  {
    hide Inv, Step;
    if i == 0 {
      InitialInv(c, run[0]);
    } else {
      RunInv(c, run, acts, i - 1);
      var x := acts[i - 1];
      assert run[i] == run[(i - 1) + 1] == Step(c, run[i - 1], x.a, x.ch);
      StepKeepsInv(c, run[i - 1], x.a, x.ch);
    }
  }
}
