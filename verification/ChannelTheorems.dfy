/**
  What holds in every run of the channel: any number of tasks, every interleaving of their sends,
  receives, polls, cancellations and closes.
*/
module ChannelTheorems {
  import opened Basics
  import opened SimpleQueues
  import opened Waiters
  import opened ChannelModel
  import opened ChannelInvariant
  import opened ChannelMoves
  import opened ChannelSteps

  /** No operation is in flight: every task is idle or has a parked future. */
  predicate Calm(pcs: seq<Pc>) {
    forall a :: 0 <= a < |pcs| ==> pcs[a].Quiet? || pcs[a].SendParked? || pcs[a].RecvParked?
  }

  // ---- No stranded sender -----------------------------------------------------------------------

  /** In an open bounded channel with no operation in flight, and every parked send unwoken, a
      sender waits only if the queue is exactly full. */
  lemma NoStrandedSender(c: Channel, run: seq<State>, acts: seq<Act>, j: nat)
    requires IsRun(c, run, acts) && j < |run|
    requires !run[j].closed && c.capacity.Some? && Calm(run[j].pcs)
    requires forall a :: 0 <= a < |run[j].pcs| && run[j].pcs[a].SendParked? ==> a !in run[j].woken
    ensures |run[j].senders| > 0 ==> |run[j].q.log| - run[j].q.head == c.capacity.value
  {
    hide Inv, IsRun;
    RunInv(c, run, acts, j);
    if |run[j].senders| > 0 { FullIfWaiting(c, run[j]); }
  }

  lemma FullIfWaiting(c: Channel, s: State)
    requires Inv(c, s) && !s.closed && c.capacity.Some? && Calm(s.pcs) && |s.senders| > 0
    requires forall a :: 0 <= a < |s.pcs| && s.pcs[a].SendParked? ==> a !in s.woken
    ensures |s.q.log| - s.q.head == c.capacity.value
  {
    hide ClaimsOk, SoloOk, HearsOk, AsleepOk, ClosedOk, OpenOk, Sum, Dues, Calm;
    AllCounted(c, s);
    CalmDues(s.pcs);
    CalmOwner(c, s);
    assert Stranded(s.senders, s.pcs);
  }

  /** The owner of the first entry is a parked send. */
  lemma CalmOwner(c: Channel, s: State)
    requires Inv(c, s) && Calm(s.pcs) && |s.senders| > 0
    ensures s.senders[0].who < |s.pcs| && s.pcs[s.senders[0].who].SendParked?
  {
    hide QueueOk, ClaimsOk, PromiseOk, SoloOk, HearsOk, AsleepOk, ClosedOk, OpenOk, TokensOk, DistinctIds;
  }

  lemma {:induction false} CalmDues(pcs: seq<Pc>)
    requires Calm(pcs)
    ensures Dues(pcs) == 0
    decreases |pcs|
  {
    if |pcs| > 0 { CalmDues(pcs[..|pcs| - 1]); }
  }

  /** With nobody running and nobody woken, no wake-up is outstanding. */
  lemma AllCounted(c: Channel, s: State)
    requires Inv(c, s) && Calm(s.pcs)
    requires forall a :: 0 <= a < |s.pcs| && s.pcs[a].SendParked? ==> a !in s.woken
    ensures Sum(Senders, s.pcs, Ids(s.senders)) == 0
  {
    hide QueueOk, ClaimsOk, ListOk, SoloOk, HearsOk, AsleepOk, ClosedOk, OpenOk, TokensOk, Sum;
    forall a | 0 <= a < |s.pcs| ensures Weight(Senders, s.pcs[a], Ids(s.senders)) == 0 {
      assert s.pcs[a].SendParked? ==> Expects(Senders, s.pcs[a]) == Some(s.pcs[a].id);
    }
    ZeroSum(Senders, s.pcs, Ids(s.senders));
  }

  lemma {:induction false} ZeroSum(side: Side, pcs: seq<Pc>, ids: set<Id>)
    requires forall a :: 0 <= a < |pcs| ==> Weight(side, pcs[a], ids) == 0
    ensures Sum(side, pcs, ids) == 0
    decreases |pcs|
  {
    hide Weight;
    if |pcs| > 0 { ZeroSum(side, pcs[..|pcs| - 1], ids); }
  }

  /** At any moment of an open bounded channel, however many operations are under way: while some
      sender sleeps beyond the notifications due, the free slots are at most the wake-ups absorbed
      and not used yet, the first attempts under way and the slots freed but not announced. */
  lemma FreeSlotsCovered(c: Channel, run: seq<State>, acts: seq<Act>, j: nat)
    requires IsRun(c, run, acts) && j < |run| && !run[j].closed && c.capacity.Some?
    requires Stranded(run[j].senders, run[j].pcs)
    ensures c.capacity.value - (|run[j].q.log| - run[j].q.head) <= Sum(Senders, run[j].pcs, Ids(run[j].senders))
  {
    hide IsRun, QueueOk, ClaimsOk, ListOk, PromiseOk, SoloOk, HearsOk, AsleepOk, ClosedOk, OpenOk, Sum, Stranded;
    RunInv(c, run, acts, j);
  }

  /** The steps of a cancelled future: it is dropped while parked, gives up its registration, and passes
      on the notification that registration had absorbed. */
  predicate Cancels(side: Side, pc: Pc, ch: Choice) {
    || (ch.Drop? && if side.Senders? then pc.SendParked? else pc.RecvParked?)
    || (pc.Leave? && pc.side == side && pc.forward)
    || pc == Forward(side)
  }

  /** The queue and the other side's list are as before; the wake-ups on their way on this side are as
      many, unless the one passed on by task `a` finds nobody left to take it; else it goes to the longest
      waiter. */
  ghost predicate WakeupsKept(s: State, s': State, side: Side, a: Tid)
    requires a < |s.pcs| == |s'.pcs|
  {
    var list, list' := ListOf(s, side), ListOf(s', side);
    var before, after := Sum(side, s.pcs, Ids(list)), Sum(side, s'.pcs, Ids(list'));
    && s'.q == s.q && (forall other: Side :: other != side ==> ListOf(s', other) == ListOf(s, other))
    && (if s.pcs[a].Forward? && |list| == 0 then after + 1 == before else after == before)
    && (s.pcs[a].Forward? && |list| > 0 ==> list' == list[1..] && s'.pcs[a] == Waking([list[0].who], ThenDone))
  }

  /** Cancelling a send or a receive, at any point, conserves wake-ups. */
  lemma CancelKeepsWakeups(c: Channel, s: State, a: Tid, ch: Choice, side: Side)
    requires Inv(c, s) && a < |s.pcs| && Cancels(side, s.pcs[a], ch)
    ensures |Step(c, s, a, ch).pcs| == |s.pcs| && WakeupsKept(s, Step(c, s, a, ch), side, a)
  {
    hide Inv, Step, ListOk, WakeupsKept;
    Listed(c, s, side);
    if s.pcs[a].Leave? {
      LeaveKeeps(c, s, a, ch, side, s.pcs[a].id);
    } else if s.pcs[a].Forward? {
      ForwardKeeps(c, s, a, ch, side);
    } else {
      DropKeeps(c, s, a, ch, side, s.pcs[a].id);
    }
  }

  /** The future's own registration leaves the list, or the notification it absorbed is passed on. */
  lemma LeaveKeeps(c: Channel, s: State, a: Tid, ch: Choice, side: Side, id: Id)
    requires a < |s.pcs| && s.pcs[a] == Leave(side, id, true) && ListOk(side, ListOf(s, side), s.nextId, s.pcs)
    ensures |Step(c, s, a, ch).pcs| == |s.pcs| && WakeupsKept(s, Step(c, s, a, ch), side, a)
  {
    hide Step, Sum, ListOk, Ids, ListOf;
    var list := ListOf(s, side);
    if id in Ids(list) {
      LeaveListed(c, s, a, ch, side, id);
      WithoutSum(side, list, s.nextId, s.pcs, a, id);
      SumUpdate(side, s.pcs, a, Quiet, Ids(Without(list, id)));
    } else {
      LeaveGone(c, s, a, ch, side, id);
      SumUpdate(side, s.pcs, a, Forward(side), Ids(list));
    }
  }

  lemma ForwardKeeps(c: Channel, s: State, a: Tid, ch: Choice, side: Side)
    requires a < |s.pcs| && s.pcs[a] == Forward(side) && ListOk(side, ListOf(s, side), s.nextId, s.pcs)
    ensures |Step(c, s, a, ch).pcs| == |s.pcs| && WakeupsKept(s, Step(c, s, a, ch), side, a)
  {
    hide Step, Sum, ListOk, Ids, ListOf;
    var list := ListOf(s, side);
    Forwarded(c, s, a, ch, side);
    SumPop(side, list, s.nextId, s.pcs, 1);
    SumUpdate(side, s.pcs, a, Waking(Wakers(First(list, 1)), ThenDone), Ids(Rest(list, 1)));
    assert |list| > 0 ==> Wakers(First(list, 1)) == [list[0].who];
  }

  lemma DropKeeps(c: Channel, s: State, a: Tid, ch: Choice, side: Side, id: Id)
    requires a < |s.pcs| && ch.Drop?
    requires if side.Senders? then s.pcs[a].SendParked? && s.pcs[a].id == id
             else s.pcs[a].RecvParked? && s.pcs[a].id == id
    ensures |Step(c, s, a, ch).pcs| == |s.pcs| && WakeupsKept(s, Step(c, s, a, ch), side, a)
  {
    hide Step, Sum, Ids, ListOf, RegOf;
    Dropped(c, s, a, ch, side, id);
    SumUpdate(side, s.pcs, a, Leave(side, id, true), Ids(ListOf(s, side)));
  }

  /** A state with a new list on one side, and task `a` moved on. */
  ghost predicate ListMoved(s: State, s': State, side: Side, list: seq<Entry>, a: Tid, pc: Pc)
    requires a < |s.pcs|
  {
    && s'.q == s.q && s'.pcs == s.pcs[a := pc] && ListOf(s', side) == list
    && forall other: Side :: other != side ==> ListOf(s', other) == ListOf(s, other)
  }

  lemma LeaveListed(c: Channel, s: State, a: Tid, ch: Choice, side: Side, id: Id)
    requires a < |s.pcs| && s.pcs[a] == Leave(side, id, true) && id in Ids(ListOf(s, side))
    ensures ListMoved(s, Step(c, s, a, ch), side, Without(ListOf(s, side), id), a, Quiet)
  {
    hide Ids, Without;
  }

  lemma LeaveGone(c: Channel, s: State, a: Tid, ch: Choice, side: Side, id: Id)
    requires a < |s.pcs| && s.pcs[a] == Leave(side, id, true) && id !in Ids(ListOf(s, side))
    ensures ListMoved(s, Step(c, s, a, ch), side, ListOf(s, side), a, Forward(side))
  {
    hide Ids, Without;
  }

  lemma Forwarded(c: Channel, s: State, a: Tid, ch: Choice, side: Side)
    requires a < |s.pcs| && s.pcs[a] == Forward(side)
    ensures ListMoved(s, Step(c, s, a, ch), side, Rest(ListOf(s, side), 1), a,
                      Waking(Wakers(First(ListOf(s, side), 1)), ThenDone))
  {
    hide Ids;
  }

  /** A parked future is dropped: its registration is still its own. */
  lemma Dropped(c: Channel, s: State, a: Tid, ch: Choice, side: Side, id: Id)
    requires a < |s.pcs| && ch.Drop?
    requires if side.Senders? then s.pcs[a].SendParked? && s.pcs[a].id == id
             else s.pcs[a].RecvParked? && s.pcs[a].id == id
    ensures ListMoved(s, Step(c, s, a, ch), side, ListOf(s, side), a, Leave(side, id, true))
    ensures RegOf(side, s.pcs[a]) == RegOf(side, Leave(side, id, true)) == Some(id)
  {
  }

  lemma Listed(c: Channel, s: State, side: Side)
    requires Inv(c, s)
    ensures ListOk(side, ListOf(s, side), s.nextId, s.pcs)
  {
    hide ListOk;
  }

  // ---- No lost wake-up for the exclusive receiver -----------------------------------------------

  /** No send or close is between its start and its end. */
  predicate NoSendOrClose(pcs: seq<Pc>) {
    forall a :: 0 <= a < |pcs| ==> !pcs[a].Sending? && !pcs[a].Waking? && Stage(pcs[a]) == 0
  }

  /** The exclusive receiver sleeps, unwoken, only on an open channel that holds no claimed value. */
  lemma NoLostWakeup(c: Channel, run: seq<State>, acts: seq<Act>, j: nat, r: Tid)
    requires IsRun(c, run, acts) && j < |run| && c.solo == Some(r) && r < |run[j].pcs|
    requires run[j].pcs[r].RecvParked? && r !in run[j].woken && NoSendOrClose(run[j].pcs)
    ensures !run[j].closed && run[j].q.head == |run[j].q.log|
  {
    hide Inv, IsRun, NoSendOrClose;
    RunInv(c, run, acts, j);
    SleepersRegistered(c, run[j], r);
    SleepsOnEmpty(c, run[j], r);
  }

  lemma SleepersRegistered(c: Channel, s: State, r: Tid)
    requires Inv(c, s) && r < |s.pcs| && s.pcs[r].RecvParked? && r !in s.woken && NoSendOrClose(s.pcs)
    ensures s.pcs[r].id in Ids(s.receivers) && !s.closed && s.pcs[r].seen <= s.q.head
  {
    hide QueueOk, ClaimsOk, ListOk, SoloOk, HearsOk, OpenOk, TokensOk;
    assert Expects(Receivers, s.pcs[r]) == Some(s.pcs[r].id);
    assert !Promised(s.pcs, r);
  }

  lemma SleepsOnEmpty(c: Channel, s: State, r: Tid)
    requires Inv(c, s) && c.solo == Some(r) && r < |s.pcs| && s.pcs[r].RecvParked? && NoSendOrClose(s.pcs)
    requires s.pcs[r].id in Ids(s.receivers) && s.pcs[r].seen <= s.q.head
    ensures s.q.head == |s.q.log|
  {
    hide ListOk, PromiseOk, SoloOk, AsleepOk, ClosedOk, OpenOk, TokensOk, Stage;
    assert EarOf(s.pcs[r]) == Some(Ear(s.pcs[r].id, s.pcs[r].seen));
    if s.q.head < |s.q.log| {
      Done(s, s.q.head);
    }
  }

  /** With no send under way every claim has been dealt with. */
  lemma Done(s: State, k: nat)
    requires ClaimsOk(s.q, s.quiet, s.told, s.pcs) && NoSendOrClose(s.pcs) && k < |s.q.log|
    ensures k in s.quiet || k in s.told
  {
  }

  // ---- The general receiver's hand-off ----------------------------------------------------------

  /** A receiver asleep that did not wake itself has found everything below its snapshot taken. */
  lemma SleepsWhenDrained(c: Channel, run: seq<State>, acts: seq<Act>, j: nat, a: Tid)
    requires IsRun(c, run, acts) && j < |run| && a < |run[j].pcs|
    requires run[j].pcs[a].RecvParked? && a !in run[j].woken
    ensures run[j].pcs[a].seen <= run[j].q.head
  {
    hide Inv, IsRun;
    RunInv(c, run, acts, j);
    TaskFacts(c, run[j], a);
  }

  /** Every claim made after a receiver's snapshot, while its entry stays in the list, either has
      not sampled the list yet, or found it non-empty and has notified or is about to. */
  lemma LaterClaimsHeard(c: Channel, run: seq<State>, acts: seq<Act>, j: nat, a: Tid, k: nat)
    requires IsRun(c, run, acts) && j < |run| && a < |run[j].pcs|
    requires run[j].pcs[a].RecvParked? && run[j].pcs[a].id in Ids(run[j].receivers)
    requires run[j].pcs[a].seen <= k < |run[j].q.log|
    ensures var s := run[j]; var who := s.q.log[k].who;
      || k in s.told
      || (who < |s.pcs| && s.pcs[who].Sending?
          && (s.pcs[who].at == Sample(k) || s.pcs[who].at == Write(k, true) || s.pcs[who].at == Notify(k)))
  {
    hide Inv, IsRun;
    RunInv(c, run, acts, j);
    HeardBy(c, run[j], a, k);
  }

  lemma HeardBy(c: Channel, s: State, a: Tid, k: nat)
    requires Inv(c, s) && a < |s.pcs| && s.pcs[a].RecvParked? && s.pcs[a].id in Ids(s.receivers)
    requires s.pcs[a].seen <= k < |s.q.log|
    ensures var who := s.q.log[k].who;
      || k in s.told
      || (who < |s.pcs| && s.pcs[who].Sending?
          && (s.pcs[who].at == Sample(k) || s.pcs[who].at == Write(k, true) || s.pcs[who].at == Notify(k)))
  {
    hide QueueOk, ListOk, PromiseOk, SoloOk, AsleepOk, ClosedOk, OpenOk, TokensOk;
    assert EarOf(s.pcs[a]) == Some(Ear(s.pcs[a].id, s.pcs[a].seen));
    assert k !in s.quiet;
  }

  // ---- Draining before Closed -------------------------------------------------------------------

  /** A step that decides to report Closed: at that instant every claimed position is taken, so
      every position claimed while the channel was open was taken by someone before. */
  lemma DrainBeforeClosed(c: Channel, run: seq<State>, acts: seq<Act>, i: nat, j: nat)
    requires IsRun(c, run, acts) && i <= j < |acts| && !run[i].closed
    requires acts[j].a < |run[j].pcs| && !run[j].pcs[acts[j].a].Verdict?
    requires StepOf(c, run[j], acts[j].a, acts[j].ch).pc.Verdict?
    ensures run[j].closed && run[j].q.head == |run[j].q.log|
    ensures |run[i].q.log| <= run[j].q.head && run[i].q.log <= run[j].q.log
  {
    hide Inv, Step, StepOf;
    RunInv(c, run, acts, j);
    VerdictIsExact(c, run[j], acts[j].a, acts[j].ch);
    QueueGrows(c, run, acts, i, j);
  }

  lemma VerdictIsExact(c: Channel, s: State, a: Tid, ch: Choice)
    requires Inv(c, s) && a < |s.pcs| && !s.pcs[a].Verdict? && StepOf(c, s, a, ch).pc.Verdict?
    ensures s.closed && s.q.head == |s.q.log|
  {
    hide Inv, StepQuiet, StepSend, StepRecv, StepWait;
    TaskFacts(c, s, a);
    match s.pcs[a]
    case Quiet => QuietNoVerdict(c, s, a, ch);
    case Sending(v, send, at) => SendNoVerdict(c, s, a, v, send, at);
    case Receiving(recv, take) => RecvVerdict(c, s, a, ch, recv, take);
    case pc => WaitNoVerdict(s, a, ch, pc);
  }

  lemma QuietNoVerdict(c: Channel, s: State, a: Tid, ch: Choice)
    ensures !StepQuiet(c, s, a, ch).pc.Verdict?
  {
  }

  lemma SendNoVerdict(c: Channel, s: State, a: Tid, v: Value, send: SendTry, at: SendPc)
    ensures !StepSend(c, s, a, v, send, at).pc.Verdict?
  {
    match at
    case IsOpen => if s.closed && send.SendAgain? {}
    case Claim => if IsFull(c, s.q) {}
    case _ =>
  }

  lemma RecvVerdict(c: Channel, s: State, a: Tid, ch: Choice, recv: RecvTry, take: RecvPc)
    ensures StepRecv(c, s, a, ch, recv, take).pc.Verdict? ==> take.VerdictTail? && take.h >= |s.q.log|
  {
    match take
    case Pop => if ch.Ready? && CanTake(s.q, recv, ch.n) {}
    case IsClosed => if s.closed {}
    case VerdictTail(h) => if h >= |s.q.log| {}
    case _ =>
  }

  lemma WaitNoVerdict(s: State, a: Tid, ch: Choice, pc: Pc)
    requires !pc.Verdict?
    ensures !StepWait(s, a, ch, pc).pc.Verdict?
  {
    match pc
    case Leave(side, id, forward) => if id in Ids(ListOf(s, side)) {}
    case Waking(ws, _) => if |ws| == 0 {}
    case _ =>
  }

  /** Claims are only added at the end; the head only moves on. */
  lemma {:induction false} QueueGrows(c: Channel, run: seq<State>, acts: seq<Act>, i: nat, j: nat)
    requires IsRun(c, run, acts) && i <= j < |run|
    ensures run[i].q.log <= run[j].q.log && run[i].q.head <= run[j].q.head
    decreases j
  {
    hide Inv, Step;
    if i < j {
      QueueGrows(c, run, acts, i, j - 1);
      RunInv(c, run, acts, j - 1);
      var x := acts[j - 1];
      assert run[j] == run[(j - 1) + 1] == Step(c, run[j - 1], x.a, x.ch);
      UsesQueue(c, run[j - 1], x.a, x.ch);
    }
  }

  /** The channel uses its queue only by the queue's own operations, within their preconditions:
      a claim only below the capacity, a take only of published values. */
  lemma UsesQueue(c: Channel, s: State, a: Tid, ch: Choice)
    requires Inv(c, s) && a < |s.pcs|
    ensures exists e :: SimpleStep(c.capacity, s.q, e, Step(c, s, a, ch).q)
    ensures s.q.log <= Step(c, s, a, ch).q.log && s.q.head <= Step(c, s, a, ch).q.head
  {
    hide Inv, StepOf, Goto, SimpleStep;
    var e := QueueEvent(c, s, a, ch);
    EventGrows(c, s.q, e, StepOf(c, s, a, ch).after.q);
    GotoKeepsQueue(StepOf(c, s, a, ch).after, a, StepOf(c, s, a, ch).pc);
    assert SimpleStep(c.capacity, s.q, e, Step(c, s, a, ch).q);
  }

  lemma GotoKeepsQueue(s: State, a: Tid, pc: Pc)
    ensures Goto(s, a, pc).q == s.q
  {
  }

  lemma EventGrows(c: Channel, q: SimpleQueue, e: Event, q': SimpleQueue)
    requires SimpleStep(c.capacity, q, e, q')
    ensures q.log <= q'.log && q.head <= q'.head
  {
  }

  lemma QueueEvent(c: Channel, s: State, a: Tid, ch: Choice) returns (e: Event)
    requires Inv(c, s) && a < |s.pcs|
    ensures SimpleStep(c.capacity, s.q, e, StepOf(c, s, a, ch).after.q)
  {
    hide Inv, StepQuiet, StepSend, StepRecv, StepWait, SimpleStep;
    NoEvent(c, s.q);
    match s.pcs[a]
    case Quiet => QuietKeepsQueue(c, s, a, ch); e := Stutter;
    case Sending(v, send, at) => e := SendEvent(c, s, a, v, send, at);
    case Receiving(recv, take) => e := RecvEvent(c, s, a, ch, recv, take);
    case pc => WaitKeepsQueue(s, a, ch, pc); e := Stutter;
  }

  lemma NoEvent(c: Channel, q: SimpleQueue)
    ensures SimpleStep(c.capacity, q, Stutter, q)
  {
  }

  lemma QuietKeepsQueue(c: Channel, s: State, a: Tid, ch: Choice)
    ensures StepQuiet(c, s, a, ch).after.q == s.q
  {
    match ch
    case Close => if s.closed {}
    case StartRecv => if MayReceive(c, a) {}
    case _ =>
  }

  lemma SendEvent(c: Channel, s: State, a: Tid, v: Value, send: SendTry, at: SendPc) returns (e: Event)
    requires Inv(c, s) && a < |s.pcs| && s.pcs[a] == Sending(v, send, at)
    ensures SimpleStep(c.capacity, s.q, e, StepSend(c, s, a, v, send, at).after.q)
  {
    hide QueueOk, ListOk, PromiseOk, SoloOk, HearsOk, AsleepOk, ClosedOk, OpenOk, TokensOk, FullStep, OpenStep,
      NotifyStep,
      SampleStep, ClaimOf;
    SendKeepsQueue(s, v, send);
    e := Stutter;
    match at
    case Claim => if !IsFull(c, s.q) { e := Push(Claimed(a, v)); }
    case Write(k, wake) => e := Written(k);
    case _ =>
  }

  lemma SendKeepsQueue(s: State, v: Value, send: SendTry)
    ensures FullStep(s, v, send).after.q == s.q && OpenStep(s, v, send).after.q == s.q
    ensures forall k :: SampleStep(s, v, send, k).after.q == s.q && NotifyStep(s, send, k).after.q == s.q
  {
  }

  lemma RecvEvent(c: Channel, s: State, a: Tid, ch: Choice, recv: RecvTry, take: RecvPc) returns (e: Event)
    requires a < |s.pcs| && s.pcs[a] == Receiving(recv, take)
    ensures SimpleStep(c.capacity, s.q, e, StepRecv(c, s, a, ch, recv, take).after.q)
  {
    hide SamplingStep, NotifyingStep, IsClosedStep, VerdictStep, BelowStep, RetryStep;
    RecvKeepsQueue(c, s, a, ch, recv);
    e := if take.Pop? && ch.Ready? && CanTake(s.q, recv, ch.n) then Take(ch.n) else Stutter;
  }

  lemma RecvKeepsQueue(c: Channel, s: State, a: Tid, ch: Choice, recv: RecvTry)
    ensures forall n :: SamplingStep(c, s, recv, n).after.q == s.q && NotifyingStep(s, recv, n).after.q == s.q
    ensures IsClosedStep(s, recv).after.q == s.q && BelowStep(s, recv).after.q == s.q
    ensures RetryStep(s, a, ch, recv).after.q == s.q
    ensures forall h :: VerdictStep(s, recv, h).after.q == s.q
  {
  }

  /** Registering, parking, waking and cancelling leave the queue's contents alone. */
  lemma WaitKeepsQueue(s: State, a: Tid, ch: Choice, pc: Pc)
    ensures StepWait(s, a, ch, pc).after.q == s.q
  {
    match pc
    case SendParked(_, _) => if ch.Poll? {}
    case RecvParked(_, _) => if ch.Poll? {}
    case Leave(side, id, _) => if id in Ids(ListOf(s, side)) {}
    case Waking(ws, _) => if |ws| == 0 {}
    case _ =>
  }

  // ---- Closing wakes everyone -------------------------------------------------------------------

  /** Once a close has run to its end, every parked future has been woken or is about to be. */
  lemma CloseWakesAll(c: Channel, run: seq<State>, acts: seq<Act>, j: nat, a: Tid)
    requires IsRun(c, run, acts) && j < |run| && a < |run[j].pcs| && run[j].closed
    requires forall b :: 0 <= b < |run[j].pcs| ==> Stage(run[j].pcs[b]) == 0
    requires run[j].pcs[a].SendParked? || run[j].pcs[a].RecvParked?
    ensures a in run[j].woken || Promised(run[j].pcs, a)
  {
    hide Inv, IsRun, Stage;
    RunInv(c, run, acts, j);
    ClosedWakes(c, run[j], a);
  }

  lemma ClosedWakes(c: Channel, s: State, a: Tid)
    requires Inv(c, s) && a < |s.pcs| && s.closed && (s.pcs[a].SendParked? || s.pcs[a].RecvParked?)
    requires forall b :: 0 <= b < |s.pcs| ==> Stage(s.pcs[b]) == 0
    ensures a in s.woken || Promised(s.pcs, a)
  {
    hide QueueOk, ClaimsOk, ListOk, SoloOk, HearsOk, TokensOk, Stage;
    if s.pcs[a].SendParked? {
      assert Expects(Senders, s.pcs[a]) == Some(s.pcs[a].id) == SleepyOf(s.pcs[a]);
    } else {
      assert Expects(Receivers, s.pcs[a]) == Some(s.pcs[a].id);
    }
  }

  // ---- The lists --------------------------------------------------------------------------------

  /** No entry outlives its future's poll: every entry is the one registration its task's future
      still holds, and no registration is in a list twice. */
  lemma EntriesAreLive(c: Channel, run: seq<State>, acts: seq<Act>, j: nat, side: Side, i: nat)
    requires IsRun(c, run, acts) && j < |run| && i < |ListOf(run[j], side)|
    ensures var s := run[j]; var e := ListOf(s, side)[i];
      && e.who < |s.pcs| && RegOf(side, s.pcs[e.who]) == Some(e.id)
      && (forall k :: 0 <= k < |ListOf(s, side)| && k != i ==>
            ListOf(s, side)[k].id != e.id && ListOf(s, side)[k].who != e.who)
  {
    hide Inv, IsRun, RegOf;
    RunInv(c, run, acts, j);
    EntryFacts(c, run[j], side, i);
  }

  lemma EntryFacts(c: Channel, s: State, side: Side, i: nat)
    requires Inv(c, s) && i < |ListOf(s, side)|
    ensures var e := ListOf(s, side)[i];
      && e.who < |s.pcs| && RegOf(side, s.pcs[e.who]) == Some(e.id)
      && (forall k :: 0 <= k < |ListOf(s, side)| && k != i ==>
            ListOf(s, side)[k].id != e.id && ListOf(s, side)[k].who != e.who)
  {
    hide QueueOk, ClaimsOk, PromiseOk, SoloOk, HearsOk, AsleepOk, ClosedOk, OpenOk, TokensOk, RegOf;
  }
}
