/**
  What a notification does, and what being woken means.
*/
module ChannelWakeups {
  import opened Basics
  import opened Waiters
  import opened ChannelModel
  import opened ChannelInvariant
  import opened ChannelMoves
  import ChannelTheorems
  import opened ChannelCalls

  // ---- Notifications ----------------------------------------------------------------------------

  /** How many waiters of a side the next step of task `a` notifies, if there are that many: a published
      value one receiver, freed slots as many senders, a wake-up passed on one, and a close all. */
  function Notifies(s: State, a: Tid, side: Side): nat
    requires a < |s.pcs|
  {
    match s.pcs[a]
    case Sending(_, _, Notify(_)) => if side.Receivers? then 1 else 0
    case Receiving(_, Notifying(n)) => if side.Senders? then n else 0
    case Forward(own) => if side == own then 1 else 0
    case DrainReceivers => if side.Receivers? then |s.receivers| else 0
    case DrainSenders => if side.Senders? then |s.senders| else 0
    case _ => 0
  }

  /** The `m` longest waiting have left the list and are about to be woken, in that order; and each of them
      holds a wake-up now. */
  ghost predicate Granted(s: State, s': State, a: Tid, side: Side, m: nat)
    requires a < |s.pcs| == |s'.pcs| && m <= |ListOf(s, side)|
  {
    var list, list' := ListOf(s, side), ListOf(s', side);
    && list' == list[m..] && s'.pcs[a].Waking? && s'.pcs[a].ws == Wakers(list[..m])
    && Sum(side, s'.pcs, Ids(list')) + Weight(side, s.pcs[a], Ids(list)) == Sum(side, s.pcs, Ids(list)) + m
  }

  /** A notification wakes the longest waiting, as many as it is for or all there are. */
  lemma NotifyGrants(c: Channel, s: State, a: Tid, ch: Choice, side: Side)
    requires Inv(c, s) && a < |s.pcs| && Notifies(s, a, side) > 0
    ensures |Step(c, s, a, ch).pcs| == |s.pcs|
    ensures var n, all := Notifies(s, a, side), |ListOf(s, side)|;
      Granted(s, Step(c, s, a, ch), a, side, if n <= all then n else all)
  {
    hide Inv, Step, StepOf, Sum, Weight, ListOk, Ids, ListOf;
    var list, n := ListOf(s, side), Notifies(s, a, side);
    ChannelTheorems.Listed(c, s, side);
    var pc := NotifyStepIs(c, s, a, ch, side);
    SumPop(side, list, s.nextId, s.pcs, n);
    SumUpdate(side, s.pcs, a, pc, Ids(Rest(list, n)));
    NoRegistration(s.pcs[a], pc, side, Ids(list), Ids(Rest(list, n)));
  }

  /** The effect of the step, on the side it notifies. */
  ghost predicate TakesFirst(s: State, o: Outcome, side: Side, n: nat) {
    && o.after.pcs == s.pcs && ListOf(o.after, side) == Rest(ListOf(s, side), n)
    && o.pc.Waking? && o.pc.ws == Wakers(First(ListOf(s, side), n))
    && (o.pc.follow.ThenSent? ==> side.Receivers?) && (o.pc.follow.ThenTaken? ==> side.Senders?)
  }

  lemma ValueNotifies(s: State, send: SendTry, k: nat)
    ensures TakesFirst(s, NotifyStep(s, send, k), Receivers, 1)
  {
    hide First, Rest;
  }

  lemma SlotsNotify(s: State, recv: RecvTry, n: nat)
    ensures TakesFirst(s, NotifyingStep(s, recv, n), Senders, n)
  {
    hide First, Rest;
  }

  lemma ForwardNotifies(s: State, side: Side)
    ensures TakesFirst(s, ForwardStep(s, side), side, 1)
  {
    hide First, Rest;
  }

  lemma CloseNotifies(s: State, a: Tid, ch: Choice)
    ensures TakesFirst(s, StepWait(s, a, ch, DrainReceivers), Receivers, |s.receivers|)
    ensures TakesFirst(s, StepWait(s, a, ch, DrainSenders), Senders, |s.senders|)
  {
    hide Wakers;
    TakeAll(s.receivers);
    TakeAll(s.senders);
  }

  lemma TakeAll(list: seq<Entry>)
    ensures Rest(list, |list|) == [] && First(list, |list|) == list
  {
  }

  lemma NotifyStepIs(c: Channel, s: State, a: Tid, ch: Choice, side: Side) returns (pc: Pc)
    requires a < |s.pcs| && Notifies(s, a, side) > 0
    ensures TakesFirst(s, StepOf(c, s, a, ch), side, Notifies(s, a, side)) && pc == StepOf(c, s, a, ch).pc
    ensures Step(c, s, a, ch).pcs == s.pcs[a := pc]
    ensures ListOf(Step(c, s, a, ch), side) == Rest(ListOf(s, side), Notifies(s, a, side))
  {
    hide TakesFirst, ListOf, NotifyStep, NotifyingStep, ForwardStep;
    pc := StepOf(c, s, a, ch).pc;
    match s.pcs[a] {
      case Sending(_, send, Notify(k)) => ValueNotifies(s, send, k);
      case Receiving(recv, Notifying(n)) => SlotsNotify(s, recv, n);
      case Forward(own) => ForwardNotifies(s, own);
      case _ => CloseNotifies(s, a, ch);
    }
    SameLists(c, s, a, ch, side);
  }

  lemma SameLists(c: Channel, s: State, a: Tid, ch: Choice, side: Side)
    requires a < |s.pcs| && TakesFirst(s, StepOf(c, s, a, ch), side, Notifies(s, a, side))
    ensures Step(c, s, a, ch).pcs == s.pcs[a := StepOf(c, s, a, ch).pc]
    ensures ListOf(Step(c, s, a, ch), side) == Rest(ListOf(s, side), Notifies(s, a, side))
  {
    hide StepOf, Rest, First, Wakers, Notifies;
  }

  /** Neither before nor after it does the notifying task count by a registration of that side. */
  lemma NoRegistration(was: Pc, pc: Pc, side: Side, ids: set<Id>, ids': set<Id>)
    requires pc.Waking? && (pc.follow.ThenSent? ==> side.Receivers?) && (pc.follow.ThenTaken? ==> side.Senders?)
    requires match was
             case Sending(_, _, Notify(_)) => side.Receivers?
             case Receiving(_, Notifying(_)) => side.Senders?
             case Forward(own) => side == own
             case _ => was.DrainReceivers? || was.DrainSenders?
    ensures Weight(side, pc, ids') == 0 && Weight(side, was, ids) == Weight(side, was, ids')
  {
  }

  // ---- Being woken ------------------------------------------------------------------------------

  /** Whom a step of task `a` wakes: the next in its hands, or itself when it yields. */
  function Wakes(s: State, a: Tid, ch: Choice): set<Tid>
    requires a < |s.pcs|
  {
    match s.pcs[a]
    case Waking(ws, _) => if |ws| > 0 then {ws[0]} else {}
    case Receiving(RecvAgain(_, _), Retry) => if ch.Yield? then {a} else {}
    case _ => {}
  }

  /** A step of task `a` begins or polls a future of its own. */
  predicate Polls(c: Channel, s: State, a: Tid, ch: Choice)
    requires a < |s.pcs|
  {
    match s.pcs[a]
    case Quiet => ch.StartSend? || (ch.StartRecv? && MayReceive(c, a))
    case SendParked(_, _) => ch.Poll?
    case RecvParked(_, _) => ch.Poll?
    case _ => false
  }

  function WokenAfter(c: Channel, s: State, a: Tid, ch: Choice): set<Tid>
    requires a < |s.pcs|
  {
    if Polls(c, s, a, ch) then s.woken - {a} else s.woken + Wakes(s, a, ch)
  }

  lemma WokenStep(c: Channel, s: State, a: Tid, ch: Choice)
    requires a < |s.pcs|
    ensures StepOf(c, s, a, ch).after.woken == WokenAfter(c, s, a, ch)
  {
    hide StepSend, StepRecv, StepWait;
    match s.pcs[a]
    case Quiet =>
    case Sending(v, send, at) => SendWakesNone(c, s, a, v, send, at);
    case Receiving(recv, take) => RecvWakes(c, s, a, ch, recv, take);
    case pc => WaitWakes(c, s, a, ch, pc);
  }

  lemma SendWakesNone(c: Channel, s: State, a: Tid, v: Value, send: SendTry, at: SendPc)
    ensures StepSend(c, s, a, v, send, at).after.woken == s.woken
  {
    hide IsFull;
    match at
    case IsOpen => if s.closed && send.SendAgain? {}
    case Claim => if IsFull(c, s.q) {}
    case _ =>
  }

  lemma RecvWakes(c: Channel, s: State, a: Tid, ch: Choice, recv: RecvTry, take: RecvPc)
    requires a < |s.pcs| && s.pcs[a] == Receiving(recv, take)
    ensures StepRecv(c, s, a, ch, recv, take).after.woken == s.woken + Wakes(s, a, ch)
  {
    hide CanTake;
    match take
    case Pop => if ch.Ready? && CanTake(s.q, recv, ch.n) {}
    case Retry => if recv.RecvAgain? && ch.Yield? {}
    case _ =>
  }

  lemma WaitWakes(c: Channel, s: State, a: Tid, ch: Choice, pc: Pc)
    requires a < |s.pcs| && s.pcs[a] == pc && !pc.Quiet? && !pc.Sending? && !pc.Receiving?
    ensures StepWait(s, a, ch, pc).after.woken == WokenAfter(c, s, a, ch)
  {
    hide Without, Rest, First, Wakers, Ids;
    match pc
    case SendParked(_, _) => if ch.Poll? {} else if ch.Drop? {}
    case RecvParked(_, _) => if ch.Poll? {} else if ch.Drop? {}
    case Leave(side, id, _) => if id in Ids(ListOf(s, side)) {}
    case Waking(ws, _) => if |ws| == 0 {}
    case _ =>
  }

  /** Step `i` wakes task `w`, which has not polled since. */
  ghost predicate WokenSince(c: Channel, run: seq<State>, acts: seq<Act>, i: nat, j: nat, w: Tid)
    requires i < j < |run| && j <= |acts|
  {
    && acts[i].a < |run[i].pcs| && w in Wakes(run[i], acts[i].a, acts[i].ch)
    && forall k :: i < k < j ==> acts[k].a < |run[k].pcs| && !(acts[k].a == w && Polls(c, run[k], w, acts[k].ch))
  }

  /** A task counts as woken exactly if some step has woken it since it last polled. */
  lemma {:induction false} WokenIsExact(c: Channel, run: seq<State>, acts: seq<Act>, j: nat, w: Tid)
    requires IsRun(c, run, acts) && j < |run|
    ensures |run| == |acts| + 1
    ensures w in run[j].woken <==> exists i :: 0 <= i < j && WokenSince(c, run, acts, i, j, w)
    decreases j
  {
    hide Inv, Step, StepOf, Wakes, Polls;
    if j > 0 {
      WokenIsExact(c, run, acts, j - 1, w);
      RunStep(c, run, acts, j - 1);
      var x := acts[j - 1];
      WokenStep(c, run[j - 1], x.a, x.ch);
      SameWoken(c, run[j - 1], x.a, x.ch);
      PollWakesNone(c, run[j - 1], x.a, x.ch);
      var polls := x.a == w && Polls(c, run[j - 1], w, x.ch);
      if i :| 0 <= i < j && WokenSince(c, run, acts, i, j, w) {
        if i < j - 1 { assert WokenSince(c, run, acts, i, j - 1, w) && !polls; }
        assert w in run[j].woken;
      }
      if w in run[j].woken {
        if w in run[j - 1].woken && !polls {
          var i :| 0 <= i < j - 1 && WokenSince(c, run, acts, i, j - 1, w);
          assert WokenSince(c, run, acts, i, j, w);
        } else {
          assert WokenSince(c, run, acts, j - 1, j, w);
        }
      }
    }
  }

  lemma SameWoken(c: Channel, s: State, a: Tid, ch: Choice)
    requires a < |s.pcs|
    ensures Step(c, s, a, ch).woken == StepOf(c, s, a, ch).after.woken
  {
    hide StepOf;
  }

  lemma PollWakesNone(c: Channel, s: State, a: Tid, ch: Choice)
    requires a < |s.pcs|
    ensures Polls(c, s, a, ch) ==> Wakes(s, a, ch) == {}
  {
  }
}
