/**
  First come, first woken: the lists of parked futures stay in the order of registration, and a
  notification takes the longest waiting.
*/
module ChannelOrder {
  import opened Basics
  import opened Waiters
  import opened ChannelModel
  import opened ChannelInvariant
  import opened ChannelSteps

  /** The numbers of a list increase from front to back. */
  predicate InOrder(list: seq<Entry>) {
    forall i, j :: 0 <= i < j < |list| ==> list[i].id < list[j].id
  }

  /** What a step of task `a` does to a list: nothing; entries leave at its front; the task registers at its
      end under the next number; or the task gives up its registration `reg`. */
  ghost predicate ListStep(list: seq<Entry>, list': seq<Entry>, nextId: Id, nextId': Id, a: Tid, reg: Option<Id>) {
    && nextId <= nextId'
    && (|| list' == list
        || (list' == list + [Entry(nextId, a)] && nextId < nextId')
        || (exists n: nat :: n <= |list| && list' == list[n..])
        || (reg.Some? && reg.value in Ids(list) && Survive(list, list', reg.value)))
  }

  lemma SameList(list: seq<Entry>, nextId: Id, a: Tid, reg: Option<Id>)
    ensures ListStep(list, list, nextId, nextId, a, reg)
    ensures forall n :: ListStep(list, Rest(list, n), nextId, nextId, a, reg)
    ensures ListStep(list, [], nextId, nextId, a, reg)
    ensures ListStep(list, list, nextId, nextId + 1, a, reg)
    ensures ListStep(list, list + [Entry(nextId, a)], nextId, nextId + 1, a, reg)
  {
    assert list[|list|..] == [];
  }

  lemma LeftList(list: seq<Entry>, nextId: Id, a: Tid, id: Id)
    requires DistinctIds(list)
    ensures ListStep(list, Without(list, id), nextId, nextId, a, Some(id))
  {
    if id in Ids(list) { WithoutOrder(list, id); }
  }

  /** The list of one side after a step. */
  ghost predicate SideStep(s: State, o: Outcome, a: Tid, side: Side)
    requires a < |s.pcs|
  {
    ListStep(ListOf(s, side), ListOf(o.after, side), s.nextId, o.after.nextId, a, RegOf(side, s.pcs[a]))
  }

  lemma QuietSide(c: Channel, s: State, a: Tid, ch: Choice, side: Side)
    requires a < |s.pcs| && s.pcs[a].Quiet?
    ensures SideStep(s, StepQuiet(c, s, a, ch), a, side)
  {
    hide ListStep, RegOf;
    SameList(ListOf(s, side), s.nextId, a, RegOf(side, s.pcs[a]));
  }

  lemma SendSide(c: Channel, s: State, a: Tid, v: Value, send: SendTry, at: SendPc, side: Side)
    requires a < |s.pcs| && s.pcs[a] == Sending(v, send, at)
    ensures SideStep(s, StepSend(c, s, a, v, send, at), a, side)
  {
    hide ListStep, RegOf, Rest, First;
    SameList(ListOf(s, side), s.nextId, a, RegOf(side, s.pcs[a]));
  }

  lemma RecvSide(c: Channel, s: State, a: Tid, ch: Choice, recv: RecvTry, take: RecvPc, side: Side)
    requires a < |s.pcs| && s.pcs[a] == Receiving(recv, take)
    ensures SideStep(s, StepRecv(c, s, a, ch, recv, take), a, side)
  {
    hide ListStep, RegOf, Rest, First, CanTake;
    SameList(ListOf(s, side), s.nextId, a, RegOf(side, s.pcs[a]));
  }

  lemma WithoutSide(s: State, a: Tid, id: Id, own: Side, side: Side)
    requires a < |s.pcs| && RegOf(own, s.pcs[a]) == Some(id) && DistinctIds(ListOf(s, side))
    ensures SideStep(s, Outcome(WithoutId(s, own, id), Quiet), a, side)
  {
    hide ListStep, Without, DistinctIds, Ids, RegOf;
    SameList(ListOf(s, side), s.nextId, a, RegOf(side, s.pcs[a]));
    if own == side { LeftList(ListOf(s, side), s.nextId, a, id); }
  }

  /** Giving up a registration: a poll, or a future that leaves. */
  lemma LeaveSide(s: State, a: Tid, ch: Choice, pc: Pc, side: Side)
    requires pc.ResumeSend? || pc.ResumeRecv? || pc.Leave?
    requires a < |s.pcs| && s.pcs[a] == pc && DistinctIds(ListOf(s, side))
    ensures SideStep(s, StepWait(s, a, ch, pc), a, side)
  {
    hide ListStep, DistinctIds, Ids, WithoutId;
    SameList(ListOf(s, side), s.nextId, a, RegOf(side, pc));
    match pc
    case ResumeSend(_, id) => WithoutSide(s, a, id, Senders, side);
    case ResumeRecv(id) => WithoutSide(s, a, id, Receivers, side);
    case Leave(own, id, _) => WithoutSide(s, a, id, own, side);
  }

  lemma RegisterSide(s: State, a: Tid, ch: Choice, pc: Pc, side: Side)
    requires pc.RegisterSender? || pc.RegisterReceiver?
    requires a < |s.pcs| && s.pcs[a] == pc
    ensures SideStep(s, StepWait(s, a, ch, pc), a, side)
  {
    hide ListStep, RegOf;
    SameList(ListOf(s, side), s.nextId, a, RegOf(side, pc));
    if pc.RegisterSender? {}
  }

  lemma NotifySide(s: State, a: Tid, ch: Choice, pc: Pc, side: Side)
    requires pc.Forward? || pc.DrainReceivers? || pc.DrainSenders?
    requires a < |s.pcs| && s.pcs[a] == pc
    ensures SideStep(s, StepWait(s, a, ch, pc), a, side)
  {
    hide ListStep, RegOf, Rest, First, Wakers;
    SameList(ListOf(s, side), s.nextId, a, RegOf(side, pc));
    match pc
    case Forward(own) => if own == side {}
    case _ =>
  }

  lemma WaitSide(s: State, a: Tid, ch: Choice, pc: Pc, side: Side)
    requires !pc.ResumeSend? && !pc.ResumeRecv? && !pc.Leave?
    requires a < |s.pcs| && s.pcs[a] == pc
    ensures SideStep(s, StepWait(s, a, ch, pc), a, side)
  {
    hide ListStep, RegOf, RegisterSenderStep, RegisterReceiverStep, ForwardStep, Wakers, WithoutId, LeaveStep;
    match pc
    case RegisterSender(_) => RegisterSide(s, a, ch, pc, side);
    case RegisterReceiver => RegisterSide(s, a, ch, pc, side);
    case Forward(_) => NotifySide(s, a, ch, pc, side);
    case DrainReceivers => NotifySide(s, a, ch, pc, side);
    case DrainSenders => NotifySide(s, a, ch, pc, side);
    case SendParked(_, _) => SameList(ListOf(s, side), s.nextId, a, RegOf(side, pc)); if ch.Poll? {}
    case RecvParked(_, _) => SameList(ListOf(s, side), s.nextId, a, RegOf(side, pc)); if ch.Poll? {}
    case Waking(ws, _) => SameList(ListOf(s, side), s.nextId, a, RegOf(side, pc)); if |ws| == 0 {}
    case _ => SameList(ListOf(s, side), s.nextId, a, RegOf(side, pc));
  }

  lemma StepSide(c: Channel, s: State, a: Tid, ch: Choice, side: Side)
    requires Inv(c, s) && a < |s.pcs|
    ensures SideStep(s, StepOf(c, s, a, ch), a, side)
  {
    hide Inv, SideStep, StepQuiet, StepSend, StepRecv, StepWait, DistinctIds;
    ListsDistinct(c, s);
    match s.pcs[a]
    case Quiet => QuietSide(c, s, a, ch, side);
    case Sending(v, send, at) => SendSide(c, s, a, v, send, at, side);
    case Receiving(recv, take) => RecvSide(c, s, a, ch, recv, take, side);
    case pc =>
      if pc.ResumeSend? || pc.ResumeRecv? || pc.Leave? {
        LeaveSide(s, a, ch, pc, side);
      } else {
        WaitSide(s, a, ch, pc, side);
      }
  }

  // ---- Every run --------------------------------------------------------------------------------

  /** In order, and all numbers given out. */
  predicate Queued(list: seq<Entry>, nextId: Id) {
    InOrder(list) && forall i :: 0 <= i < |list| ==> list[i].id < nextId
  }

  lemma KeepsQueued(list: seq<Entry>, list': seq<Entry>, nextId: Id, nextId': Id, a: Tid, reg: Option<Id>)
    requires Queued(list, nextId) && ListStep(list, list', nextId, nextId', a, reg)
    ensures Queued(list', nextId')
  {
    if reg.Some? && Survive(list, list', reg.value) { SurvivorsQueued(list, list', nextId, reg.value); }
  }

  lemma SurvivorsQueued(list: seq<Entry>, list': seq<Entry>, nextId: Id, id: Id)
    requires Queued(list, nextId) && Survive(list, list', id)
    ensures Queued(list', nextId)
  {
    forall i, j | 0 <= i < j < |list'| ensures list'[i].id < list'[j].id {
      assert Precedes(list', list'[i], list'[j]);
    }
    forall i | 0 <= i < |list'| ensures list'[i].id < nextId { assert list'[i] in list; }
  }

  /** What leaves a list without its task's doing has waited longer than whatever stays. */
  lemma FrontLeaves(list: seq<Entry>, list': seq<Entry>, nextId: Id, nextId': Id, a: Tid, reg: Option<Id>, x: Entry,
                    y: Entry)
    requires InOrder(list) && ListStep(list, list', nextId, nextId', a, reg)
    requires x in list && x !in list' && y in list && y in list'
    ensures x.id < y.id || reg == Some(x.id)
  {
    hide InOrder, Ids, Precedes;
    if n: nat :| n <= |list| && list' == list[n..] { FrontBefore(list, n, x, y); }
  }

  lemma FrontBefore(list: seq<Entry>, n: nat, x: Entry, y: Entry)
    requires InOrder(list) && n <= |list| && x in list && x !in list[n..] && y in list[n..]
    ensures x.id < y.id
  {
    var i :| 0 <= i < |list| && list[i] == x;
    var j :| 0 <= j < |list[n..]| && list[n..][j] == y;
    assert forall k :: n <= k < |list| ==> list[k] == list[n..][k - n];
    assert list[n + j] == y;
  }

  lemma RunSide(c: Channel, run: seq<State>, acts: seq<Act>, j: nat, side: Side)
    requires IsRun(c, run, acts) && j < |acts|
    ensures |run| == |acts| + 1 && acts[j].a < |run[j].pcs|
    ensures ListStep(ListOf(run[j], side), ListOf(run[j + 1], side), run[j].nextId, run[j + 1].nextId, acts[j].a,
                     RegOf(side, run[j].pcs[acts[j].a]))
  {
    hide Inv, Step, StepOf, ListStep, RegOf;
    RunInv(c, run, acts, j);
    var x := acts[j];
    assert run[j + 1] == Step(c, run[j], x.a, x.ch);
    StepSide(c, run[j], x.a, x.ch, side);
    ListsStepped(c, run[j], x.a, x.ch, side);
  }

  lemma ListsStepped(c: Channel, s: State, a: Tid, ch: Choice, side: Side)
    requires a < |s.pcs|
    ensures var s', after := Step(c, s, a, ch), StepOf(c, s, a, ch).after;
      ListOf(s', side) == ListOf(after, side) && s'.nextId == after.nextId
  {
    hide StepOf;
  }

  /** In every state of every run both lists are in the order of registration. */
  lemma {:induction false} AlwaysInOrder(c: Channel, run: seq<State>, acts: seq<Act>, j: nat, side: Side)
    requires IsRun(c, run, acts) && j < |run|
    ensures Queued(ListOf(run[j], side), run[j].nextId)
    decreases j
  {
    hide Step, ListStep, RegOf;
    if j > 0 {
      AlwaysInOrder(c, run, acts, j - 1, side);
      RunSide(c, run, acts, j - 1, side);
      KeepsQueued(ListOf(run[j - 1], side), ListOf(run[j], side), run[j - 1].nextId, run[j].nextId, acts[j - 1].a,
                  RegOf(side, run[j - 1].pcs[acts[j - 1].a]));
    }
  }

  /** Whoever is in a list and was not there before has a number given out since. */
  lemma {:induction false} NewcomersLast(c: Channel, run: seq<State>, acts: seq<Act>, i: nat, j: nat, side: Side,
                                         y: Entry)
    requires IsRun(c, run, acts) && i <= j < |run|
    requires y in ListOf(run[j], side) && y !in ListOf(run[i], side)
    ensures run[i].nextId <= y.id
    decreases j
  {
    hide Step, RegOf, ListOf;
    if i < j {
      NumbersGrow(c, run, acts, i, j - 1);
      RunSide(c, run, acts, j - 1, side);
      if y in ListOf(run[j - 1], side) { NewcomersLast(c, run, acts, i, j - 1, side, y); }
    }
  }

  lemma {:induction false} NumbersGrow(c: Channel, run: seq<State>, acts: seq<Act>, i: nat, j: nat)
    requires IsRun(c, run, acts) && i <= j < |run|
    ensures run[i].nextId <= run[j].nextId
    decreases j
  {
    hide Step, RegOf, ListOf;
    if i < j {
      NumbersGrow(c, run, acts, i, j - 1);
      RunSide(c, run, acts, j - 1, Senders);
    }
  }

  /** First come, first woken: where `x` was registered before `y`, no step takes `y` out of the list and
      leaves `x` in it, but for `y`'s own task giving up its registration. */
  lemma FirstComeFirstWoken(c: Channel, run: seq<State>, acts: seq<Act>, i: nat, j: nat, side: Side, x: Entry, y: Entry)
    requires IsRun(c, run, acts) && i <= j < |acts| && acts[j].a < |run[j].pcs|
    requires x in ListOf(run[i], side) && y !in ListOf(run[i], side)
    requires x in ListOf(run[j], side) && y in ListOf(run[j], side)
    requires x in ListOf(run[j + 1], side) && y !in ListOf(run[j + 1], side)
    ensures RegOf(side, run[j].pcs[acts[j].a]) == Some(y.id)
  {
    hide Step, RegOf, ListOf, ListStep;
    AlwaysInOrder(c, run, acts, i, side);
    AlwaysInOrder(c, run, acts, j, side);
    NewcomersLast(c, run, acts, i, j, side, y);
    RunSide(c, run, acts, j, side);
    FrontLeaves(ListOf(run[j], side), ListOf(run[j + 1], side), run[j].nextId, run[j + 1].nextId, acts[j].a,
                RegOf(side, run[j].pcs[acts[j].a]), y, x);
  }
}
