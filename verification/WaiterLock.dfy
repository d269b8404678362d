/**
  The waiter list under its lock, one atomic action at a time.

  The counter is read without the lock, so it matters that inside a critical section it changes
  at another moment than the list does.  The list as the counter shows it changes in one step,
  at the moment the counter does; that is what the rest of the model takes for the list.
*/
module WaiterLock {
  import opened Basics
  import opened Waiters

  /** Where a task is in its current operation.  `was` and `gone` are history: the list before the
      operation changed it, and the registration removed if it was not the longest waiting. */
  datatype LockPc =
    | Outside
    | Raising(id: Id)                        // inside: entry added, counter not yet raised
    | Registered(id: Id)
    | Departing(id: Id, forward: bool)         // has decided to take the lock to unregister
    | Forwarding
    | Lowering(n: nat, was: seq<Entry>, gone: Option<Id>)  // inside: entries removed, counter not yet lowered
    | Draining                               // inside: counter zeroed, entries not yet removed

  datatype LockState = LockState(
    list: seq<Entry>,
    count: nat,
    holder: Option<Tid>,
    next: Id,
    pcs: seq<LockPc>)

  datatype LockChoice =
    | Register
    | Unregister(forward: bool)
    | Notify(n: nat)
    | Close
    | Continue

  function Move(s: LockState, a: Tid, pc: LockPc): LockState
    requires a < |s.pcs|
  {
    s.(pcs := s.pcs[a := pc])
  }

  /** Takes the first `n` entries out and keeps the lock; gives it back at once if there is none. */
  function Pop(s: LockState, a: Tid, n: nat): LockState
    requires a < |s.pcs|
  {
    if |First(s.list, n)| == 0 then Move(s, a, Outside)
    else Move(s.(list := Rest(s.list, n), holder := Some(a)), a, Lowering(|First(s.list, n)|, s.list, None))
  }

  /** One action of task `a`.  An action that needs the lock waits while it is taken. */
  function LockStep(s: LockState, a: Tid, ch: LockChoice): LockState
    requires a < |s.pcs|
  {
    match s.pcs[a]
    case Outside =>
      if s.holder.Some? then s
      else (
        match ch
        case Register =>
          Move(s.(list := s.list + [Entry(s.next, a)], next := s.next + 1, holder := Some(a)), a, Raising(s.next))
        case Notify(n) => Pop(s, a, n)
        case Close => Move(s.(count := 0, holder := Some(a)), a, Draining)
        case _ => s)
    case Raising(id) => Move(s.(count := s.count + 1, holder := None), a, Registered(id))
    case Registered(id) =>
      if !ch.Unregister? then s
      else if !ch.forward && s.count == 0 then Move(s, a, Outside)
      else Move(s, a, Departing(id, ch.forward))
    case Departing(id, forward) =>
      if s.holder.Some? then s
      else if id in Ids(s.list) then
        Move(s.(list := Without(s.list, id), holder := Some(a)), a, Lowering(1, s.list, Some(id)))
      else Move(s, a, if forward then Forwarding else Outside)
    case Forwarding => if s.holder.Some? then s else Pop(s, a, 1)
    case Lowering(n, _, _) => Move(s.(count := if n <= s.count then s.count - n else 0, holder := None), a, Outside)
    case Draining => Move(s.(list := [], holder := None), a, Outside)
  }

  predicate LockInitial(s: LockState) {
    s.list == [] && s.count == 0 && s.holder.None? && forall a :: 0 <= a < |s.pcs| ==> s.pcs[a] == Outside
  }

  datatype LockAct = LockAct(a: Tid, ch: LockChoice)

  predicate IsLockRun(run: seq<LockState>, acts: seq<LockAct>) {
    && |run| == |acts| + 1 && LockInitial(run[0])
    && forall i :: 0 <= i < |acts| ==>
         acts[i].a < |run[i].pcs| && run[i + 1] == LockStep(run[i], acts[i].a, acts[i].ch)
  }

  /** The registration a task has not given up yet. */
  function Reg(pc: LockPc): Option<Id> {
    match pc
    case Raising(id) => Some(id)
    case Registered(id) => Some(id)
    case Departing(id, _) => Some(id)
    case _ => None
  }

  predicate IsInside(pc: LockPc) {
    pc.Raising? || pc.Lowering? || pc.Draining?
  }

  /** The list as the counter shows it. */
  function Visible(s: LockState): seq<Entry> {
    if s.holder.Some? && s.holder.value < |s.pcs| then
      match s.pcs[s.holder.value]
      case Raising(_) => if |s.list| > 0 then s.list[..|s.list| - 1] else []
      case Lowering(_, was, _) => was
      case Draining => []
      case _ => s.list
    else s.list
  }

  predicate IsDraining(s: LockState) {
    s.holder.Some? && s.holder.value < |s.pcs| && s.pcs[s.holder.value].Draining?
  }

  /** Whoever is inside holds the lock, and the holder is inside. */
  ghost predicate HolderOk(s: LockState) {
    && (s.holder.Some? ==> s.holder.value < |s.pcs| && IsInside(s.pcs[s.holder.value]))
    && forall a :: 0 <= a < |s.pcs| && IsInside(s.pcs[a]) ==> s.holder == Some(a)
  }

  ghost predicate RegsOk(pcs: seq<LockPc>, next: nat) {
    && (forall a :: 0 <= a < |pcs| && Reg(pcs[a]).Some? ==> Reg(pcs[a]).value < next)
    && (forall a, b :: 0 <= a < b < |pcs| && Reg(pcs[a]).Some? ==> Reg(pcs[a]) != Reg(pcs[b]))
  }

  /** Registrations are distinct, and every entry belongs to a task still registered under it,
      or to a list being drained. */
  ghost predicate EntriesOk(s: LockState) {
    && DistinctIds(s.list) && RegsOk(s.pcs, s.next)
    && (forall i :: 0 <= i < |s.list| ==> s.list[i].id < s.next)
    && (!IsDraining(s) ==> forall i :: 0 <= i < |s.list| ==>
          s.list[i].who < |s.pcs| && Reg(s.pcs[s.list[i].who]) == Some(s.list[i].id))
  }

  /** What the holder is in the middle of. */
  ghost predicate InsideOk(s: LockState) {
    s.holder.Some? && s.holder.value < |s.pcs| ==>
      match s.pcs[s.holder.value]
      case Raising(id) => |s.list| > 0 && s.list[|s.list| - 1] == Entry(id, s.holder.value)
      case Lowering(n, was, gone) =>
        && n > 0 && |was| == |s.list| + n
        && s.list == if gone.Some? then Without(was, gone.value) else Rest(was, n)
      case _ => true
  }

  ghost predicate LockInv(s: LockState) {
    HolderOk(s) && EntriesOk(s) && InsideOk(s) && s.count == |Visible(s)|
  }

  /** The operation on the whole list that an action completes, seen through the counter: the one
      that raises or lowers the counter does all of it, a close does all of it when it stores zero. */
  function WholeEffect(pc: LockPc, a: Tid, ch: LockChoice, free: bool, v: seq<Entry>): seq<Entry> {
    match pc
    case Raising(id) => v + [Entry(id, a)]
    case Lowering(n, _, gone) => if gone.Some? then Without(v, gone.value) else Rest(v, n)
    case Outside => if ch.Close? && free then [] else v
    case _ => v
  }

  lemma LockStepKeeps(s: LockState, a: Tid, ch: LockChoice)
    requires LockInv(s) && a < |s.pcs|
    ensures LockInv(LockStep(s, a, ch))
  {
    hide LockInv;
    match s.pcs[a]
    case Outside => if s.holder.None? { EnterKeeps(s, a, ch); }
    case Forwarding => if s.holder.None? { PopKeeps(s, a, 1); }
    case Departing(id, forward) => if s.holder.None? { DepartKeeps(s, a, ch); }
    case Registered(_) => if ch.Unregister? { DecideKeeps(s, a, ch); }
    case _ => ReleaseKeeps(s, a, ch);
  }

  lemma EnterKeeps(s: LockState, a: Tid, ch: LockChoice)
    requires LockInv(s) && a < |s.pcs| && s.pcs[a].Outside? && s.holder.None?
    ensures LockInv(LockStep(s, a, ch))
  {
    hide LockInv;
    match ch
    case Register => RegisterKeeps(s, a);
    case Notify(n) => PopKeeps(s, a, n);
    case Close => CloseKeeps(s, a);
    case _ =>
  }

  /** A task moves on and keeps its registration, gives it up, or takes the next number. */
  lemma RegsMove(pcs: seq<LockPc>, next: nat, a: Tid, pc: LockPc)
    requires RegsOk(pcs, next) && a < |pcs|
    ensures Reg(pc) == Reg(pcs[a]) || Reg(pc).None? ==> RegsOk(pcs[a := pc], next)
    ensures Reg(pc) == Some(next) ==> RegsOk(pcs[a := pc], next + 1)
  {
  }

  /** A task enters with the lock free. */
  lemma HolderEnters(s: LockState, s': LockState, a: Tid, pc: LockPc)
    requires HolderOk(s) && a < |s.pcs| && s.holder.None?
    requires s'.pcs == s.pcs[a := pc] && s'.holder == if IsInside(pc) then Some(a) else None
    ensures HolderOk(s')
  {
  }

  lemma RegisterKeeps(s: LockState, a: Tid)
    requires LockInv(s) && a < |s.pcs| && s.pcs[a].Outside? && s.holder.None?
    ensures LockInv(LockStep(s, a, Register))
  {
    hide HolderOk, EntriesOk, InsideOk, Visible;
    HolderEnters(s, LockStep(s, a, Register), a, Raising(s.next));
    RegisterEntries(s, a);
    RegisterInside(s, a);
  }

  lemma RegisterEntries(s: LockState, a: Tid)
    requires EntriesOk(s) && a < |s.pcs| && s.pcs[a].Outside? && s.holder.None?
    ensures EntriesOk(LockStep(s, a, Register))
  {
    hide RegsOk, DistinctIds;
    RegsMove(s.pcs, s.next, a, Raising(s.next));
    AppendIds(s.list, Entry(s.next, a));
  }

  lemma RegisterInside(s: LockState, a: Tid)
    requires a < |s.pcs| && s.pcs[a].Outside? && s.holder.None? && s.count == |Visible(s)|
    ensures InsideOk(LockStep(s, a, Register))
    ensures LockStep(s, a, Register).count == |Visible(LockStep(s, a, Register))|
  {
    var e := Entry(s.next, a);
    assert (s.list + [e])[..|s.list|] == s.list;
  }

  lemma AppendIds(list: seq<Entry>, e: Entry)
    requires DistinctIds(list) && forall i :: 0 <= i < |list| ==> list[i].id < e.id
    ensures DistinctIds(list + [e])
  {
  }

  lemma CloseKeeps(s: LockState, a: Tid)
    requires LockInv(s) && a < |s.pcs| && s.pcs[a].Outside? && s.holder.None?
    ensures LockInv(LockStep(s, a, Close))
  {
    hide HolderOk, RegsOk, DistinctIds;
    HolderEnters(s, LockStep(s, a, Close), a, Draining);
    RegsMove(s.pcs, s.next, a, Draining);
  }

  lemma PopKeeps(s: LockState, a: Tid, n: nat)
    requires LockInv(s) && a < |s.pcs| && Reg(s.pcs[a]).None? && s.holder.None?
    ensures LockInv(Pop(s, a, n))
  {
    hide HolderOk, RegsOk, DistinctIds;
    RestIds(s.list, n);
    var s' := Pop(s, a, n);
    HolderEnters(s, s', a, s'.pcs[a]);
    RegsMove(s.pcs, s.next, a, s'.pcs[a]);
    PopInside(s, a, n);
  }

  lemma PopInside(s: LockState, a: Tid, n: nat)
    requires a < |s.pcs| && s.holder.None? && s.count == |Visible(s)|
    ensures InsideOk(Pop(s, a, n)) && Pop(s, a, n).count == |Visible(Pop(s, a, n))|
  {
  }

  lemma DepartKeeps(s: LockState, a: Tid, ch: LockChoice)
    requires LockInv(s) && a < |s.pcs| && s.pcs[a].Departing? && s.holder.None?
    ensures LockInv(LockStep(s, a, ch))
  {
    hide HolderOk, RegsOk, DistinctIds;
    WithoutIds(s.list, s.pcs[a].id);
    var s' := LockStep(s, a, ch);
    HolderEnters(s, s', a, s'.pcs[a]);
    RegsMove(s.pcs, s.next, a, s'.pcs[a]);
    DepartInside(s, a, ch);
    forall i | 0 <= i < |s'.list|
      ensures s'.list[i].who < |s'.pcs| && Reg(s'.pcs[s'.list[i].who]) == Some(s'.list[i].id)
      ensures s'.list[i].id < s'.next
    {
      StaysListed(s.list, s.pcs[a].id, s'.list, i);
    }
  }

  lemma DepartInside(s: LockState, a: Tid, ch: LockChoice)
    requires a < |s.pcs| && s.pcs[a].Departing? && s.holder.None? && s.count == |Visible(s)| && DistinctIds(s.list)
    ensures InsideOk(LockStep(s, a, ch)) && LockStep(s, a, ch).count == |Visible(LockStep(s, a, ch))|
  {
    hide DistinctIds;
    WithoutIds(s.list, s.pcs[a].id);
    if s.pcs[a].id in Ids(s.list) {}
  }

  lemma StaysListed(list: seq<Entry>, id: Id, out: seq<Entry>, i: nat)
    requires (out == list && id !in Ids(list)) || (out == Without(list, id) && DistinctIds(list))
    requires i < |out|
    ensures out[i] in list && out[i].id != id
  {
    assert out[i].id in Ids(out);
    if out == Without(list, id) && DistinctIds(list) {
      WithoutIds(list, id);
    }
  }

  lemma EarlyExit(s: LockState, a: Tid, id: Id)
    requires LockInv(s) && a < |s.pcs| && s.pcs[a] == Registered(id) && s.count == 0
    ensures id !in Ids(s.list) || IsDraining(s)
  {
    if s.holder.Some? && s.pcs[s.holder.value].Raising? {
      assert |s.list| == 1;
      assert Reg(s.pcs[a]) == Some(id) && Reg(s.pcs[s.holder.value]).Some?;
    }
  }

  lemma DecideKeeps(s: LockState, a: Tid, ch: LockChoice)
    requires LockInv(s) && a < |s.pcs| && s.pcs[a].Registered? && ch.Unregister?
    ensures LockInv(LockStep(s, a, ch))
  {
    if !ch.forward && s.count == 0 {
      EarlyExit(s, a, s.pcs[a].id);
      ForgetKeeps(s, a, Outside);
    } else {
      ForgetKeeps(s, a, Departing(s.pcs[a].id, ch.forward));
    }
  }

  /** A task outside the critical section moves on, giving up a registration that is not listed. */
  lemma ForgetKeeps(s: LockState, a: Tid, pc: LockPc)
    requires LockInv(s) && a < |s.pcs| && s.pcs[a].Registered? && !IsInside(pc)
    requires Reg(pc) == Reg(s.pcs[a]) || (Reg(pc).None? && (s.pcs[a].id !in Ids(s.list) || IsDraining(s)))
    ensures LockInv(Move(s, a, pc))
  {
    hide RegsOk, DistinctIds;
    var s' := Move(s, a, pc);
    RegsMove(s.pcs, s.next, a, pc);
    assert HolderOk(s') && InsideOk(s') && Visible(s') == Visible(s) && IsDraining(s') == IsDraining(s);
    assert forall i :: 0 <= i < |s.list| ==> s.list[i].id in Ids(s.list);
  }

  /** The holder leaves. */
  lemma HolderLeaves(s: LockState, s': LockState, a: Tid, pc: LockPc)
    requires HolderOk(s) && a < |s.pcs| && IsInside(s.pcs[a]) && !IsInside(pc)
    requires s'.pcs == s.pcs[a := pc] && s'.holder.None?
    ensures HolderOk(s') && s.holder == Some(a)
  {
  }

  lemma ReleaseKeeps(s: LockState, a: Tid, ch: LockChoice)
    requires LockInv(s) && a < |s.pcs| && (s.pcs[a].Raising? || s.pcs[a].Lowering? || s.pcs[a].Draining?)
    ensures LockInv(LockStep(s, a, ch))
  {
    hide HolderOk, RegsOk, DistinctIds;
    var s' := LockStep(s, a, ch);
    HolderLeaves(s, s', a, s'.pcs[a]);
    RegsMove(s.pcs, s.next, a, s'.pcs[a]);
    NoIds();
  }

  lemma NoIds()
    ensures DistinctIds([])
  {
  }

  lemma {:induction false} LockRunInv(run: seq<LockState>, acts: seq<LockAct>, i: nat)
    requires IsLockRun(run, acts) && i < |run|
    ensures LockInv(run[i])
    decreases i
  {
    hide LockInv, LockStep;
    if i == 0 {
      LockStarts(run[0]);
    } else {
      LockRunInv(run, acts, i - 1);
      assert run[i] == run[(i - 1) + 1];
      LockStepKeeps(run[i - 1], acts[i - 1].a, acts[i - 1].ch);
    }
  }

  lemma LockStarts(s: LockState)
    requires LockInitial(s)
    ensures LockInv(s)
  {
  }

  /** Whenever the lock is free the counter is the length of the list, and no registration is in
      the list twice or left behind by its task. */
  lemma FreeLockSound(run: seq<LockState>, acts: seq<LockAct>, i: nat)
    requires IsLockRun(run, acts) && i < |run| && run[i].holder.None?
    ensures run[i].count == |run[i].list| && DistinctIds(run[i].list)
    ensures forall k :: 0 <= k < |run[i].list| ==>
      run[i].list[k].who < |run[i].pcs| && Reg(run[i].pcs[run[i].list[k].who]) == Some(run[i].list[k].id)
  {
    hide IsLockRun;
    LockRunInv(run, acts, i);
  }

  /** A task that leaves early on a zero counter leaves no entry behind: it is gone already, or
      the close that holds the lock is about to remove it. */
  lemma EarlyExitSafe(run: seq<LockState>, acts: seq<LockAct>, i: nat, a: Tid, id: Id)
    requires IsLockRun(run, acts) && i < |run| && a < |run[i].pcs|
    requires run[i].pcs[a] == Registered(id) && LockStep(run[i], a, Unregister(false)).pcs[a] == Outside
    ensures id !in Ids(run[i].list) || IsDraining(run[i])
  {
    hide IsLockRun;
    LockRunInv(run, acts, i);
    EarlyExit(run[i], a, id);
  }

  /** Seen through the counter, every action is one operation on the whole list or none. */
  lemma SeenWhole(run: seq<LockState>, acts: seq<LockAct>, i: nat)
    requires IsLockRun(run, acts) && i < |acts|
    ensures acts[i].a < |run[i].pcs|
    ensures Visible(run[i + 1]) ==
      WholeEffect(run[i].pcs[acts[i].a], acts[i].a, acts[i].ch, run[i].holder.None?, Visible(run[i]))
  {
    hide LockStep, LockInv, WholeEffect, Visible;
    LockRunInv(run, acts, i);
    RunStep(run, acts, i);
    StepSeenWhole(run[i], acts[i].a, acts[i].ch);
  }

  lemma StepSeenWhole(s: LockState, a: Tid, ch: LockChoice)
    requires LockInv(s) && a < |s.pcs|
    ensures Visible(LockStep(s, a, ch)) == WholeEffect(s.pcs[a], a, ch, s.holder.None?, Visible(s))
  {
    hide LockStep, EntriesOk, Visible;
    if IsInside(s.pcs[a]) { ReleaseSeen(s, a, ch); } else { EnterSeen(s, a, ch); }
  }

  lemma ReleaseSeen(s: LockState, a: Tid, ch: LockChoice)
    requires HolderOk(s) && InsideOk(s) && a < |s.pcs| && IsInside(s.pcs[a])
    ensures Visible(LockStep(s, a, ch)) == WholeEffect(s.pcs[a], a, ch, s.holder.None?, Visible(s))
  {
    match s.pcs[a]
    case Raising(_) =>
    case Lowering(_, _, _) =>
    case Draining =>
  }

  lemma EnterSeen(s: LockState, a: Tid, ch: LockChoice)
    requires HolderOk(s) && InsideOk(s) && a < |s.pcs| && !IsInside(s.pcs[a])
    ensures Visible(LockStep(s, a, ch)) == WholeEffect(s.pcs[a], a, ch, s.holder.None?, Visible(s))
  {
    hide LockStep, Visible, WholeEffect, InsideOk;
    if s.holder.Some? { HeldSeen(s, a, ch); } else { FreeSeen(s, a, ch); }
  }

  /** With the lock taken a task outside changes nothing that shows. */
  lemma HeldSeen(s: LockState, a: Tid, ch: LockChoice)
    requires HolderOk(s) && a < |s.pcs| && !IsInside(s.pcs[a]) && s.holder.Some?
    ensures Visible(LockStep(s, a, ch)) == WholeEffect(s.pcs[a], a, ch, s.holder.None?, Visible(s))
  {
    match s.pcs[a]
    case Registered(_) => if ch.Unregister? {}
    case _ =>
  }

  lemma FreeSeen(s: LockState, a: Tid, ch: LockChoice)
    requires a < |s.pcs| && !IsInside(s.pcs[a]) && s.holder.None?
    ensures Visible(LockStep(s, a, ch)) == WholeEffect(s.pcs[a], a, ch, true, Visible(s))
  {
    match s.pcs[a]
    case Outside => OutsideSeen(s, a, ch);
    case Departing(id, _) => if id in Ids(s.list) {}
    case Forwarding =>
    case Registered(_) => if ch.Unregister? {}
  }

  lemma OutsideSeen(s: LockState, a: Tid, ch: LockChoice)
    requires a < |s.pcs| && s.pcs[a].Outside? && s.holder.None?
    ensures Visible(LockStep(s, a, ch)) == WholeEffect(Outside, a, ch, true, Visible(s))
  {
    var e := Entry(s.next, a);
    assert (s.list + [e])[..|s.list|] == s.list;
    match ch
    case Notify(_) =>
    case _ =>
  }

  lemma RunStep(run: seq<LockState>, acts: seq<LockAct>, i: nat)
    requires IsLockRun(run, acts) && i < |acts|
    ensures acts[i].a < |run[i].pcs| && run[i + 1] == LockStep(run[i], acts[i].a, acts[i].ch)
  {
  }
}
