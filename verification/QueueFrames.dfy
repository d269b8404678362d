/**
  What the steps away from the tail leave alone: the tail, its block, the installed laps and the
  claims.
*/
module QueueFrames {
  import opened Basics
  import opened Positions
  import opened QueueModel

  /** The tail, its block, the installed laps, the claims and the other threads are as before. */
  predicate KeepsTail(s: State, s': State) {
    && s'.tail == s.tail && s'.tailBlock == s.tailBlock && s'.serves == s.serves && s'.writer == s.writer
    && s'.log == s.log && s'.pcs == s.pcs
  }

  lemma TakeKeepsTail(c: Config, s: State, t: Tid, ch: Choice, pc: TakePc)
    ensures KeepsTail(s, StepTake(c, s, t, ch, pc).after)
  {
    hide Published, IsSentinel;
    match pc
    case Look(h, b) => if IsSentinel(c.cap, h) {} else if Slot(b, h.off) in s.tag && s.tag[Slot(b, h.off)] == h.lap {}
    case Recheck(h, _) => if s.head == h {}
    case CasHead(h, _) => if ch.Fail? || s.head != h {}
    case _ =>
  }

  lemma ReadKeepsTail(c: Config, s: State, t: Tid, p: Pos, b: Id, pc: ReadPc)
    ensures KeepsTail(s, StepRead(c, s, t, p, b, pc).after)
  {
    hide KeepsTail, CopiedOut;
    CopyKeepsTail(c, s, p, if Slot(b, p.off) in s.value then s.value[Slot(b, p.off)] else 0);
    MarkKeepsTail(s, s.marked + {Slot(b, p.off)}, s.reader - {p});
    GotKeepsTail(s, s.got);
  }

  lemma CopyKeepsTail(c: Config, s: State, p: Pos, v: Value)
    ensures KeepsTail(s, CopiedOut(c, s, p, v))
  {
  }

  lemma MarkKeepsTail(s: State, marked: set<Slot>, reader: map<Pos, Tid>)
    ensures KeepsTail(s, s.(marked := marked, reader := reader))
  {
  }

  lemma MoveKeepsTail(c: Config, s: State, t: Tid, p: Pos, b: Id, pc: MovePc)
    ensures KeepsTail(s, StepMove(c, s, t, p, b, pc).after)
  {
    match pc
    case LoadNext => if b in s.nextOf {}
    case MoveHeadBlock(_) =>
    case SwapHead =>
  }

  lemma ScanKeepsTail(c: Config, s: State, t: Tid, pc: LeavePc)
    requires pc.Scan? || pc.Retire?
    ensures KeepsTail(s, StepLeave(c, s, t, pc).after)
    ensures StepLeave(c, s, t, pc).after.head == s.head
    ensures StepLeave(c, s, t, pc).after.got == s.got
  {
    match pc
    case Scan(k, b, j) => if j >= c.cap - 1 {} else if Slot(b, j) in s.marked {}
    case Retire(_, _) =>
  }

  lemma ReturnKeepsTail(c: Config, s: State, t: Tid, pc: LeavePc)
    requires !pc.Scan? && !pc.Retire?
    ensures KeepsTail(s, StepLeave(c, s, t, pc).after)
    ensures StepLeave(c, s, t, pc).after.head == s.head
    ensures StepLeave(c, s, t, pc).after.got == s.got
  {
    match pc
    case Wipe(b, j) => if j < c.cap {}
    case Recycle(b) => if s.spare.None? {}
    case PushReady(b) =>
  }

  lemma SoloKeepsTail(c: Config, s: State, t: Tid, pc: SoloPc)
    ensures KeepsTail(s, StepSolo(c, s, t, pc).after)
  {
    hide StepSolo, KeepsTail;
    match pc
    case SoloLook(h, b, limit, count) => SoloLookKeepsTail(c, s, t, h, b, limit, count);
    case SoloCopy(h, b, limit, count) => SoloCopyKeepsTail(c, s, t, h, b, limit, count);
    case SoloPool(b) => SoloPoolKeepsTail(c, s, t, b);
    case _ => SoloMoveKeepsTail(c, s, t, pc);
  }

  lemma SoloCopyKeepsTail(c: Config, s: State, t: Tid, h: Pos, b: Id, limit: nat, count: nat)
    ensures KeepsTail(s, StepSolo(c, s, t, SoloCopy(h, b, limit, count)).after)
  {
    hide KeepsTail;
    var x := Slot(b, h.off + count);
    GotKeepsTail(s, if x in s.value then s.got[Pos(h.lap, h.off + count) := s.value[x]] else s.got);
    if x in s.value {}
  }

  lemma GotKeepsTail(s: State, got': map<Pos, Value>)
    ensures KeepsTail(s, s.(got := got')) && KeepsTail(s, s)
  {
  }

  lemma EffectsKeepTail(s: State, t: Tid, k: nat, b: Id, n: Id, h: Pos, count: nat, last: bool)
    ensures KeepsTail(s, HeadBlockMoved(s, t, k, b, n)) && KeepsTail(s, Advanced(s, h, count, last)) && KeepsTail(s, s)
  {
    hide Range;
  }

  lemma SoloMoveKeepsTail(c: Config, s: State, t: Tid, pc: SoloPc)
    requires !pc.SoloLook? && !pc.SoloCopy? && !pc.SoloPool?
    ensures KeepsTail(s, StepSolo(c, s, t, pc).after)
  {
    hide KeepsTail, HeadBlockMoved, Advanced;
    match pc
    case SoloMoveBlock(h, b, count, n) => EffectsKeepTail(s, t, h.lap, b, n, h, count, false);
    case SoloAdvance(h, b, count, last) => EffectsKeepTail(s, t, h.lap, b, b, h, count, last);
    case SoloNext(h, b, count) => EffectsKeepTail(s, t, h.lap, b, b, h, count, true); if b in s.nextOf {}
    case SoloHead(_) => EffectsKeepTail(s, t, 0, 0, 0, s.head, 0, true);
    case SoloBlock(_, _) => EffectsKeepTail(s, t, 0, 0, 0, s.head, 0, true);
  }

  lemma SoloPoolKeepsTail(c: Config, s: State, t: Tid, b: Id)
    ensures KeepsTail(s, StepSolo(c, s, t, SoloPool(b)).after)
  {
  }

  lemma SoloLookKeepsTail(c: Config, s: State, t: Tid, h: Pos, b: Id, limit: nat, count: nat)
    ensures KeepsTail(s, StepSolo(c, s, t, SoloLook(h, b, limit, count)).after)
  {
    hide Published;
  }

  lemma SpareKeepsTail(c: Config, s: State, t: Tid, ch: Choice, m: Msg, b: Id)
    ensures KeepsTail(s, StepInstall(c, s, t, ch, m, b, TakeSpare).after)
    ensures StepInstall(c, s, t, ch, m, b, TakeSpare).after.head == s.head
    ensures StepInstall(c, s, t, ch, m, b, TakeSpare).after.got == s.got
  {
    if s.spare.Some? {}
  }

  lemma ReadyKeepsTail(c: Config, s: State, t: Tid, ch: Choice, m: Msg, b: Id)
    requires |s.ready| > 0
    ensures KeepsTail(s, StepInstall(c, s, t, ch, m, b, TakePool).after)
    ensures StepInstall(c, s, t, ch, m, b, TakePool).after.head == s.head
    ensures StepInstall(c, s, t, ch, m, b, TakePool).after.got == s.got
  {
  }

  lemma ReclaimKeepsTail(c: Config, s: State, t: Tid, ch: Choice, m: Msg, b: Id)
    requires |s.ready| == 0 && ch.Pick? && ch.i < |s.retired| && ReadersDone(c, s, s.retired[ch.i])
    ensures KeepsTail(s, StepInstall(c, s, t, ch, m, b, TakePool).after)
    ensures StepInstall(c, s, t, ch, m, b, TakePool).after.head == s.head
    ensures StepInstall(c, s, t, ch, m, b, TakePool).after.got == s.got
  {
    hide ReadersDone, SwapRemove;
  }

  lemma AllocateKeepsTail(c: Config, s: State, t: Tid, ch: Choice, m: Msg, b: Id)
    requires |s.ready| == 0 && !(ch.Pick? && ch.i < |s.retired| && ReadersDone(c, s, s.retired[ch.i]))
    ensures KeepsTail(s, StepInstall(c, s, t, ch, m, b, TakePool).after)
    ensures StepInstall(c, s, t, ch, m, b, TakePool).after.head == s.head
    ensures StepInstall(c, s, t, ch, m, b, TakePool).after.got == s.got
  {
    hide ReadersDone, SwapRemove;
  }

  lemma WipeKeepsTail(c: Config, s: State, t: Tid, ch: Choice, m: Msg, b: Id, n: Id, j: nat)
    ensures KeepsTail(s, StepInstall(c, s, t, ch, m, b, WipeTaken(n, j)).after)
    ensures StepInstall(c, s, t, ch, m, b, WipeTaken(n, j)).after.head == s.head
    ensures StepInstall(c, s, t, ch, m, b, WipeTaken(n, j)).after.got == s.got
  {
    if j < c.cap {}
  }

  lemma LinkKeepsTail(c: Config, s: State, t: Tid, ch: Choice, m: Msg, b: Id, pc: InstallPc)
    requires pc.SetPrev? || pc.ClearNext? || pc.LinkNext?
    ensures KeepsTail(s, StepInstall(c, s, t, ch, m, b, pc).after)
    ensures StepInstall(c, s, t, ch, m, b, pc).after.head == s.head
    ensures StepInstall(c, s, t, ch, m, b, pc).after.got == s.got
  {
  }

  /** Taking a block and preparing it. */
  lemma InstallKeepsTail(c: Config, s: State, t: Tid, ch: Choice, m: Msg, b: Id, pc: InstallPc)
    requires !pc.SetStart? && !pc.MoveTail?
    ensures KeepsTail(s, StepInstall(c, s, t, ch, m, b, pc).after)
    ensures StepInstall(c, s, t, ch, m, b, pc).after.head == s.head
    ensures StepInstall(c, s, t, ch, m, b, pc).after.got == s.got
  {
    hide StepInstall, KeepsTail, ReadersDone;
    match pc
    case TakeSpare => SpareKeepsTail(c, s, t, ch, m, b);
    case TakePool =>
      if |s.ready| > 0 {
        ReadyKeepsTail(c, s, t, ch, m, b);
      } else if ch.Pick? && ch.i < |s.retired| && ReadersDone(c, s, s.retired[ch.i]) {
        ReclaimKeepsTail(c, s, t, ch, m, b);
      } else {
        AllocateKeepsTail(c, s, t, ch, m, b);
      }
    case WipeTaken(n, j) => WipeKeepsTail(c, s, t, ch, m, b, n, j);
    case _ => LinkKeepsTail(c, s, t, ch, m, b, pc);
  }

  lemma LeaveKeepsTail(c: Config, s: State, t: Tid, pc: LeavePc)
    ensures KeepsTail(s, StepLeave(c, s, t, pc).after)
    ensures StepLeave(c, s, t, pc).after.head == s.head
    ensures StepLeave(c, s, t, pc).after.got == s.got
  {
    hide StepLeave, KeepsTail;
    if pc.Scan? || pc.Retire? { ScanKeepsTail(c, s, t, pc); } else { ReturnKeepsTail(c, s, t, pc); }
  }
}
