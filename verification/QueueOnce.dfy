/**
  Every value is copied out once: a thread about to copy a position is the first to do so.
*/
module QueueOnce {
  import opened Basics
  import opened Positions
  import opened QueueModel
  import opened QueueInvariant
  import opened QueueFrames
  import opened QueueRely
  import opened QueueStepOk
  import opened QueueTheorems
  import QueueSafety

  /** The position whose value the thread is about to copy out. */
  function Copying(pc: Pc): Option<Pos> {
    match pc
    case Reading(p, _, Copy) => Some(p)
    case Batching(SoloCopy(h, _, _, count)) => Some(Pos(h.lap, h.off + count))
    case _ => None
  }

  /** The batch of a thread on the exclusive path, copied and not yet passed by the head. */
  function Batch(pc: Pc): Option<(Pos, nat)> {
    match pc
    case Batching(SoloLook(h, _, _, count)) => Some((h, count))
    case Batching(SoloCopy(h, _, _, count)) => Some((h, count))
    case Batching(SoloNext(h, _, count)) => Some((h, count))
    case Batching(SoloMoveBlock(h, _, count, _)) => Some((h, count))
    case Batching(SoloAdvance(h, _, count, _)) => Some((h, count))
    case _ => None
  }

  predicate InBatch(batch: Option<(Pos, nat)>, p: Pos) {
    batch.Some? && p.lap == batch.value.0.lap && batch.value.0.off <= p.off < batch.value.0.off + batch.value.1
  }

  predicate InSomeBatch(pcs: seq<Pc>, p: Pos) {
    exists u :: 0 <= u < |pcs| && InBatch(Batch(pcs[u]), p)
  }

  /** What is copied is behind the head or in a thread's batch; what is being copied is not copied
      yet. */
  ghost predicate OnceOk(head: Pos, got: map<Pos, Value>, pcs: seq<Pc>) {
    && (forall p :: p in got ==> Before(p, head) || InSomeBatch(pcs, p))
    && (forall t :: 0 <= t < |pcs| && Copying(pcs[t]).Some? ==> Copying(pcs[t]).value !in got)
  }

  // ---- Steps that copy nothing ------------------------------------------------------------------

  /** Neither reading nor in a batch. */
  predicate Quiet(pc: Pc) {
    !pc.Reading? && Copying(pc).None? && Batch(pc).None?
  }

  predicate KeepsGot(s: State, s': State) {
    s'.got == s.got && s'.pcs == s.pcs
  }

  lemma QuietOnce(s: State, t: Tid, o: Outcome)
    requires t < |s.pcs| && OnceOk(s.head, s.got, s.pcs) && KeepsGot(s, o.after) && AtMost(s.head, o.after.head)
    requires Quiet(s.pcs[t]) && Quiet(o.pc)
    ensures OnceOk(o.after.head, o.after.got, s.pcs[t := o.pc])
  {
    hide Copying, Batch, InBatch, InSomeBatch;
    BatchesKept(s.pcs, t, o.pc);
  }

  /** A thread that is in no batch leaves the others in theirs. */
  lemma BatchesKept(pcs: seq<Pc>, t: Tid, pc: Pc)
    requires t < |pcs| && Batch(pcs[t]).None?
    ensures forall p :: InSomeBatch(pcs, p) ==> InSomeBatch(pcs[t := pc], p)
  {
    hide Batch;
    forall p | InSomeBatch(pcs, p) ensures InSomeBatch(pcs[t := pc], p) {
      var u :| 0 <= u < |pcs| && InBatch(Batch(pcs[u]), p);
      assert InBatch(Batch(pcs[t := pc][u]), p);
    }
  }

  lemma TailEffectsGot(c: Config, s: State, t: Tid, v: Value, h: Pos)
    ensures KeepsGot(s, TailTaken(c, s, t, v)) && KeepsGot(s, SkipSentinel(c, s)) && KeepsGot(s, s.(cached := h))
  {
  }

  lemma ClaimGot(c: Config, s: State, t: Tid, ch: Choice, v: Value, pc: ClaimPc)
    ensures KeepsGot(s, StepClaim(c, s, t, ch, v, pc).after)
  {
    hide Items, TailTaken, SkipSentinel, KeepsGot, IsSentinel;
    TailEffectsGot(c, s, t, v, if pc.BoundStore? then pc.h else s.cached);
    assert KeepsGot(s, s) by { SelfGot(s); }
    match pc
    case Claim => if ch.UseCas? {} else if IsSentinel(c.cap, s.tail) {}
    case ClaimCas(t0) => if ch.Fail? || s.tail != t0 {} else if IsSentinel(c.cap, t0) {}
    case BoundLoad =>
    case BoundLook(t0) =>
      if IsSentinel(c.cap, t0) { if ch.Fail? || s.tail != t0 {} }
      else if c.capacity.Some? && Items(c.cap, s.cached, t0) >= c.capacity.value {}
    case BoundHead(t0) => if c.capacity.Some? && Items(c.cap, s.head, t0) >= c.capacity.value {}
    case BoundStore(_, _) =>
    case BoundCas(t0) => if ch.Fail? || s.tail != t0 {}
  }

  lemma SelfGot(s: State)
    ensures KeepsGot(s, s)
  {
  }

  lemma ClaimQuiet(c: Config, s: State, t: Tid, ch: Choice, v: Value, pc: ClaimPc)
    ensures Quiet(StepClaim(c, s, t, ch, v, pc).pc)
  {
    hide Items, TailTaken, SkipSentinel;
  }

  lemma FindQuiet(c: Config, s: State, t: Tid, m: Msg, pc: FindPc)
    ensures KeepsGot(s, StepFind(c, s, t, m, pc).after) && Quiet(StepFind(c, s, t, m, pc).pc)
  {
  }

  lemma InstallQuiet(c: Config, s: State, t: Tid, ch: Choice, m: Msg, b: Id, pc: InstallPc)
    ensures Quiet(StepInstall(c, s, t, ch, m, b, pc).pc)
  {
    hide ReadersDone, SwapRemove;
  }

  lemma InstallGot(c: Config, s: State, t: Tid, ch: Choice, m: Msg, b: Id, pc: InstallPc)
    ensures KeepsGot(s, StepInstall(c, s, t, ch, m, b, pc).after)
  {
    hide StepInstall;
    if pc.SetStart? || pc.MoveTail? {
      StoreGot(c, s, t, ch, m, b, pc);
    } else {
      InstallKeepsTail(c, s, t, ch, m, b, pc);
    }
  }

  lemma StoreGot(c: Config, s: State, t: Tid, ch: Choice, m: Msg, b: Id, pc: InstallPc)
    requires pc.SetStart? || pc.MoveTail?
    ensures KeepsGot(s, StepInstall(c, s, t, ch, m, b, pc).after)
  {
  }

  lemma WriteQuiet(c: Config, s: State, t: Tid, m: Msg, b: Id, pc: WritePc)
    ensures KeepsGot(s, StepWrite(c, s, t, m, b, pc).after) && Quiet(StepWrite(c, s, t, m, b, pc).pc)
  {
  }

  lemma LookQuiet(c: Config, s: State, t: Tid, ch: Choice, pc: TakePc)
    ensures !StepTake(c, s, t, ch, pc).pc.Reading? ==> Quiet(StepTake(c, s, t, ch, pc).pc)
  {
    hide Published, Taken;
  }

  lemma TakeGot(c: Config, s: State, t: Tid, ch: Choice, pc: TakePc)
    ensures KeepsGot(s, StepTake(c, s, t, ch, pc).after)
  {
    hide Published, Taken;
    if pc.CasHead? { TakenGot(c, s, t, pc.h); }
  }

  lemma TakenGot(c: Config, s: State, t: Tid, h: Pos)
    ensures KeepsGot(s, Taken(c, s, t, h))
  {
  }

  lemma LeaveQuiet(c: Config, s: State, t: Tid, pc: LeavePc)
    ensures Quiet(StepLeave(c, s, t, pc).pc)
  {
  }

  lemma MoveQuiet(c: Config, s: State, t: Tid, p: Pos, b: Id, pc: MovePc)
    ensures KeepsGot(s, StepMove(c, s, t, p, b, pc).after) && Quiet(StepMove(c, s, t, p, b, pc).pc)
  {
    match pc
    case LoadNext => if b in s.nextOf {}
    case _ =>
  }

  lemma CallQuiet(c: Config, s: State, t: Tid, ch: Choice)
    requires t < |s.pcs| && Quiet(s.pcs[t])
    ensures KeepsGot(s, StepCall(c, s, t, ch).after) && Quiet(StepCall(c, s, t, ch).pc)
  {
  }

  /** A step of a thread that neither copies nor is in a batch, nor begins to read. */
  lemma QuietStep(c: Config, s: State, t: Tid, ch: Choice)
    requires t < |s.pcs| && !s.pcs[t].Reading? && !s.pcs[t].Batching? && !StepOf(c, s, t, ch).pc.Reading?
    ensures var o := StepOf(c, s, t, ch); KeepsGot(s, o.after) && Quiet(s.pcs[t]) && Quiet(o.pc)
  {
    hide KeepsGot, StepClaim, StepFind, StepInstall, StepWrite, StepTake, StepMove, StepLeave, StepCall, Copying, Batch,
      Quiet;
    QuietPc(s.pcs[t]);
    match s.pcs[t]
    case Claiming(v, pc) => ClaimGot(c, s, t, ch, v, pc); ClaimQuiet(c, s, t, ch, v, pc);
    case Finding(m, pc) => FindQuiet(c, s, t, m, pc);
    case Installing(m, b, pc) => InstallGot(c, s, t, ch, m, b, pc); InstallQuiet(c, s, t, ch, m, b, pc);
    case Writing(m, b, pc) => WriteQuiet(c, s, t, m, b, pc);
    case Taking(pc) => TakeGot(c, s, t, ch, pc); LookQuiet(c, s, t, ch, pc);
    case Moving(p, b, pc) => MoveQuiet(c, s, t, p, b, pc);
    case Leaving(pc) => LeaveGot(c, s, t, pc); LeaveQuiet(c, s, t, pc);
    case _ => CallQuiet(c, s, t, ch);
  }

  lemma LeaveGot(c: Config, s: State, t: Tid, pc: LeavePc)
    ensures KeepsGot(s, StepLeave(c, s, t, pc).after)
  {
    hide StepLeave;
    LeaveKeepsTail(c, s, t, pc);
  }

  lemma QuietPc(pc: Pc)
    requires !pc.Reading? && !pc.Batching?
    ensures Quiet(pc)
  {
  }

  // ---- Several consumers ------------------------------------------------------------------------

  /** With several consumers nothing is in a batch, and a reader's position is its own. */
  lemma ReaderAlone(c: Config, s: State, t: Tid, p: Pos, b: Id, pc: ReadPc)
    requires Inv(c, s) && t < |s.pcs| && s.pcs[t] == Reading(p, b, pc)
    ensures Before(p, s.head)
    ensures forall u :: 0 <= u < |s.pcs| && Copying(s.pcs[u]) == Some(p) ==> u == t
  {
    hide MemoryOk, WritersOk, GotOk, MovingOk, Published, Prefix;
    Knows(c, s, t);
    forall u | 0 <= u < |s.pcs| && Copying(s.pcs[u]) == Some(p) ensures u == t {
      Knows(c, s, u);
    }
  }

  /** The position a thread copies, and nothing else, is added to what is copied. */
  predicate OnlyCopies(got: map<Pos, Value>, got': map<Pos, Value>, p: Option<Pos>) {
    got' == got || (p.Some? && p.value in got' && got' == got[p.value := got'[p.value]])
  }

  lemma ReadGot(c: Config, s: State, t: Tid, p: Pos, b: Id, pc: ReadPc)
    ensures var s' := StepRead(c, s, t, p, b, pc).after;
      s'.pcs == s.pcs && s'.head == s.head && OnlyCopies(s.got, s'.got, if pc.Copy? then Some(p) else None)
  {
    hide StepRead;
    if pc.Copy? { CopyGot(c, s, t, p, b); } else { MarkGot(c, s, t, p, b); }
  }

  lemma CopyGot(c: Config, s: State, t: Tid, p: Pos, b: Id)
    ensures var s' := StepRead(c, s, t, p, b, Copy).after;
      s'.pcs == s.pcs && s'.head == s.head && OnlyCopies(s.got, s'.got, Some(p))
  {
    hide CopiedOut;
    if Slot(b, p.off) in s.value { CopiedOutGot(c, s, p, s.value[Slot(b, p.off)]); }
  }

  lemma CopiedOutGot(c: Config, s: State, p: Pos, v: Value)
    ensures var s' := CopiedOut(c, s, p, v); s'.pcs == s.pcs && s'.head == s.head && s'.got == s.got[p := v]
  {
  }

  lemma MarkGot(c: Config, s: State, t: Tid, p: Pos, b: Id)
    ensures var s' := StepRead(c, s, t, p, b, Mark).after;
      s'.pcs == s.pcs && s'.head == s.head && s'.got == s.got
  {
  }

  lemma ReadQuiet(c: Config, s: State, t: Tid, p: Pos, b: Id, pc: ReadPc)
    ensures Copying(StepRead(c, s, t, p, b, pc).pc).None? && Batch(StepRead(c, s, t, p, b, pc).pc).None?
  {
  }

  lemma ReadOnce(c: Config, s: State, t: Tid, p: Pos, b: Id, pc: ReadPc)
    requires Inv(c, s) && OnceOk(s.head, s.got, s.pcs) && t < |s.pcs| && s.pcs[t] == Reading(p, b, pc)
    ensures var o := StepRead(c, s, t, p, b, pc); o.after.pcs == s.pcs
    ensures var o := StepRead(c, s, t, p, b, pc); OnceOk(o.after.head, o.after.got, s.pcs[t := o.pc])
  {
    hide Inv, StepRead, InSomeBatch;
    ReaderAlone(c, s, t, p, b, pc);
    ReadGot(c, s, t, p, b, pc);
    ReadQuiet(c, s, t, p, b, pc);
    BatchesKept(s.pcs, t, StepRead(c, s, t, p, b, pc).pc);
  }

  lemma TakeOnce(c: Config, s: State, t: Tid, ch: Choice, pc: TakePc)
    requires Inv(c, s) && OnceOk(s.head, s.got, s.pcs) && t < |s.pcs| && s.pcs[t] == Taking(pc)
    requires StepTake(c, s, t, ch, pc).pc.Reading? && AtMost(s.head, StepTake(c, s, t, ch, pc).after.head)
    ensures var o := StepTake(c, s, t, ch, pc); o.after.pcs == s.pcs
    ensures var o := StepTake(c, s, t, ch, pc); OnceOk(o.after.head, o.after.got, s.pcs[t := o.pc])
  {
    hide Inv, StepTake;
    NoBatch(c, s, t);
    TakeGot(c, s, t, ch, pc);
    TakesHead(c, s, t, ch, pc);
  }

  lemma TakesHead(c: Config, s: State, t: Tid, ch: Choice, pc: TakePc)
    ensures var now := StepTake(c, s, t, ch, pc).pc; now.Reading? ==> now.p == s.head && now.read.Copy?
  {
    hide Published, Taken;
  }

  lemma NoBatch(c: Config, s: State, t: Tid)
    requires Inv(c, s) && t < |s.pcs| && s.pcs[t].Taking?
    ensures s.head.off <= c.cap && forall p :: !InSomeBatch(s.pcs, p)
  {
    hide SharedOk;
    Knows(c, s, t);
    forall u | 0 <= u < |s.pcs| ensures Batch(s.pcs[u]).None? { Knows(c, s, u); }
  }

  // ---- The exclusive consumer -------------------------------------------------------------------

  lemma SoloIsFirst(c: Config, s: State, t: Tid, pc: SoloPc)
    requires Inv(c, s) && t < |s.pcs| && s.pcs[t] == Batching(pc)
    ensures Batch(s.pcs[t]).Some? ==> Batch(s.pcs[t]).value.0 == s.head
    ensures pc.SoloAdvance? && pc.last ==> pc.h.off + pc.count <= c.cap
    ensures forall u :: 0 <= u < |s.pcs| && u != t ==> Copying(s.pcs[u]).None? && Batch(s.pcs[u]).None?
  {
    hide SharedOk, Published, Prefix;
    Knows(c, s, t);
    forall u | 0 <= u < |s.pcs| && u != t ensures Copying(s.pcs[u]).None? && Batch(s.pcs[u]).None? {
      Knows(c, s, u);
    }
  }

  /** One step of the consumer's path: its batch stays, grows by the position copied, or is passed by
      the head. */
  lemma SoloBatchMoves(c: Config, s: State, t: Tid, pc: SoloPc)
    requires !StepSolo(c, s, t, pc).pc.Crashed?
    ensures var now := StepSolo(c, s, t, pc).pc;
      match pc
      case SoloHead(_) => Batch(now).None?
      case SoloBlock(_, h) => Batch(now) == Some((h, 0))
      case SoloLook(h, _, _, count) => Batch(now) == Some((h, count)) || (count == 0 && now.ReportNone?)
      case SoloCopy(h, _, _, count) => Batch(now) == Some((h, count + 1))
      case SoloNext(h, _, count) => Batch(now) == Some((h, count))
      case SoloMoveBlock(h, _, count, _) => Batch(now) == Some((h, count))
      case _ => Batch(now).None?
  {
    hide Published, HeadBlockMoved, Advanced;
  }

  lemma SoloGot(c: Config, s: State, t: Tid, pc: SoloPc)
    ensures var s' := StepSolo(c, s, t, pc).after;
      s'.pcs == s.pcs
      && OnlyCopies(s.got, s'.got, if pc.SoloCopy? then Some(Pos(pc.h.lap, pc.h.off + pc.count)) else None)
  {
    hide StepSolo;
    if pc.SoloCopy? { SoloCopyGot(c, s, t, pc); } else { SoloKeepsGot(c, s, t, pc); }
  }

  lemma SoloCopyGot(c: Config, s: State, t: Tid, pc: SoloPc)
    requires pc.SoloCopy?
    ensures var s' := StepSolo(c, s, t, pc).after;
      s'.pcs == s.pcs && OnlyCopies(s.got, s'.got, Some(Pos(pc.h.lap, pc.h.off + pc.count)))
  {
    if Slot(pc.b, pc.h.off + pc.count) in s.value {}
  }

  lemma SoloKeepsGot(c: Config, s: State, t: Tid, pc: SoloPc)
    requires !pc.SoloCopy?
    ensures StepSolo(c, s, t, pc).after.pcs == s.pcs && StepSolo(c, s, t, pc).after.got == s.got
  {
    hide Published, HeadBlockMoved, Advanced;
    if pc.SoloMoveBlock? { EffectsGot(s, t, pc.h, pc.b, pc.n, pc.count, false); }
    if pc.SoloAdvance? { EffectsGot(s, t, pc.h, pc.b, pc.b, pc.count, pc.last); }
  }

  lemma EffectsGot(s: State, t: Tid, h: Pos, b: Id, n: Id, count: nat, last: bool)
    ensures KeepsGot(s, HeadBlockMoved(s, t, h.lap, b, n)) && KeepsGot(s, Advanced(s, h, count, last))
  {
    hide Range;
  }

  lemma SoloHeadMoves(c: Config, s: State, t: Tid, pc: SoloPc)
    ensures var head' := StepSolo(c, s, t, pc).after.head;
      if pc.SoloAdvance? then head' == if pc.last then Pos(pc.h.lap + 1, 0) else Pos(pc.h.lap, pc.h.off + pc.count)
      else head' == s.head
  {
    hide Published, Range;
  }

  lemma SoloOnce(c: Config, s: State, t: Tid, pc: SoloPc)
    requires Inv(c, s) && OnceOk(s.head, s.got, s.pcs) && t < |s.pcs| && s.pcs[t] == Batching(pc)
    requires AtMost(s.head, StepSolo(c, s, t, pc).after.head) && !StepSolo(c, s, t, pc).pc.Crashed?
    ensures var o := StepSolo(c, s, t, pc); o.after.pcs == s.pcs
    ensures var o := StepSolo(c, s, t, pc); OnceOk(o.after.head, o.after.got, s.pcs[t := o.pc])
  {
    hide Inv, StepSolo;
    SoloIsFirst(c, s, t, pc);
    SoloBatchMoves(c, s, t, pc);
    SoloGot(c, s, t, pc);
    SoloHeadMoves(c, s, t, pc);
    SoloCopyNext(c, s, t, pc);
    var o := StepSolo(c, s, t, pc);
    var pcs' := s.pcs[t := o.pc];
    OnlyBatch(s.pcs, t);
    assert pcs'[t] == o.pc;
    forall p | p in o.after.got ensures Before(p, o.after.head) || InSomeBatch(pcs', p) {
      assert InBatch(Batch(pcs'[t]), p) ==> InSomeBatch(pcs', p);
      if p in s.got && !Before(p, s.head) {
        assert InBatch(Batch(s.pcs[t]), p);
      }
    }
    forall u | 0 <= u < |pcs'| && Copying(pcs'[u]).Some? ensures Copying(pcs'[u]).value !in o.after.got {
      assert u == t;
    }
  }

  lemma OnlyBatch(pcs: seq<Pc>, t: Tid)
    requires t < |pcs| && forall u :: 0 <= u < |pcs| && u != t ==> Batch(pcs[u]).None?
    ensures forall p :: InSomeBatch(pcs, p) ==> InBatch(Batch(pcs[t]), p)
  {
    hide Batch;
  }

  /** What it copies next is just past its batch. */
  lemma SoloCopyNext(c: Config, s: State, t: Tid, pc: SoloPc)
    ensures var now := StepSolo(c, s, t, pc).pc;
      Copying(now).Some? ==>
        && pc.SoloLook? && Batch(now).Some?
        && Copying(now).value == Pos(Batch(now).value.0.lap, Batch(now).value.0.off + Batch(now).value.1)
  {
    hide Published;
  }

  // ---- Every step, every run --------------------------------------------------------------------

  lemma EffectOnce(c: Config, s: State, t: Tid, ch: Choice)
    requires Inv(c, s) && OnceOk(s.head, s.got, s.pcs) && t < |s.pcs|
    requires AtMost(s.head, StepOf(c, s, t, ch).after.head) && !StepOf(c, s, t, ch).pc.Crashed?
    ensures var o := StepOf(c, s, t, ch); o.after.pcs == s.pcs && OnceOk(o.after.head, o.after.got, s.pcs[t := o.pc])
  {
    hide Inv, OnceOk, StepClaim, StepFind, StepInstall, StepWrite, StepTake, StepRead, StepMove, StepLeave, StepSolo,
      StepCall, AtMost, Quiet;
    var o := StepOf(c, s, t, ch);
    if s.pcs[t].Reading? {
      ReadOnce(c, s, t, s.pcs[t].p, s.pcs[t].b, s.pcs[t].read);
    } else if s.pcs[t].Batching? {
      SoloOnce(c, s, t, s.pcs[t].solo);
    } else if o.pc.Reading? {
      OnlyTakesRead(c, s, t, ch);
      TakeOnce(c, s, t, ch, s.pcs[t].take);
    } else {
      QuietStep(c, s, t, ch);
      QuietOnce(s, t, o);
    }
  }

  /** Only the head's compare-exchange begins a read. */
  lemma OnlyTakesRead(c: Config, s: State, t: Tid, ch: Choice)
    requires t < |s.pcs| && !s.pcs[t].Reading? && !s.pcs[t].Batching? && StepOf(c, s, t, ch).pc.Reading?
    ensures s.pcs[t].Taking?
  {
    hide StepClaim, StepFind, StepInstall, StepWrite, StepTake, StepMove, StepLeave, Copying, Batch;
    match s.pcs[t]
    case Claiming(v, pc) => ClaimQuiet(c, s, t, ch, v, pc);
    case Finding(m, pc) => FindQuiet(c, s, t, m, pc);
    case Installing(m, b, pc) => InstallQuiet(c, s, t, ch, m, b, pc);
    case Writing(m, b, pc) => WriteQuiet(c, s, t, m, b, pc);
    case Moving(p, b, pc) => MoveQuiet(c, s, t, p, b, pc);
    case Leaving(pc) => LeaveQuiet(c, s, t, pc);
    case _ =>
  }

  lemma StepOnce(c: Config, s: State, t: Tid, ch: Choice)
    requires Inv(c, s) && OnceOk(s.head, s.got, s.pcs) && t < |s.pcs|
    ensures var s' := Step(c, s, t, ch); OnceOk(s'.head, s'.got, s'.pcs)
  {
    hide Inv, OnceOk, StepOf, SharedOk, KeepsOthers, KeepsWrites, KeepsHead, ThreadOk, Published, AtMost;
    StepIsOk(c, s, t, ch);
    QueueSafety.StepMoves(c, s, t, ch);
    NotCrashed(c, Step(c, s, t, ch), t, StepOf(c, s, t, ch).pc);
    EffectOnce(c, s, t, ch);
  }

  lemma NotCrashed(c: Config, s: State, t: Tid, pc: Pc)
    requires ThreadOk(c, s, t, pc)
    ensures !pc.Crashed?
  {
  }

  lemma {:induction false} RunOnce(c: Config, run: seq<State>, acts: seq<Act>, j: nat)
    requires IsRun(c, run, acts) && j < |run|
    ensures OnceOk(run[j].head, run[j].got, run[j].pcs)
    decreases j
  {
    hide Inv, OnceOk, Step;
    if j == 0 {
      OnceStarts(c, run[0]);
    } else {
      RunOnce(c, run, acts, j - 1);
      RunInv(c, run, acts, j - 1);
      var a := acts[j - 1];
      assert run[j] == run[(j - 1) + 1] == Step(c, run[j - 1], a.t, a.ch);
      StepOnce(c, run[j - 1], a.t, a.ch);
    }
  }

  lemma OnceStarts(c: Config, s: State)
    requires Initial(c, s)
    ensures OnceOk(s.head, s.got, s.pcs)
  {
  }

  /** Only a thread that is about to copy changes what is copied, and by the one position it is about
      to copy. */
  lemma GotChange(c: Config, s: State, t: Tid, ch: Choice)
    requires t < |s.pcs|
    ensures OnlyCopies(s.got, Step(c, s, t, ch).got, Copying(s.pcs[t]))
  {
    hide StepClaim, StepFind, StepInstall, StepWrite, StepTake, StepRead, StepMove, StepLeave, StepSolo, StepCall,
      Quiet;
    if s.pcs[t].Reading? {
      ReadGot(c, s, t, s.pcs[t].p, s.pcs[t].b, s.pcs[t].read);
    } else if s.pcs[t].Batching? {
      SoloGot(c, s, t, s.pcs[t].solo);
    } else if StepOf(c, s, t, ch).pc.Reading? {
      OnlyTakesRead(c, s, t, ch);
      TakeGot(c, s, t, ch, s.pcs[t].take);
    } else {
      QuietStep(c, s, t, ch);
    }
  }

  /** A step adds at most one position to what is copied, and one not copied before: every value is
      copied out once. */
  lemma CopiedOnce(c: Config, run: seq<State>, acts: seq<Act>, i: nat)
    requires IsRun(c, run, acts) && i < |acts|
    ensures var got, got', p := run[i].got, run[i + 1].got, Copying(run[i].pcs[acts[i].t]);
      got' == got || (p.Some? && p.value !in got && p.value in got' && got' == got[p.value := got'[p.value]])
  {
    hide Step, Copying;
    RunOnce(c, run, acts, i);
    GotChange(c, run[i], acts[i].t, acts[i].ch);
  }
}
