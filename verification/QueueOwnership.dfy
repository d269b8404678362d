/**
  Who holds what: the live chain, the pools and the threads' hands share out the blocks, the
  exclusive consumer recycles safely, and dropping a quiescent queue releases everything once.
*/
module QueueOwnership {
  import opened Basics
  import opened Positions
  import opened QueueModel
  import opened QueueInvariant
  import opened QueueRely
  import opened QueueStepOk
  import opened QueueTheorems

  // ---- The live chain ---------------------------------------------------------------------------

  /** From the head's block to the newest one the blocks are distinct, each serves its lap, each
      points back at its predecessor and, once its last value is published, on to its successor;
      the head is at most one ahead of the tail, past a sentinel. */
  lemma ChainShape(c: Config, run: seq<State>, acts: seq<Act>, j: nat)
    requires IsRun(c, run, acts) && j < |run|
    ensures var s := run[j];
      && s.headLap < |s.serves| && s.headBlock == s.serves[s.headLap]
      && (forall k :: s.headLap <= k < |s.serves| ==> StartIs(s, s.serves[k], k))
      && (forall k, l :: s.headLap <= k < l < |s.serves| ==> s.serves[k] != s.serves[l])
      && (forall k :: s.headLap < k < |s.serves| ==>
            s.serves[k] in s.prevOf && s.prevOf[s.serves[k]] == s.serves[k - 1])
      && (forall k :: s.headLap <= k < |s.serves| && s.serves[k] in s.nextOf ==>
            k + 1 < |s.serves| && s.nextOf[s.serves[k]] == s.serves[k + 1])
      && (forall k :: s.headLap <= k < |s.serves| && Published(c, s.tail, s.writer, Pos(k, c.cap - 1)) ==>
            s.serves[k] in s.nextOf)
      && (AtMost(s.head, s.tail) || (s.tail.off == c.cap && s.head == Next(c.cap, s.tail)))
  {
    hide Inv, IsRun;
    RunInv(c, run, acts, j);
    StateChain(c, run[j]);
    StateLinks(c, run[j]);
  }

  lemma StateChain(c: Config, s: State)
    requires Inv(c, s)
    ensures s.headLap < |s.serves| && s.headBlock == s.serves[s.headLap]
    ensures forall k :: s.headLap <= k < |s.serves| ==> StartIs(s, s.serves[k], k)
    ensures forall k, l :: s.headLap <= k < l < |s.serves| ==> s.serves[k] != s.serves[l]
  {
    hide HeadTailOk, CountsOk, LinksOk, MarksOk, TagsOk, ContentOk, PoolOk, OrderOk, DutyOk, ThreadsOk;
  }

  lemma StateLinks(c: Config, s: State)
    requires Inv(c, s)
    ensures forall k :: s.headLap < k < |s.serves| ==>
      s.serves[k] in s.prevOf && s.prevOf[s.serves[k]] == s.serves[k - 1]
    ensures forall k :: s.headLap <= k < |s.serves| && s.serves[k] in s.nextOf ==>
      k + 1 < |s.serves| && s.nextOf[s.serves[k]] == s.serves[k + 1]
    ensures forall k :: s.headLap <= k < |s.serves| && Published(c, s.tail, s.writer, Pos(k, c.cap - 1)) ==>
      s.serves[k] in s.nextOf
    ensures AtMost(s.head, s.tail) || (s.tail.off == c.cap && s.head == Next(c.cap, s.tail))
  {
    hide CountsOk, StartOk, MarksOk, TagsOk, ContentOk, PoolOk, OrderOk, DutyOk, ThreadsOk, Published;
  }

  // ---- The exclusive consumer -------------------------------------------------------------------

  /** Receives on an exclusive queue never overlap, although the receiver may go from thread to
      thread. */
  lemma SoloAlone(c: Config, run: seq<State>, acts: seq<Act>, j: nat, t: Tid, u: Tid)
    requires IsRun(c, run, acts) && j < |run| && c.exclusive
    requires InReceive(t, run[j].pcs) && InReceive(u, run[j].pcs)
    ensures t == u == run[j].holder
  {
    hide Inv, IsRun;
    RunInv(c, run, acts, j);
    HolderReceives(c, run[j], t);
    HolderReceives(c, run[j], u);
  }

  lemma HolderReceives(c: Config, s: State, t: Tid)
    requires Inv(c, s) && c.exclusive && InReceive(t, s.pcs)
    ensures t == s.holder
  {
    hide SharedOk;
    Knows(c, s, t);
  }

  /** Between receives the head of an exclusive queue rests on a value position, and its head block is
      the block of that position. */
  lemma SoloHeadRests(c: Config, run: seq<State>, acts: seq<Act>, j: nat)
    requires IsRun(c, run, acts) && j < |run| && c.exclusive && !InReceive(run[j].holder, run[j].pcs)
    ensures run[j].head.off < c.cap && Serves(run[j].serves, run[j].head.lap, run[j].headBlock)
  {
    hide Inv, IsRun;
    RunInv(c, run, acts, j);
    RestingHead(c, run[j]);
  }

  lemma RestingHead(c: Config, s: State)
    requires Inv(c, s) && c.exclusive && !InReceive(s.holder, s.pcs)
    ensures s.moving.None? && s.head.off < c.cap && Serves(s.serves, s.head.lap, s.headBlock)
  {
    hide HeadTailOk, CountsOk, StartOk, LinksOk, MarksOk, TagsOk, ContentOk, PoolOk, OrderOk, WritersOk, ReadersOk,
      GotOk;
    if s.moving.Some? {
      Knows(c, s, s.moving.value);
    }
  }

  /** When the exclusive consumer recycles a block without looking at any mark, it has copied out
      all of the block's values and no claim is left in that lap or before it. */
  lemma SoloRecycleSafe(c: Config, run: seq<State>, acts: seq<Act>, j: nat, t: Tid, b: Id)
    requires IsRun(c, run, acts) && j < |run| && t < |run[j].pcs| && run[j].pcs[t] == Batching(SoloPool(b))
    ensures var s := run[j];
      && b in s.place && s.place[b].Finishing?
      && (forall i :: 0 <= i < c.cap ==> Pos(s.place[b].lap, i) in s.got)
      && (forall p :: p in s.writer ==> p.lap > s.place[b].lap)
      && s.reader == map[]
  {
    hide Inv, IsRun;
    RunInv(c, run, acts, j);
    SoloRecycleState(c, run[j], t, b);
  }

  lemma SoloRecycleState(c: Config, s: State, t: Tid, b: Id)
    requires Inv(c, s) && t < |s.pcs| && s.pcs[t] == Batching(SoloPool(b))
    ensures b in s.place && s.place[b].Finishing? && s.reader == map[]
    ensures forall i :: 0 <= i < c.cap ==> Pos(s.place[b].lap, i) in s.got
    ensures forall p :: p in s.writer ==> p.lap > s.place[b].lap
  {
    hide HeadTailOk, CountsOk, LiveOk, StartOk, LinksOk, MarksOk, TagsOk, ContentOk, PoolOk, OrderOk, MovingOk;
    Knows(c, s, t);
  }

  // ---- Every block is somewhere, once -----------------------------------------------------------

  /** The block a thread has in its hands. */
  function Holding(pc: Pc): Option<Id> {
    match pc
    case Installing(_, _, WipeTaken(n, _)) => Some(n)
    case Installing(_, _, SetPrev(n)) => Some(n)
    case Installing(_, _, ClearNext(n)) => Some(n)
    case Installing(_, _, SetStart(n)) => Some(n)
    case Moving(_, b, SwapHead) => Some(b)
    case Leaving(Scan(_, b, _)) => Some(b)
    case Leaving(Retire(_, b)) => Some(b)
    case Leaving(Wipe(b, _)) => Some(b)
    case Leaving(Recycle(b)) => Some(b)
    case Leaving(PushReady(b)) => Some(b)
    case Batching(SoloAdvance(_, b, _, true)) => Some(b)
    case Batching(SoloPool(b)) => Some(b)
    case _ => None
  }

  /** A block recorded as owned by a thread is the one that thread has in its hands. */
  ghost predicate HandsOk(place: map<Id, Place>, pcs: seq<Pc>) {
    forall b :: b in place && OwnerOf(place[b]).Some? ==>
      OwnerOf(place[b]).value < |pcs| && Holding(pcs[OwnerOf(place[b]).value]) == Some(b)
  }

  /** Ownership moves only with the thread that steps: it keeps what it holds or hands it on. */
  ghost predicate HandsMove(place: map<Id, Place>, place': map<Id, Place>, t: Tid, pc: Pc) {
    && (forall b :: b in place' && OwnerOf(place'[b]).Some? && OwnerOf(place'[b]).value != t ==>
          b in place && place[b] == place'[b])
    && (forall b :: b in place' && OwnerOf(place'[b]) == Some(t) ==> Holding(pc) == Some(b))
  }

  /** What thread `t` owns is what it holds. */
  ghost predicate OwnHands(place: map<Id, Place>, t: Tid, pc: Pc) {
    forall b :: b in place && OwnerOf(place[b]) == Some(t) ==> Holding(pc) == Some(b)
  }

  lemma HandOver(place: map<Id, Place>, t: Tid, was: Pc, b: Id, pl: Place, pc: Pc)
    requires OwnHands(place, t, was) && (Holding(was).Some? ==> Holding(was) == Some(b))
    requires OwnerOf(pl).Some? ==> OwnerOf(pl).value == t && Holding(pc) == Some(b)
    ensures HandsMove(place, place[b := pl], t, pc)
  {
  }

  lemma KeepHands(place: map<Id, Place>, t: Tid, was: Pc, pc: Pc)
    requires OwnHands(place, t, was) && (Holding(was).Some? ==> Holding(pc) == Holding(was))
    ensures HandsMove(place, place, t, pc)
  {
  }

  lemma InstallHands(c: Config, s: State, t: Tid, ch: Choice, m: Msg, b: Id, pc: InstallPc)
    requires OwnHands(s.place, t, Installing(m, b, pc))
    ensures var o := StepInstall(c, s, t, ch, m, b, pc);
      o.after.pcs == s.pcs && HandsMove(s.place, o.after.place, t, o.pc)
  {
    hide StepInstall, HandsMove, OwnHands;
    match pc
    case TakeSpare => TakeHands(c, s, t, ch, m, b, pc);
    case TakePool => TakeHands(c, s, t, ch, m, b, pc);
    case WipeTaken(n, j) => WipeHands(c, s, t, ch, m, b, n, j);
    case _ => LinkHands(c, s, t, ch, m, b, pc);
  }

  lemma WipeHands(c: Config, s: State, t: Tid, ch: Choice, m: Msg, b: Id, n: Id, j: nat)
    requires OwnHands(s.place, t, Installing(m, b, WipeTaken(n, j)))
    ensures var o := StepInstall(c, s, t, ch, m, b, WipeTaken(n, j));
      o.after.pcs == s.pcs && HandsMove(s.place, o.after.place, t, o.pc)
  {
    hide HandsMove, OwnHands;
    var was, o := Installing(m, b, WipeTaken(n, j)), StepInstall(c, s, t, ch, m, b, WipeTaken(n, j));
    if j < c.cap {
      KeepHands(s.place, t, was, o.pc);
    } else {
      HandOver(s.place, t, was, n, Held(t), o.pc);
    }
  }

  lemma LinkHands(c: Config, s: State, t: Tid, ch: Choice, m: Msg, b: Id, pc: InstallPc)
    requires !pc.TakeSpare? && !pc.TakePool? && !pc.WipeTaken? && OwnHands(s.place, t, Installing(m, b, pc))
    ensures var o := StepInstall(c, s, t, ch, m, b, pc);
      o.after.pcs == s.pcs && HandsMove(s.place, o.after.place, t, o.pc)
  {
    hide HandsMove, OwnHands;
    var was, o := Installing(m, b, pc), StepInstall(c, s, t, ch, m, b, pc);
    if pc.SetStart? {
      HandOver(s.place, t, was, pc.n, Live(m.p.lap + 1), o.pc);
    } else {
      KeepHands(s.place, t, was, o.pc);
    }
  }

  lemma TakeHands(c: Config, s: State, t: Tid, ch: Choice, m: Msg, b: Id, pc: InstallPc)
    requires OwnHands(s.place, t, Installing(m, b, pc)) && (pc.TakeSpare? || pc.TakePool?)
    ensures var o := StepInstall(c, s, t, ch, m, b, pc);
      o.after.pcs == s.pcs && HandsMove(s.place, o.after.place, t, o.pc)
  {
    hide StepInstall, HandsMove, OwnHands, Holding;
    var was, o := Installing(m, b, pc), StepInstall(c, s, t, ch, m, b, pc);
    TakeGives(c, s, t, ch, m, b, pc);
    EmptyHanded(m, b, o.pc);
    EmptyHanded(m, b, was);
    match o.pc
    case Installing(_, _, SetPrev(n)) => HandOver(s.place, t, was, n, Held(t), o.pc);
    case Installing(_, _, WipeTaken(n, _)) => HandOver(s.place, t, was, n, Wiping(t), o.pc);
    case _ => KeepHands(s.place, t, was, o.pc);
  }

  lemma EmptyHanded(m: Msg, b: Id, pc: Pc)
    ensures pc == Installing(m, b, TakeSpare) || pc == Installing(m, b, TakePool) ==> Holding(pc).None?
    ensures pc.Installing? && pc.install.SetPrev? ==> Holding(pc) == Some(pc.install.n)
    ensures pc.Installing? && pc.install.WipeTaken? ==> Holding(pc) == Some(pc.install.n)
  {
  }

  /** Taking a block leaves it in the taker's hands, and every other block where it was. */
  lemma TakeGives(c: Config, s: State, t: Tid, ch: Choice, m: Msg, b: Id, pc: InstallPc)
    requires pc.TakeSpare? || pc.TakePool?
    ensures var o := StepInstall(c, s, t, ch, m, b, pc);
      && o.after.pcs == s.pcs && o.pc.Installing?
      && match o.pc.install
         case SetPrev(n) => o.after.place == s.place[n := Held(t)]
         case WipeTaken(n, _) => o.after.place == s.place[n := Wiping(t)]
         case _ => o.pc == Installing(m, b, TakePool) && o.after.place == s.place
  {
    hide StepInstall, ReadersDone;
    if pc.TakeSpare? {
      SpareGives(c, s, t, ch, m, b);
    } else if |s.ready| == 0 && ch.Pick? && ch.i < |s.retired| && ReadersDone(c, s, s.retired[ch.i]) {
      RetiredGives(c, s, t, ch, m, b);
    } else {
      PoolGives(c, s, t, ch, m, b);
    }
  }

  lemma SpareGives(c: Config, s: State, t: Tid, ch: Choice, m: Msg, b: Id)
    ensures var o := StepInstall(c, s, t, ch, m, b, TakeSpare);
      && o.after.pcs == s.pcs
      && if s.spare.Some? then
           o.pc == Installing(m, b, SetPrev(s.spare.value)) && o.after.place == s.place[s.spare.value := Held(t)]
         else o.pc == Installing(m, b, TakePool) && o.after.place == s.place
  {
    if s.spare.Some? {}
  }

  lemma RetiredGives(c: Config, s: State, t: Tid, ch: Choice, m: Msg, b: Id)
    requires |s.ready| == 0 && ch.Pick? && ch.i < |s.retired| && ReadersDone(c, s, s.retired[ch.i])
    ensures var o := StepInstall(c, s, t, ch, m, b, TakePool);
      && o.after.pcs == s.pcs && o.pc == Installing(m, b, WipeTaken(s.retired[ch.i], 0))
      && o.after.place == s.place[s.retired[ch.i] := Wiping(t)]
  {
    hide ReadersDone, SwapRemove;
  }

  lemma PoolGives(c: Config, s: State, t: Tid, ch: Choice, m: Msg, b: Id)
    requires |s.ready| > 0 || !(ch.Pick? && ch.i < |s.retired| && ReadersDone(c, s, s.retired[ch.i]))
    ensures var o := StepInstall(c, s, t, ch, m, b, TakePool);
      var n := if |s.ready| > 0 then s.ready[|s.ready| - 1] else s.blocks;
      o.after.pcs == s.pcs && o.pc == Installing(m, b, SetPrev(n)) && o.after.place == s.place[n := Held(t)]
  {
    hide ReadersDone, SwapRemove;
    if |s.ready| > 0 {}
  }

  lemma ScanHands(c: Config, s: State, t: Tid, pc: LeavePc)
    requires OwnHands(s.place, t, Leaving(pc)) && (pc.Scan? || pc.Retire?)
    ensures var o := StepLeave(c, s, t, pc); o.after.pcs == s.pcs && HandsMove(s.place, o.after.place, t, o.pc)
  {
    hide HandsMove, OwnHands;
    var was, o := Leaving(pc), StepLeave(c, s, t, pc);
    if pc.Retire? { HandOver(s.place, t, was, pc.b, Retired(pc.k), o.pc); }
    else if pc.j >= c.cap - 1 { HandOver(s.place, t, was, pc.b, Wiping(t), o.pc); }
    else { KeepHands(s.place, t, was, o.pc); }
  }

  lemma ReturnHands(c: Config, s: State, t: Tid, pc: LeavePc)
    requires OwnHands(s.place, t, Leaving(pc)) && (pc.Wipe? || pc.Recycle? || pc.PushReady?)
    ensures var o := StepLeave(c, s, t, pc); o.after.pcs == s.pcs && HandsMove(s.place, o.after.place, t, o.pc)
  {
    hide HandsMove, OwnHands, StepLeave, Holding, OwnerOf;
    match pc
    case PushReady(b) => ReadyHands(c, s, t, b);
    case Recycle(b) => SpareHands(c, s, t, b);
    case Wipe(b, j) => WipedHands(c, s, t, b, j);
  }

  lemma ReadyHands(c: Config, s: State, t: Tid, b: Id)
    requires OwnHands(s.place, t, Leaving(PushReady(b)))
    ensures var o := StepLeave(c, s, t, PushReady(b));
      o.after.pcs == s.pcs && HandsMove(s.place, o.after.place, t, o.pc)
  {
    hide HandsMove, OwnHands;
    HandOver(s.place, t, Leaving(PushReady(b)), b, InReady, Idle);
  }

  lemma SpareHands(c: Config, s: State, t: Tid, b: Id)
    requires OwnHands(s.place, t, Leaving(Recycle(b)))
    ensures var o := StepLeave(c, s, t, Recycle(b)); o.after.pcs == s.pcs && HandsMove(s.place, o.after.place, t, o.pc)
  {
    hide HandsMove, OwnHands;
    if s.spare.None? { HandOver(s.place, t, Leaving(Recycle(b)), b, InSpare, Idle); }
    else { KeepHands(s.place, t, Leaving(Recycle(b)), Leaving(PushReady(b))); }
  }

  lemma WipedHands(c: Config, s: State, t: Tid, b: Id, j: nat)
    requires OwnHands(s.place, t, Leaving(Wipe(b, j)))
    ensures var o := StepLeave(c, s, t, Wipe(b, j)); o.after.pcs == s.pcs && HandsMove(s.place, o.after.place, t, o.pc)
  {
    hide HandsMove, OwnHands;
    if j < c.cap { KeepHands(s.place, t, Leaving(Wipe(b, j)), Leaving(Wipe(b, j + 1))); }
    else { HandOver(s.place, t, Leaving(Wipe(b, j)), b, Held(t), Leaving(Recycle(b))); }
  }

  lemma MoveHands(c: Config, s: State, t: Tid, p: Pos, b: Id, pc: MovePc)
    requires OwnHands(s.place, t, Moving(p, b, pc))
    ensures var o := StepMove(c, s, t, p, b, pc); o.after.pcs == s.pcs && HandsMove(s.place, o.after.place, t, o.pc)
  {
  }

  lemma SoloHands(c: Config, s: State, t: Tid, pc: SoloPc)
    requires OwnHands(s.place, t, Batching(pc))
    ensures var o := StepSolo(c, s, t, pc); o.after.pcs == s.pcs && HandsMove(s.place, o.after.place, t, o.pc)
  {
    hide Published, Range;
  }

  /** The other steps leave every block where it is. */
  lemma ClaimHands(c: Config, s: State, t: Tid, ch: Choice, v: Value, pc: ClaimPc)
    ensures var o := StepClaim(c, s, t, ch, v, pc); o.after.place == s.place && o.after.pcs == s.pcs
  {
    hide Items, Next, TailTaken, SkipSentinel, IsSentinel;
    TailHands(c, s, t, v);
    match pc
    case Claim =>
    case ClaimCas(_) =>
    case BoundLook(_) =>
    case _ =>
  }

  lemma TailHands(c: Config, s: State, t: Tid, v: Value)
    ensures TailTaken(c, s, t, v).place == s.place && TailTaken(c, s, t, v).pcs == s.pcs
    ensures SkipSentinel(c, s).place == s.place && SkipSentinel(c, s).pcs == s.pcs
  {
  }

  lemma FindHands(c: Config, s: State, t: Tid, m: Msg, pc: FindPc)
    ensures var o := StepFind(c, s, t, m, pc); o.after == s
  {
  }

  lemma WriteHands(c: Config, s: State, t: Tid, m: Msg, b: Id, pc: WritePc)
    ensures var o := StepWrite(c, s, t, m, b, pc); o.after.place == s.place && o.after.pcs == s.pcs
  {
  }

  lemma TakenHands(c: Config, s: State, t: Tid, h: Pos)
    ensures Taken(c, s, t, h).place == s.place && Taken(c, s, t, h).pcs == s.pcs
  {
  }

  lemma PopHands(c: Config, s: State, t: Tid, ch: Choice, pc: TakePc)
    ensures var o := StepTake(c, s, t, ch, pc); o.after.place == s.place && o.after.pcs == s.pcs
  {
    hide Published, Taken, IsSentinel;
    if pc.CasHead? { TakenHands(c, s, t, pc.h); }
  }

  lemma ReadHands(c: Config, s: State, t: Tid, p: Pos, b: Id, pc: ReadPc)
    ensures var o := StepRead(c, s, t, p, b, pc); o.after.place == s.place && o.after.pcs == s.pcs
  {
    hide StepRead;
    if pc.Copy? { CopyHands(c, s, t, p, b); } else { MarkHands(c, s, t, p, b); }
  }

  lemma CopyHands(c: Config, s: State, t: Tid, p: Pos, b: Id)
    ensures var o := StepRead(c, s, t, p, b, Copy); o.after.place == s.place && o.after.pcs == s.pcs
  {
    hide CopiedOut;
    if Slot(b, p.off) in s.value { CopiedOutHands(c, s, p, s.value[Slot(b, p.off)]); }
  }

  lemma CopiedOutHands(c: Config, s: State, p: Pos, v: Value)
    ensures CopiedOut(c, s, p, v).place == s.place && CopiedOut(c, s, p, v).pcs == s.pcs
  {
  }

  lemma MarkHands(c: Config, s: State, t: Tid, p: Pos, b: Id)
    ensures var o := StepRead(c, s, t, p, b, Mark); o.after.place == s.place && o.after.pcs == s.pcs
  {
  }

  lemma StepOfHands(c: Config, s: State, t: Tid, ch: Choice)
    requires t < |s.pcs| && OwnHands(s.place, t, s.pcs[t])
    ensures var o := StepOf(c, s, t, ch); o.after.pcs == s.pcs && HandsMove(s.place, o.after.place, t, o.pc)
  {
    hide StepClaim, StepFind, StepInstall, StepWrite, StepTake, StepRead, StepMove, StepLeave, StepSolo,
      StepCall, OwnHands, HandsMove;
    var now := StepOf(c, s, t, ch).pc;
    match s.pcs[t]
    case Installing(m, b, pc) => InstallHands(c, s, t, ch, m, b, pc);
    case Moving(p, b, pc) => MoveHands(c, s, t, p, b, pc);
    case Leaving(pc) => if pc.Scan? || pc.Retire? { ScanHands(c, s, t, pc); } else { ReturnHands(c, s, t, pc); }
    case Batching(pc) => SoloHands(c, s, t, pc);
    case Claiming(v, pc) => ClaimHands(c, s, t, ch, v, pc); KeepHands(s.place, t, s.pcs[t], now);
    case Finding(m, pc) => FindHands(c, s, t, m, pc); KeepHands(s.place, t, s.pcs[t], now);
    case Writing(m, b, pc) => WriteHands(c, s, t, m, b, pc); KeepHands(s.place, t, s.pcs[t], now);
    case Taking(pc) => PopHands(c, s, t, ch, pc); KeepHands(s.place, t, s.pcs[t], now);
    case Reading(p, b, pc) => ReadHands(c, s, t, p, b, pc); KeepHands(s.place, t, s.pcs[t], now);
    case pc => CallHands(c, s, t, ch); KeepHands(s.place, t, pc, now);
  }

  lemma CallHands(c: Config, s: State, t: Tid, ch: Choice)
    requires t < |s.pcs|
    ensures var o := StepCall(c, s, t, ch); o.after.pcs == s.pcs && o.after.place == s.place
  {
    hide InReceive;
  }

  lemma StepHands(c: Config, s: State, t: Tid, ch: Choice)
    requires t < |s.pcs| && HandsOk(s.place, s.pcs)
    ensures HandsOk(Step(c, s, t, ch).place, Step(c, s, t, ch).pcs)
  {
    hide StepOf, Holding;
    StepOfHands(c, s, t, ch);
  }

  lemma {:induction false} RunHands(c: Config, run: seq<State>, acts: seq<Act>, j: nat)
    requires IsRun(c, run, acts) && j < |run|
    ensures HandsOk(run[j].place, run[j].pcs)
    decreases j
  {
    hide HandsOk, Step;
    if j == 0 {
      InitialHands(c, run[0]);
    } else {
      RunHands(c, run, acts, j - 1);
      var a := acts[j - 1];
      assert run[j] == run[(j - 1) + 1] == Step(c, run[j - 1], a.t, a.ch);
      StepHands(c, run[j - 1], a.t, a.ch);
    }
  }

  lemma InitialHands(c: Config, s: State)
    requires Initial(c, s)
    ensures HandsOk(s.place, s.pcs)
  {
  }

  /** Conservation: every block ever allocated is in exactly one place.  The place decides, both ways,
      whether the block is in the chain, the spare, the ready list or the retired list, and which one
      thread, if any, has it in its hands; no list holds it twice. */
  lemma EveryBlockOnce(c: Config, run: seq<State>, acts: seq<Act>, j: nat, b: Id)
    requires IsRun(c, run, acts) && j < |run| && b < run[j].blocks
    ensures var s := run[j];
      && b in s.place
      && (s.place[b].Live? <==> exists k :: s.headLap <= k < |s.serves| && s.serves[k] == b)
      && (s.place[b].InSpare? <==> s.spare == Some(b))
      && (s.place[b].InReady? <==> b in s.ready)
      && (s.place[b].Retired? <==> b in s.retired)
      && (forall t :: 0 <= t < |s.pcs| ==> (Holding(s.pcs[t]) == Some(b) <==> OwnerOf(s.place[b]) == Some(t)))
      && (OwnerOf(s.place[b]).Some? ==> OwnerOf(s.place[b]).value < |s.pcs|)
      && (forall k, l :: s.headLap <= k < l < |s.serves| ==> s.serves[k] != s.serves[l])
      && (forall k, l :: 0 <= k < l < |s.ready| ==> s.ready[k] != s.ready[l])
      && (forall k, l :: 0 <= k < l < |s.retired| ==> s.retired[k] != s.retired[l])
  {
    hide Inv, IsRun, Holding, HandsOk, OwnerOf;
    RunInv(c, run, acts, j);
    RunHands(c, run, acts, j);
    StatePlaces(c, run[j], b);
    StateChain(c, run[j]);
    NoRepeats(c, run[j]);
    InHands(run[j], b);
    forall t | 0 <= t < |run[j].pcs| && Holding(run[j].pcs[t]) == Some(b)
      ensures OwnerOf(run[j].place[b]) == Some(t)
    {
      HeldByOne(c, run[j], t, b);
    }
  }

  lemma InHands(s: State, b: Id)
    requires HandsOk(s.place, s.pcs) && b in s.place
    ensures OwnerOf(s.place[b]).Some? ==>
      OwnerOf(s.place[b]).value < |s.pcs| && Holding(s.pcs[OwnerOf(s.place[b]).value]) == Some(b)
  {
    hide Holding, OwnerOf;
  }

  /** A thread has in its hands only what is its own. */
  lemma HeldByOne(c: Config, s: State, t: Tid, b: Id)
    requires Inv(c, s) && t < |s.pcs| && Holding(s.pcs[t]) == Some(b)
    ensures b in s.place && OwnerOf(s.place[b]) == Some(t)
  {
    hide SharedOk;
    Knows(c, s, t);
  }

  lemma NoRepeats(c: Config, s: State)
    requires Inv(c, s)
    ensures forall k, l :: 0 <= k < l < |s.ready| ==> s.ready[k] != s.ready[l]
    ensures forall k, l :: 0 <= k < l < |s.retired| ==> s.retired[k] != s.retired[l]
  {
    hide HeadTailOk, CountsOk, LiveOk, StartOk, LinksOk, MarksOk, TagsOk, ContentOk, OrderOk, DutyOk, ThreadsOk;
  }

  lemma StatePlaces(c: Config, s: State, b: Id)
    requires Inv(c, s) && b < s.blocks
    ensures b in s.place
    ensures s.place[b].Live? <==> exists k :: s.headLap <= k < |s.serves| && s.serves[k] == b
    ensures s.place[b].InSpare? <==> s.spare == Some(b)
    ensures s.place[b].InReady? <==> b in s.ready
    ensures s.place[b].Retired? <==> b in s.retired
  {
    hide HeadTailOk, CountsOk, StartOk, LinksOk, MarksOk, TagsOk, ContentOk, OrderOk, DutyOk, ThreadsOk;
  }
}
