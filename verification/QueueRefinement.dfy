/**
  The block queue refines a simple queue: a log of claims, a head, and the claims still being
  written.  Blocks, laps, sentinels, marks and pools disappear; every step of every thread is
  one atomic operation of the simple queue, or none.
*/
module QueueRefinement {
  import opened Basics
  import opened Positions
  import opened QueueModel
  import opened QueueInvariant
  import opened QueueStepOk
  import opened QueueTheorems
  import opened QueueFrames
  import opened SimpleQueues

  function Pending(cap: nat, writer: map<Pos, Tid>): set<nat> {
    set p | p in writer :: Rank(cap, p)
  }

  function Abstract(c: Config, s: State): SimpleQueue {
    SimpleQueue(Rank(c.cap, s.head), s.log, Pending(c.cap, s.writer))
  }

  /** The operation a step stands for. */
  function EventOf(c: Config, s: State, t: Tid, ch: Choice): Event
    requires t < |s.pcs|
  {
    match s.pcs[t]
    case Claiming(v, pc) => if StepClaim(c, s, t, ch, v, pc).pc.Finding? then Push(Claimed(t, v)) else Stutter
    case Writing(m, _, Publish) => Written(Rank(c.cap, m.p))
    case Taking(CasHead(h, b)) => if StepTake(c, s, t, ch, CasHead(h, b)).pc.Reading? then Take(1) else Stutter
    case Batching(SoloAdvance(_, _, count, _)) => Take(count)
    case _ => Stutter
  }

  lemma RunRefines(c: Config, run: seq<State>, acts: seq<Act>, i: nat)
    requires IsRun(c, run, acts) && i < |acts|
    ensures Abstract(c, run[0]) == SimpleQueue(0, [], {})
    ensures SimpleStep(c.capacity, Abstract(c, run[i]), EventOf(c, run[i], acts[i].t, acts[i].ch),
                       Abstract(c, run[i + 1]))
  {
    hide Inv, Step, EventOf, SimpleStep;
    RunInv(c, run, acts, i);
    StepRefines(c, run[i], acts[i].t, acts[i].ch);
  }

  lemma StepRefines(c: Config, s: State, t: Tid, ch: Choice)
    requires Inv(c, s) && t < |s.pcs|
    ensures SimpleStep(c.capacity, Abstract(c, s), EventOf(c, s, t, ch), Abstract(c, Step(c, s, t, ch)))
  {
    hide Inv, StepOf, Apply, EventOf, SimpleStep, Abstract;
    EffectRefines(c, s, t, ch);
    AbstractApplied(c, StepOf(c, s, t, ch), t);
  }

  lemma AbstractApplied(c: Config, o: Outcome, t: Tid)
    ensures Abstract(c, Apply(o, t)) == Abstract(c, o.after)
  {
    hide Rank, Pending;
  }

  lemma EffectRefines(c: Config, s: State, t: Tid, ch: Choice)
    requires Inv(c, s) && t < |s.pcs|
    ensures SimpleStep(c.capacity, Abstract(c, s), EventOf(c, s, t, ch), Abstract(c, StepOf(c, s, t, ch).after))
  {
    hide Inv, StepClaim, StepFind, StepInstall, StepWrite, StepTake, StepRead, StepMove, StepLeave, StepSolo,
      Abstract, SimpleStep;
    Stutters(c, Abstract(c, s));
    match s.pcs[t]
    case Claiming(v, pc) => ClaimRefines(c, s, t, ch, v, pc);
    case Finding(m, pc) => FindKeeps(c, s, t, m, pc);
    case Installing(m, b, pc) => InstallRefines(c, s, t, ch, m, b, pc);
    case Writing(m, b, pc) => WriteRefines(c, s, t, ch, m, b, pc);
    case Taking(pc) => TakeRefines(c, s, t, ch, pc);
    case Reading(p, b, pc) => ReadRefines(c, s, t, p, b, pc);
    case Moving(p, b, pc) => MoveRefines(c, s, t, p, b, pc);
    case Leaving(pc) => LeaveRefines(c, s, t, pc);
    case Batching(pc) => SoloRefines(c, s, t, ch, pc);
    case _ => CallRefines(c, s, t, ch);
  }

  lemma CallRefines(c: Config, s: State, t: Tid, ch: Choice)
    requires t < |s.pcs|
    ensures Abstract(c, StepCall(c, s, t, ch).after) == Abstract(c, s)
  {
    hide Rank, Pending, InReceive;
  }

  lemma FindKeeps(c: Config, s: State, t: Tid, m: Msg, pc: FindPc)
    ensures StepFind(c, s, t, m, pc).after == s
  {
  }

  lemma Stutters(c: Config, q: SimpleQueue)
    ensures SimpleStep(c.capacity, q, Stutter, q)
  {
  }

  /** A pending claim is recognised by its rank alone. */
  lemma PendingIs(c: Config, s: State, p: Pos)
    requires Inv(c, s) && p.off < c.cap
    ensures Rank(c.cap, p) in Pending(c.cap, s.writer) <==> p in s.writer
    ensures Pending(c.cap, s.writer - {p}) == Pending(c.cap, s.writer) - {Rank(c.cap, p)}
  {
    hide Rank, MemoryOk, ReadersOk, GotOk, MovingOk, ThreadsOk;
    forall q | q in s.writer && Rank(c.cap, q) == Rank(c.cap, p) ensures q == p {
      RankInjective(c.cap, p, q);
    }
  }

  lemma ClaimRefines(c: Config, s: State, t: Tid, ch: Choice, v: Value, pc: ClaimPc)
    requires Inv(c, s) && t < |s.pcs| && s.pcs[t] == Claiming(v, pc)
    ensures SimpleStep(c.capacity, Abstract(c, s), EventOf(c, s, t, ch),
                       Abstract(c, StepClaim(c, s, t, ch, v, pc).after))
  {
    hide Inv, Rank, Pending, SimpleStep, Items, TailTaken, SkipSentinel, Next;
    Stutters(c, Abstract(c, s));
    var o := StepClaim(c, s, t, ch, v, pc);
    if o.pc.Finding? {
      ClaimChecked(c, s, t, ch, v, pc);
      TailTakenRefines(c, s, t, v);
    } else {
      SkipRefines(c, s);
    }
  }

  /** A claim that succeeds found the tail on a value position, below the capacity. */
  lemma ClaimChecked(c: Config, s: State, t: Tid, ch: Choice, v: Value, pc: ClaimPc)
    requires Inv(c, s) && t < |s.pcs| && s.pcs[t] == Claiming(v, pc) && StepClaim(c, s, t, ch, v, pc).pc.Finding?
    ensures s.tail.off < c.cap && StepClaim(c, s, t, ch, v, pc).after == TailTaken(c, s, t, v)
    ensures c.capacity.Some? ==> Rank(c.cap, s.tail) < Rank(c.cap, s.head) + c.capacity.value
  {
    hide SharedOk, ThreadsOk, Rank, Items, TailTaken, SkipSentinel, Next;
    Knows(c, s, t);
  }

  lemma TailTakenRefines(c: Config, s: State, t: Tid, v: Value)
    requires Inv(c, s) && s.tail.off < c.cap
    requires c.capacity.Some? ==> Rank(c.cap, s.tail) < Rank(c.cap, s.head) + c.capacity.value
    ensures SimpleStep(c.capacity, Abstract(c, s), Push(Claimed(t, v)), Abstract(c, TailTaken(c, s, t, v)))
  {
    hide LiveOk, StartOk, LinksOk, MarksOk, TagsOk, ContentOk, PoolOk, OrderOk, DutyOk, ThreadsOk, Rank;
    assert Pending(c.cap, s.writer[s.tail := t]) == Pending(c.cap, s.writer) + {Rank(c.cap, s.tail)};
  }

  lemma SkipRefines(c: Config, s: State)
    ensures Abstract(c, SkipSentinel(c, s)) == Abstract(c, s)
  {
  }

  lemma InstallRefines(c: Config, s: State, t: Tid, ch: Choice, m: Msg, b: Id, pc: InstallPc)
    ensures Abstract(c, StepInstall(c, s, t, ch, m, b, pc).after) == Abstract(c, s)
  {
    hide StepInstall, Abstract;
    match pc {
      case SetStart(n) => StartKeeps(c, s, t, ch, m, b, n);
      case MoveTail(n) => MoveTailKeeps(c, s, t, ch, m, b, n);
      case _ => InstallKeepsTail(c, s, t, ch, m, b, pc);
    }
    SameAbstract(c, s, StepInstall(c, s, t, ch, m, b, pc).after);
  }

  lemma StartKeeps(c: Config, s: State, t: Tid, ch: Choice, m: Msg, b: Id, n: Id)
    ensures var s' := StepInstall(c, s, t, ch, m, b, SetStart(n)).after;
      s'.head == s.head && s'.log == s.log && s'.writer == s.writer
  {
  }

  lemma MoveTailKeeps(c: Config, s: State, t: Tid, ch: Choice, m: Msg, b: Id, n: Id)
    ensures var s' := StepInstall(c, s, t, ch, m, b, MoveTail(n)).after;
      s'.head == s.head && s'.log == s.log && s'.writer == s.writer
  {
  }

  lemma SameAbstract(c: Config, s: State, s': State)
    ensures s'.head == s.head && s'.log == s.log && s'.writer == s.writer ==> Abstract(c, s') == Abstract(c, s)
  {
  }

  lemma WriteRefines(c: Config, s: State, t: Tid, ch: Choice, m: Msg, b: Id, pc: WritePc)
    requires Inv(c, s) && t < |s.pcs| && s.pcs[t] == Writing(m, b, pc)
    ensures SimpleStep(c.capacity, Abstract(c, s), EventOf(c, s, t, ch),
                       Abstract(c, StepWrite(c, s, t, m, b, pc).after))
  {
    hide SharedOk, ThreadsOk, Rank, Pending;
    Knows(c, s, t);
    if pc.Publish? {
      WriterOff(c, s, m.p);
      PendingIs(c, s, m.p);
    }
  }

  lemma WriterOff(c: Config, s: State, p: Pos)
    requires Inv(c, s) && p in s.writer
    ensures p.off < c.cap
  {
    hide MemoryOk, ReadersOk, GotOk, MovingOk, ThreadsOk;
  }

  /** A published position ahead of the head may be taken. */
  lemma TakeAllowed(c: Config, s: State, p: Pos)
    requires Inv(c, s) && Published(c, s.tail, s.writer, p)
    ensures Rank(c.cap, p) < |s.log| && Rank(c.cap, p) !in Pending(c.cap, s.writer)
  {
    hide Inv, Rank, Pending;
    PendingIs(c, s, p);
    PublishedRank(c, s, p);
  }

  lemma PublishedOff(c: Config, s: State, p: Pos)
    requires Published(c, s.tail, s.writer, p)
    ensures p.off < c.cap
  {
  }

  lemma PublishedRank(c: Config, s: State, p: Pos)
    requires Inv(c, s) && p.off < c.cap && Before(p, s.tail)
    ensures Rank(c.cap, p) < |s.log|
  {
    hide HeadTailOk, LiveOk, StartOk, LinksOk, MarksOk, TagsOk, ContentOk, PoolOk, OrderOk, DutyOk, ThreadsOk, Rank;
    RankStrict(c.cap, p, s.tail);
  }

  lemma TakeRefines(c: Config, s: State, t: Tid, ch: Choice, pc: TakePc)
    requires Inv(c, s) && t < |s.pcs| && s.pcs[t] == Taking(pc)
    ensures SimpleStep(c.capacity, Abstract(c, s), EventOf(c, s, t, ch), Abstract(c, StepTake(c, s, t, ch, pc).after))
  {
    hide SharedOk, ThreadsOk, Rank, Pending, Published, Taken, IsSentinel;
    Knows(c, s, t);
    if pc.CasHead? && StepTake(c, s, t, ch, pc).pc.Reading? {
      TakeAllowed(c, s, pc.h);
      PublishedOff(c, s, pc.h);
      TakenRefines(c, s, t, pc.h);
    }
  }

  lemma TakenRefines(c: Config, s: State, t: Tid, h: Pos)
    requires h == s.head && h.off < c.cap
    ensures Abstract(c, Taken(c, s, t, h)) == Abstract(c, s).(head := Rank(c.cap, h) + 1)
  {
    RankNext(c.cap, h);
  }

  lemma ReadRefines(c: Config, s: State, t: Tid, p: Pos, b: Id, pc: ReadPc)
    ensures Abstract(c, StepRead(c, s, t, p, b, pc).after) == Abstract(c, s)
  {
    hide StepRead, Abstract;
    if pc.Copy? { CopyRefines(c, s, t, p, b); } else { MarkRefines(c, s, t, p, b); }
  }

  lemma CopyRefines(c: Config, s: State, t: Tid, p: Pos, b: Id)
    ensures Abstract(c, StepRead(c, s, t, p, b, Copy).after) == Abstract(c, s)
  {
    hide CopiedOut, Abstract;
    if Slot(b, p.off) in s.value { CopiedOutRefines(c, s, p, s.value[Slot(b, p.off)]); }
  }

  lemma CopiedOutRefines(c: Config, s: State, p: Pos, v: Value)
    ensures Abstract(c, CopiedOut(c, s, p, v)) == Abstract(c, s)
  {
    hide Rank, Pending;
  }

  lemma MarkRefines(c: Config, s: State, t: Tid, p: Pos, b: Id)
    ensures Abstract(c, StepRead(c, s, t, p, b, Mark).after) == Abstract(c, s)
  {
    hide Rank, Pending;
  }

  lemma MoveRefines(c: Config, s: State, t: Tid, p: Pos, b: Id, pc: MovePc)
    requires Inv(c, s) && t < |s.pcs| && s.pcs[t] == Moving(p, b, pc)
    ensures Abstract(c, StepMove(c, s, t, p, b, pc).after) == Abstract(c, s)
  {
    hide SharedOk, ThreadsOk, Pending;
    Knows(c, s, t);
  }

  lemma LeaveRefines(c: Config, s: State, t: Tid, pc: LeavePc)
    ensures Abstract(c, StepLeave(c, s, t, pc).after) == Abstract(c, s)
  {
    hide StepLeave, Abstract;
    LeaveKeepsTail(c, s, t, pc);
    SameAbstract(c, s, StepLeave(c, s, t, pc).after);
  }

  lemma SoloRefines(c: Config, s: State, t: Tid, ch: Choice, pc: SoloPc)
    requires Inv(c, s) && t < |s.pcs| && s.pcs[t] == Batching(pc)
    ensures SimpleStep(c.capacity, Abstract(c, s), EventOf(c, s, t, ch), Abstract(c, StepSolo(c, s, t, pc).after))
  {
    hide Inv, Rank, Pending, Published, Range, Advanced, SimpleStep;
    Stutters(c, Abstract(c, s));
    if pc.SoloAdvance? {
      AdvanceRefines(c, s, t, pc.h, pc.b, pc.count, pc.last);
    }
  }

  lemma RankNextLap(cap: nat, lap: nat)
    ensures Rank(cap, Pos(lap + 1, 0)) == Rank(cap, Pos(lap, 0)) + cap
  {
  }

  /** One head update for `count` values takes exactly the next `count`, all published. */
  lemma AdvanceRefines(c: Config, s: State, t: Tid, h: Pos, b: Id, count: nat, last: bool)
    requires Inv(c, s) && t < |s.pcs| && s.pcs[t] == Batching(SoloAdvance(h, b, count, last))
    ensures SimpleStep(c.capacity, Abstract(c, s), Take(count), Abstract(c, Advanced(s, h, count, last)))
  {
    hide SharedOk, ThreadsOk, Pending, Published, Range, Before;
    Knows(c, s, t);
    var r := Rank(c.cap, h);
    forall k | r <= k < r + count ensures k !in Pending(c.cap, s.writer) {
      TakeAllowed(c, s, Pos(h.lap, h.off + (k - r)));
    }
    RankNextLap(c.cap, h.lap);
    TakeAllowed(c, s, Pos(h.lap, h.off + (count - 1)));
  }
}
