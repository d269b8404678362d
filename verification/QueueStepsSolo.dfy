/**
  The exclusive receive path keeps the invariant.  Its blocks carry no marks: the one consumer
  has copied everything before it moves the head and recycles the block.
*/
module QueueStepsSolo {
  import opened Basics
  import opened Positions
  import opened QueueModel
  import opened QueueInvariant
  import opened QueueRely
  import opened QueueStepOk
  import QueueStepsInstall
  import QueueStepsTake
  import QueueStepsLeave

  lemma HeadOnChain(c: Config, s: State)
    requires SharedOk(c, s) && s.moving.None?
    ensures s.head.off < c.cap && s.headLap == s.head.lap && Serves(s.serves, s.head.lap, s.headBlock)
  {
    hide HeadTailOk, CountsOk, StartOk, LinksOk, MarksOk, TagsOk, ContentOk, PoolOk, OrderOk, WritersOk, ReadersOk,
      GotOk;
  }

  /** The batch so far lies at and after the head, published and not overwritten. */
  lemma PrefixUnread(c: Config, s: State, h: Pos, i: nat)
    requires h == s.head && h.off <= i && Published(c, s.tail, s.writer, Pos(h.lap, i))
    ensures Unread(c, s.head, s.tail, s.writer, s.reader, Pos(h.lap, i))
  {
  }

  lemma SoloStartOk(c: Config, s: State, t: Tid, pc: SoloPc)
    requires Inv(c, s) && t < |s.pcs| && s.pcs[t] == Batching(pc) && (pc.SoloHead? || pc.SoloBlock?)
    ensures StepOk(c, s, Apply(StepSolo(c, s, t, pc), t), t)
  {
    hide SharedOk, ThreadsOk, Rely, StepOk, Goto, Published;
    Knows(c, s, t);
    HeadOnChain(c, s);
    match pc
    case SoloHead(limit) => GotoOk(c, s, t, Batching(SoloBlock(limit, s.head)));
    case SoloBlock(limit, h) => GotoOk(c, s, t, Batching(SoloLook(h, s.headBlock, limit, 0)));
  }

  lemma SoloLookOk(c: Config, s: State, t: Tid, h: Pos, b: Id, limit: nat, count: nat)
    requires Inv(c, s) && t < |s.pcs| && s.pcs[t] == Batching(SoloLook(h, b, limit, count))
    ensures StepOk(c, s, Apply(StepSolo(c, s, t, SoloLook(h, b, limit, count)), t), t)
  {
    hide SharedOk, ThreadsOk, Rely, StepOk, Goto, Published, Prefix;
    Knows(c, s, t);
    HeadOnChain(c, s);
    var slot := Slot(b, h.off + count);
    if count < limit && h.off + count < c.cap && slot in s.tag && s.tag[slot] == h.lap {
      QueueStepsTake.TagSound(c, s, b, Pos(h.lap, h.off + count));
      GotoOk(c, s, t, Batching(SoloCopy(h, b, limit, count)));
    } else if count == 0 {
      QueueStepsTake.TagComplete(c, s, b);
      GotoOk(c, s, t, ReportNone(!Published(c, s.tail, s.writer, s.head)));
    } else if h.off + count == c.cap {
      GotoOk(c, s, t, Batching(SoloNext(h, b, count)));
    } else {
      GotoOk(c, s, t, Batching(SoloAdvance(h, b, count, false)));
    }
  }

  lemma SoloCopyOk(c: Config, s: State, t: Tid, h: Pos, b: Id, limit: nat, count: nat)
    requires Inv(c, s) && t < |s.pcs| && s.pcs[t] == Batching(SoloCopy(h, b, limit, count))
    ensures StepOk(c, s, Apply(StepSolo(c, s, t, SoloCopy(h, b, limit, count)), t), t)
  {
    hide SharedOk, ThreadsOk, Rely, StepOk, Goto, Published;
    Knows(c, s, t);
    var p := Pos(h.lap, h.off + count);
    PrefixUnread(c, s, h, h.off + count);
    QueueStepsTake.CopiesPushed(c, s, p, b);
    QueueStepsTake.CopyShared(c, s, t, p, b);
    ThenGoto(c, s, QueueStepsTake.Copied(s, p, b), t, Batching(SoloLook(h, b, limit, count + 1)));
  }

  /** Nothing at or after the head of a finished block is still being written in its lap. */
  lemma BatchWriters(c: Config, s: State, h: Pos, count: nat)
    requires SharedOk(c, s) && h == s.head && Prefix(c, s, h, count) && count > 0
    ensures forall p :: p in s.writer ==> AtMost(Pos(h.lap, h.off + count), p)
    ensures h.off + count == c.cap ==> forall p :: p in s.writer ==> p.lap > h.lap
    ensures Published(c, s.tail, s.writer, Pos(h.lap, h.off + count - 1))
  {
    hide HeadTailOk, CountsOk, LiveOk, StartOk, LinksOk, MarksOk, TagsOk, ContentOk, PoolOk, OrderOk, ReadersOk, GotOk,
      MovingOk;
    forall p | p in s.writer ensures AtMost(Pos(h.lap, h.off + count), p) {
      assert p.lap == h.lap && h.off <= p.off < h.off + count ==>
        Published(c, s.tail, s.writer, Pos(h.lap, p.off));
    }
  }

  lemma SoloMoveOk(c: Config, s: State, t: Tid, pc: SoloPc)
    requires Inv(c, s) && t < |s.pcs| && s.pcs[t] == Batching(pc) && (pc.SoloNext? || pc.SoloMoveBlock?)
    ensures StepOk(c, s, Apply(StepSolo(c, s, t, pc), t), t)
  {
    hide Inv, StepOk, Goto;
    match pc
    case SoloNext(h, b, count) => SoloNextOk(c, s, t, h, b, count);
    case SoloMoveBlock(h, b, count, n) => SoloMoveBlockOk(c, s, t, h, b, count, n);
  }

  lemma SoloNextOk(c: Config, s: State, t: Tid, h: Pos, b: Id, count: nat)
    requires Inv(c, s) && t < |s.pcs| && s.pcs[t] == Batching(SoloNext(h, b, count))
    ensures b in s.nextOf && StepOk(c, s, Goto(s, t, Batching(SoloMoveBlock(h, b, count, s.nextOf[b]))), t)
  {
    hide SharedOk, ThreadsOk, Rely, StepOk, Goto, Published, Prefix;
    Knows(c, s, t);
    HeadOnChain(c, s);
    BatchWriters(c, s, h, count);
    QueueStepsLeave.NextIsLinked(c, s, h.lap);
    GotoOk(c, s, t, Batching(SoloMoveBlock(h, b, count, s.nextOf[b])));
  }

  lemma SoloMoveBlockOk(c: Config, s: State, t: Tid, h: Pos, b: Id, count: nat, n: Id)
    requires Inv(c, s) && t < |s.pcs| && s.pcs[t] == Batching(SoloMoveBlock(h, b, count, n))
    ensures StepOk(c, s, Goto(HeadBlockMoved(s, t, h.lap, b, n), t, Batching(SoloAdvance(h, b, count, true))), t)
  {
    hide SharedOk, ThreadsOk, Rely, StepOk, Goto, Published, Prefix;
    Knows(c, s, t);
    HeadOnChain(c, s);
    BatchWriters(c, s, h, count);
    PrefixKept(c, s, t, h, b, n, count);
    QueueStepsLeave.MoveHeadOk(c, s, t, h.lap, b, n, Batching(SoloAdvance(h, b, count, true)));
  }

  lemma PrefixKept(c: Config, s: State, t: Tid, h: Pos, b: Id, n: Id, count: nat)
    requires Prefix(c, s, h, count)
    ensures Prefix(c, HeadBlockMoved(s, t, h.lap, b, n), h, count)
  {
  }

  // ---- One head update for the batch ------------------------------------------------------------

  ghost predicate CanAdvance(c: Config, s: State, t: Tid, h: Pos, count: nat, last: bool) {
    && c.exclusive && t == s.holder && h == s.head && count > 0 && h.off + count <= c.cap && Prefix(c, s, h, count)
    && (if last then h.off + count == c.cap && s.moving == Some(t) && s.headLap == h.lap + 1
        else h.off + count < c.cap && s.moving.None?)
  }

  lemma {:induction false} RangeAt(h: Pos, count: nat)
    ensures |Range(h, count)| == count
    ensures forall i :: 0 <= i < count ==> Range(h, count)[i] == Pos(h.lap, h.off + i)
  {
    if count > 0 { RangeAt(h, count - 1); }
  }

  lemma AdvanceIndices(c: Config, s: State, t: Tid, h: Pos, count: nat, last: bool)
    requires SharedOk(c, s) && CanAdvance(c, s, t, h, count, last)
    ensures var s2 := Advanced(s, h, count, last);
      HeadTailOk(c, s2.head, s2.tail, s2.cached) && CountsOk(c, s2.head, s2.tail, s2.log)
  {
    hide LiveOk, StartOk, LinksOk, MarksOk, TagsOk, ContentOk, PoolOk, DutyOk, OrderOk, Prefix;
    BatchWriters(c, s, h, count);
  }

  lemma AdvanceOrder(c: Config, s: State, t: Tid, h: Pos, count: nat, last: bool)
    requires SharedOk(c, s) && CanAdvance(c, s, t, h, count, last)
    ensures var s2 := Advanced(s, h, count, last); OrderOk(c, s2.head, s2.order)
  {
    hide HeadTailOk, CountsOk, LiveOk, StartOk, LinksOk, MarksOk, TagsOk, ContentOk, PoolOk, DutyOk, Prefix;
    RangeAt(h, count);
  }

  lemma AdvanceContent(c: Config, s: State, t: Tid, h: Pos, count: nat, last: bool)
    requires SharedOk(c, s) && CanAdvance(c, s, t, h, count, last)
    ensures var s2 := Advanced(s, h, count, last);
      && ContentOk(c, s2.head, s2.tail, s2.writer, s2.reader, s2.serves, s2.tag, s2.value, s2.log)
      && MarksOk(c, s2.head, s2.marked, s2.place, s2.reader)
  {
    hide HeadTailOk, CountsOk, OrderOk, LiveOk, StartOk, LinksOk, TagsOk, PoolOk, DutyOk, Prefix;
  }

  lemma AdvanceWriters(c: Config, s: State, t: Tid, h: Pos, count: nat, last: bool, pc: Pc)
    requires SharedOk(c, s) && CanAdvance(c, s, t, h, count, last) && t < |s.pcs|
    requires ClaimOf(s.pcs[t]).None?
    ensures WritersOk(c, Advanced(s, h, count, last).head, s.tail, s.headLap, s.writer, s.pcs[t := pc])
  {
    hide HeadTailOk, CountsOk, OrderOk, LiveOk, StartOk, LinksOk, TagsOk, PoolOk, MarksOk, ContentOk, GotOk, ReadersOk,
      MovingOk, Prefix, ClaimOf;
    BatchWriters(c, s, h, count);
  }

  lemma AdvanceGot(c: Config, s: State, t: Tid, h: Pos, count: nat, last: bool)
    requires SharedOk(c, s) && CanAdvance(c, s, t, h, count, last)
    ensures s.reader == map[]
    ensures forall pcs: seq<Pc> :: GotOk(c, Advanced(s, h, count, last).head, s.reader, pcs, s.got, s.log)
  {
    hide HeadTailOk, CountsOk, OrderOk, LiveOk, StartOk, LinksOk, TagsOk, PoolOk, MarksOk, ContentOk, WritersOk,
      MovingOk,
      Published;
    forall p: Pos | p.off < c.cap && Before(p, Advanced(s, h, count, last).head) && !Before(p, s.head)
      ensures p in s.got
    {
      assert p == Pos(h.lap, p.off);
    }
  }

  lemma AdvanceMoving(c: Config, s: State, t: Tid, h: Pos, count: nat, last: bool, pcs: seq<Pc>)
    requires SharedOk(c, s) && CanAdvance(c, s, t, h, count, last)
    ensures var s2 := Advanced(s, h, count, last); MovingOk(c, s2.head, s2.headLap, s2.moving, pcs)
  {
    hide HeadTailOk, CountsOk, OrderOk, LiveOk, StartOk, LinksOk, TagsOk, PoolOk, MarksOk, ContentOk, WritersOk,
      ReadersOk,
      GotOk, Prefix;
  }

  lemma AdvanceDuty(c: Config, s: State, t: Tid, h: Pos, b: Id, count: nat, last: bool)
    requires SharedOk(c, s) && CanAdvance(c, s, t, h, count, last) && t < |s.pcs|
    requires s.pcs[t] == Batching(SoloAdvance(h, b, count, last))
    ensures DutyOk(c, Goto(Advanced(s, h, count, last), t, if last then Batching(SoloPool(b)) else Idle))
  {
    hide MemoryOk, WritersOk, GotOk, MovingOk, CanAdvance;
    var pc := if last then Batching(SoloPool(b)) else Idle;
    AdvanceWriters(c, s, t, h, count, last, pc);
    AdvanceGot(c, s, t, h, count, last);
    AdvanceMoving(c, s, t, h, count, last, s.pcs[t := pc]);
  }

  lemma AdvanceRely(c: Config, s: State, t: Tid, h: Pos, count: nat, last: bool)
    requires SharedOk(c, s) && CanAdvance(c, s, t, h, count, last)
    ensures Rely(c, s, Advanced(s, h, count, last), t)
  {
    hide CountsOk, LiveOk, StartOk, LinksOk, MarksOk, TagsOk, ContentOk, PoolOk, OrderOk, DutyOk, Prefix;
  }

  lemma AdvanceMemory(c: Config, s: State, t: Tid, h: Pos, count: nat, last: bool)
    requires SharedOk(c, s) && CanAdvance(c, s, t, h, count, last)
    ensures MemoryOk(c, Advanced(s, h, count, last))
  {
    hide HeadTailOk, CountsOk, LiveOk, StartOk, LinksOk, MarksOk, TagsOk, ContentOk, PoolOk, OrderOk, DutyOk,
      CanAdvance;
    AdvanceIndices(c, s, t, h, count, last);
    AdvanceOrder(c, s, t, h, count, last);
    AdvanceContent(c, s, t, h, count, last);
    AdvanceLive(c, s, h, count, last);
  }

  lemma SoloAdvanceOk(c: Config, s: State, t: Tid, h: Pos, b: Id, count: nat, last: bool)
    requires Inv(c, s) && t < |s.pcs| && s.pcs[t] == Batching(SoloAdvance(h, b, count, last))
    ensures StepOk(c, s, Apply(StepSolo(c, s, t, SoloAdvance(h, b, count, last)), t), t)
  {
    hide Inv, SharedOk, MemoryOk, DutyOk, ThreadsOk, ThreadOk, Rely, StepOk, Goto, CanAdvance, Advanced;
    Knows(c, s, t);
    AdvanceReady(c, s, t, h, b, count, last);
    AdvanceMemory(c, s, t, h, count, last);
    AdvanceDuty(c, s, t, h, b, count, last);
    AdvanceRely(c, s, t, h, count, last);
    AdvanceKnows(c, s, t, h, b, count, last);
    TogetherOk(c, s, Advanced(s, h, count, last), t, if last then Batching(SoloPool(b)) else Idle);
  }

  lemma AdvanceReady(c: Config, s: State, t: Tid, h: Pos, b: Id, count: nat, last: bool)
    requires Inv(c, s) && ThreadOk(c, s, t, Batching(SoloAdvance(h, b, count, last)))
    ensures SharedOk(c, s) && CanAdvance(c, s, t, h, count, last) && Advanced(s, h, count, last).pcs == s.pcs
  {
    hide SharedOk, ThreadsOk, Prefix;
  }

  lemma AdvanceKnows(c: Config, s: State, t: Tid, h: Pos, b: Id, count: nat, last: bool)
    requires ThreadOk(c, s, t, Batching(SoloAdvance(h, b, count, last)))
    ensures ThreadOk(c, Advanced(s, h, count, last), t, if last then Batching(SoloPool(b)) else Idle)
  {
  }

  lemma AdvanceLive(c: Config, s: State, h: Pos, count: nat, last: bool)
    requires MemoryOk(c, s)
    ensures var s2 := Advanced(s, h, count, last);
      && LiveOk(s2.headBlock, s2.headLap, s2.serves, s2.place) && StartOk(s2.start, s2.serves, s2.place)
      && LinksOk(c, s2.headLap, s2.serves, s2.nextOf, s2.prevOf, s2.tail, s2.writer)
      && TagsOk(c, s2.tail, s2.writer, s2.serves, s2.tag)
      && PoolOk(s2.spare, s2.ready, s2.retired, s2.blocks, s2.place)
  {
    hide HeadTailOk, CountsOk, LiveOk, StartOk, LinksOk, MarksOk, TagsOk, ContentOk, PoolOk, OrderOk;
  }

  /** The consumer has copied all of the block's values, and no producer needs it. */
  lemma SoloPoolOk(c: Config, s: State, t: Tid, b: Id)
    requires Inv(c, s) && t < |s.pcs| && s.pcs[t] == Batching(SoloPool(b))
    ensures StepOk(c, s, Apply(StepSolo(c, s, t, SoloPool(b)), t), t)
  {
    hide SharedOk, ThreadsOk, Rely, StepOk, Goto;
    Knows(c, s, t);
    SoloPoolShared(c, s, t, b);
    ThenGoto(c, s, s.(start := s.start - {b}, place := s.place[b := Held(t)]), t, Leaving(Recycle(b)));
  }

  lemma SoloPoolShared(c: Config, s: State, t: Tid, b: Id)
    requires SharedOk(c, s) && c.exclusive && b in s.place && s.place[b].Finishing? && s.place[b].owner == t
    ensures var s2 := s.(start := s.start - {b}, place := s.place[b := Held(t)]); SharedOk(c, s2) && Rely(c, s, s2, t)
  {
    hide HeadTailOk, CountsOk, LiveOk, StartOk, LinksOk, TagsOk, ContentOk, PoolOk, OrderOk, WritersOk, GotOk, MovingOk,
      Rely;
    QueueStepsLeave.PoolIs(c, s);
    NotLive(c, s, b);
    QueueStepsInstall.StartDropped(s, b);
    QueueStepsInstall.PlaceShared(c, s.(start := s.start - {b}), b, Held(t));
    QueueStepsInstall.PoolKeeps(s, b, Held(t));
    QueueStepsInstall.WipeDoneRely(c, s, t, b);
  }

  lemma NotLive(c: Config, s: State, b: Id)
    requires SharedOk(c, s)
    ensures StartOk(s.start, s.serves, s.place)
  {
    hide HeadTailOk, CountsOk, LiveOk, StartOk, LinksOk, MarksOk, TagsOk, ContentOk, PoolOk, OrderOk, DutyOk;
  }

  lemma SoloStepOk(c: Config, s: State, t: Tid, pc: SoloPc)
    requires Inv(c, s) && t < |s.pcs| && s.pcs[t] == Batching(pc)
    ensures StepOk(c, s, Apply(StepSolo(c, s, t, pc), t), t)
  {
    hide *;
    match pc
    case SoloLook(h, b, limit, count) => SoloLookOk(c, s, t, h, b, limit, count);
    case SoloCopy(h, b, limit, count) => SoloCopyOk(c, s, t, h, b, limit, count);
    case SoloNext(_, _, _) => SoloMoveOk(c, s, t, pc);
    case SoloMoveBlock(_, _, _, _) => SoloMoveOk(c, s, t, pc);
    case SoloAdvance(h, b, count, last) => SoloAdvanceOk(c, s, t, h, b, count, last);
    case SoloPool(b) => SoloPoolOk(c, s, t, b);
    case _ => SoloStartOk(c, s, t, pc);
  }
}
