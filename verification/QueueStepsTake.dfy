/**
  Taking a value keeps the invariant: the head moves only past a written slot, and the block of
  a value taken is not recycled before its reader has marked it.
*/
module QueueStepsTake {
  import opened Basics
  import opened Positions
  import opened QueueModel
  import opened QueueInvariant
  import opened QueueRely
  import opened QueueStepOk
  import QueueStepsWrite

  /** With several consumers a transition is under way exactly while the head is on a sentinel. */
  lemma NotMoving(c: Config, s: State)
    requires Inv(c, s) && !c.exclusive && s.head.off < c.cap
    ensures s.moving.None? && s.headLap == s.head.lap
  {
    hide CountsOk, WritersOk, ReadersOk, LiveOk, StartOk, LinksOk, MarksOk, TagsOk, ContentOk, PoolOk, OrderOk, GotOk,
      HeadTailOk;
    if s.moving.Some? {
      Knows(c, s, s.moving.value);
    }
  }

  /** A state word that names a lap identifies the block and the published position. */
  lemma TagSound(c: Config, s: State, b: Id, p: Pos)
    requires SharedOk(c, s) && Slot(b, p.off) in s.tag && s.tag[Slot(b, p.off)] == p.lap
    ensures Published(c, s.tail, s.writer, p) && Serves(s.serves, p.lap, b)
  {
    hide HeadTailOk, CountsOk, LiveOk, StartOk, LinksOk, MarksOk, ContentOk, PoolOk, OrderOk, DutyOk;
  }

  /** The block at the head, together with an old state word, shows that the head is unwritten. */
  lemma TagComplete(c: Config, s: State, b: Id)
    requires SharedOk(c, s) && Serves(s.serves, s.head.lap, b)
    requires !(Slot(b, s.head.off) in s.tag && s.tag[Slot(b, s.head.off)] == s.head.lap)
    ensures !Published(c, s.tail, s.writer, s.head)
  {
    hide HeadTailOk, CountsOk, LiveOk, StartOk, LinksOk, MarksOk, TagsOk, PoolOk, OrderOk, DutyOk;
    assert Published(c, s.tail, s.writer, s.head) ==> Unread(c, s.head, s.tail, s.writer, s.reader, s.head);
  }

  lemma HeadBlockServes(c: Config, s: State)
    requires SharedOk(c, s)
    ensures Serves(s.serves, s.headLap, s.headBlock)
  {
    hide HeadTailOk, CountsOk, StartOk, LinksOk, MarksOk, TagsOk, ContentOk, PoolOk, OrderOk, DutyOk;
  }

  lemma LookStepOk(c: Config, s: State, t: Tid, ch: Choice, pc: TakePc)
    requires Inv(c, s) && t < |s.pcs| && s.pcs[t] == Taking(pc)
    requires !pc.CasHead? || ch.Fail? || s.head != pc.h
    ensures StepOk(c, s, Apply(StepTake(c, s, t, ch, pc), t), t)
  {
    hide SharedOk, ThreadsOk, Rely, StepOk, Goto, Published;
    Knows(c, s, t);
    HeadBlockServes(c, s);
    if s.head.off < c.cap { NotMoving(c, s); }
    match pc
    case LoadHead => GotoOk(c, s, t, Taking(LoadBlock(s.head)));
    case LoadBlock(h) => GotoOk(c, s, t, Taking(Look(h, s.headBlock)));
    case Look(h, b) =>
      if IsSentinel(c.cap, h) { GotoOk(c, s, t, if ch.Fail? then ReportBusy else Taking(LoadHead)); }
      else if Slot(b, h.off) in s.tag && s.tag[Slot(b, h.off)] == h.lap {
        TagSound(c, s, b, h);
        GotoOk(c, s, t, Taking(CasHead(h, b)));
      } else {
        if h == s.head { TagComplete(c, s, b); }
        GotoOk(c, s, t, Taking(Recheck(h, !Published(c, s.tail, s.writer, s.head))));
      }
    case Recheck(h, unwritten) =>
      GotoOk(c, s, t, if s.head == h then ReportNone(unwritten) else Taking(LoadBlock(s.head)));
    case CasHead(h, b) => GotoOk(c, s, t, Taking(LoadBlock(s.head)));
  }

  // ---- The head moves past a written slot -------------------------------------------------------

  ghost predicate CanTake(c: Config, s: State, h: Pos, b: Id) {
    !c.exclusive && h == s.head && Published(c, s.tail, s.writer, h) && Serves(s.serves, h.lap, b) && s.moving.None?
  }

  lemma TakeIndices(c: Config, s: State, t: Tid, h: Pos, b: Id)
    requires MemoryOk(c, s) && CanTake(c, s, h, b)
    ensures var s2 := Taken(c, s, t, h);
      && HeadTailOk(c, s2.head, s2.tail, s2.cached) && CountsOk(c, s2.head, s2.tail, s2.log)
      && OrderOk(c, s2.head, s2.order)
  {
    hide LiveOk, StartOk, LinksOk, MarksOk, TagsOk, ContentOk, PoolOk;
  }

  lemma TakePasses(c: Config, h: Pos)
    requires h.off < c.cap
    ensures forall p: Pos :: p.off < c.cap ==> (Before(p, Next(c.cap, h)) <==> Before(p, h) || p == h)
  {
  }

  lemma TakeContent(c: Config, s: State, t: Tid, h: Pos, b: Id)
    requires MemoryOk(c, s) && CanTake(c, s, h, b)
    ensures var s2 := Taken(c, s, t, h);
      ContentOk(c, s2.head, s2.tail, s2.writer, s2.reader, s2.serves, s2.tag, s2.value, s2.log)
  {
    hide LiveOk, StartOk, LinksOk, TagsOk, PoolOk, OrderOk, CountsOk, MarksOk, HeadTailOk;
    assert forall p :: Unread(c, Next(c.cap, h), s.tail, s.writer, s.reader[h := t], p) ==>
      Unread(c, s.head, s.tail, s.writer, s.reader, p);
  }

  lemma TakeMarks(c: Config, s: State, t: Tid, h: Pos, b: Id)
    requires MemoryOk(c, s) && CanTake(c, s, h, b)
    ensures MarksOk(c, Next(c.cap, h), s.marked, s.place, s.reader[h := t])
  {
    hide LiveOk, StartOk, LinksOk, TagsOk, PoolOk, OrderOk, CountsOk, ContentOk, HeadTailOk, Next;
    TakePasses(c, h);
  }

  lemma TakeWriters(c: Config, s: State, t: Tid, h: Pos, b: Id)
    requires HeadTailOk(c, s.head, s.tail, s.cached) && CanTake(c, s, h, b)
    requires t < |s.pcs| && ClaimOf(s.pcs[t]).None?
    requires WritersOk(c, s.head, s.tail, s.headLap, s.writer, s.pcs)
    ensures WritersOk(c, Next(c.cap, h), s.tail, s.headLap, s.writer, s.pcs[t := Reading(h, b, Copy)])
  {
  }

  lemma TakeReaders(c: Config, s: State, t: Tid, h: Pos, b: Id)
    requires CanTake(c, s, h, b) && t < |s.pcs| && s.pcs[t].Taking?
    requires b in s.place && LapOf(s.place[b]) == Some(h.lap)
    requires ReadersOk(c, s.head, s.serves, s.place, s.reader, s.pcs)
    requires GotOk(c, s.head, s.reader, s.pcs, s.got, s.log)
    requires MovingOk(c, s.head, s.headLap, s.moving, s.pcs)
    ensures var s2 := Goto(Taken(c, s, t, h), t, Reading(h, b, Copy));
      && ReadersOk(c, s2.head, s2.serves, s2.place, s2.reader, s2.pcs)
      && GotOk(c, s2.head, s2.reader, s2.pcs, s2.got, s2.log)
      && MovingOk(c, s2.head, s2.headLap, s2.moving, s2.pcs)
  {
    TakeReading(c, s, t, h, b);
    TakeMoving(c, s, t, h, b);
  }

  lemma TakeReading(c: Config, s: State, t: Tid, h: Pos, b: Id)
    requires CanTake(c, s, h, b) && t < |s.pcs| && s.pcs[t].Taking?
    requires b in s.place && LapOf(s.place[b]) == Some(h.lap)
    requires ReadersOk(c, s.head, s.serves, s.place, s.reader, s.pcs)
    ensures var s2 := Goto(Taken(c, s, t, h), t, Reading(h, b, Copy));
      ReadersOk(c, s2.head, s2.serves, s2.place, s2.reader, s2.pcs)
  {
    TakePasses(c, h);
  }

  lemma TakeMoving(c: Config, s: State, t: Tid, h: Pos, b: Id)
    requires CanTake(c, s, h, b) && t < |s.pcs| && s.pcs[t].Taking?
    requires GotOk(c, s.head, s.reader, s.pcs, s.got, s.log)
    requires MovingOk(c, s.head, s.headLap, s.moving, s.pcs)
    ensures var s2 := Goto(Taken(c, s, t, h), t, Reading(h, b, Copy));
      && GotOk(c, s2.head, s2.reader, s2.pcs, s2.got, s2.log)
      && MovingOk(c, s2.head, s2.headLap, s2.moving, s2.pcs)
  {
    TakePasses(c, h);
  }

  lemma TakeRely(c: Config, s: State, t: Tid, h: Pos, b: Id)
    requires SharedOk(c, s) && CanTake(c, s, h, b)
    ensures Rely(c, s, Taken(c, s, t, h), t)
  {
    hide CountsOk, LiveOk, StartOk, LinksOk, MarksOk, TagsOk, ContentOk, PoolOk, OrderOk, WritersOk, GotOk, MovingOk;
  }

  lemma TakeOk(c: Config, s: State, t: Tid, h: Pos, b: Id)
    requires Inv(c, s) && t < |s.pcs| && s.pcs[t] == Taking(CasHead(h, b)) && s.head == h
    ensures StepOk(c, s, Goto(Taken(c, s, t, h), t, Reading(h, b, Copy)), t)
  {
    hide MemoryOk, DutyOk, ThreadsOk, Rely, StepOk, Goto, CanTake, ThreadOk;
    TakeKnows(c, s, t, h, b);
    TakeMemory(c, s, t, h, b);
    TakeDuty(c, s, t, h, b);
    TakeRely(c, s, t, h, b);
    TogetherOk(c, s, Taken(c, s, t, h), t, Reading(h, b, Copy));
  }

  lemma TakeKnows(c: Config, s: State, t: Tid, h: Pos, b: Id)
    requires Inv(c, s) && t < |s.pcs| && s.pcs[t] == Taking(CasHead(h, b)) && s.head == h
    ensures CanTake(c, s, h, b) && ThreadOk(c, Taken(c, s, t, h), t, Reading(h, b, Copy))
    ensures b in s.place && LapOf(s.place[b]) == Some(h.lap)
  {
    hide SharedOk, ThreadsOk;
    Knows(c, s, t);
    NotMoving(c, s);
    QueueStepsWrite.UnreadPlace(c, s, h);
  }

  lemma TakeMemory(c: Config, s: State, t: Tid, h: Pos, b: Id)
    requires MemoryOk(c, s) && CanTake(c, s, h, b)
    ensures MemoryOk(c, Taken(c, s, t, h))
  {
    hide HeadTailOk, CountsOk, LiveOk, StartOk, LinksOk, MarksOk, TagsOk, ContentOk, PoolOk, OrderOk, CanTake;
    TakeIndices(c, s, t, h, b);
    TakeContent(c, s, t, h, b);
    TakeMarks(c, s, t, h, b);
  }

  lemma TakeDuty(c: Config, s: State, t: Tid, h: Pos, b: Id)
    requires SharedOk(c, s) && CanTake(c, s, h, b) && t < |s.pcs| && s.pcs[t].Taking?
    requires b in s.place && LapOf(s.place[b]) == Some(h.lap)
    ensures DutyOk(c, Goto(Taken(c, s, t, h), t, Reading(h, b, Copy)))
  {
    hide CountsOk, LiveOk, StartOk, LinksOk, MarksOk, TagsOk, ContentOk, PoolOk, OrderOk, WritersOk, ReadersOk, GotOk,
      MovingOk, CanTake, HeadTailOk;
    TakeWriters(c, s, t, h, b);
    TakeReaders(c, s, t, h, b);
  }

  lemma TakeStepOk(c: Config, s: State, t: Tid, ch: Choice, pc: TakePc)
    requires Inv(c, s) && t < |s.pcs| && s.pcs[t] == Taking(pc)
    ensures StepOk(c, s, Apply(StepTake(c, s, t, ch, pc), t), t)
  {
    hide Inv, StepOk, Goto, Taken;
    if pc.CasHead? && !ch.Fail? && s.head == pc.h {
      TakeOk(c, s, t, pc.h, pc.b);
    } else {
      LookStepOk(c, s, t, ch, pc);
    }
  }

  // ---- Reading ----------------------------------------------------------------------------------

  function Copied(s: State, p: Pos, b: Id): State
    requires Slot(b, p.off) in s.value
  {
    s.(got := s.got[p := s.value[Slot(b, p.off)]])
  }

  /** The slot still holds what was pushed at the position. */
  lemma CopiesPushed(c: Config, s: State, p: Pos, b: Id)
    requires SharedOk(c, s) && Unread(c, s.head, s.tail, s.writer, s.reader, p) && Serves(s.serves, p.lap, b)
    ensures Slot(b, p.off) in s.value && Rank(c.cap, p) < |s.log|
    ensures s.value[Slot(b, p.off)] == s.log[Rank(c.cap, p)].v
  {
    hide HeadTailOk, CountsOk, LiveOk, StartOk, LinksOk, MarksOk, TagsOk, PoolOk, OrderOk, DutyOk;
  }

  lemma CopyShared(c: Config, s: State, t: Tid, p: Pos, b: Id)
    requires SharedOk(c, s) && Unread(c, s.head, s.tail, s.writer, s.reader, p) && Serves(s.serves, p.lap, b)
    requires p.off < c.cap && Slot(b, p.off) in s.value
    ensures SharedOk(c, Copied(s, p, b)) && Rely(c, s, Copied(s, p, b), t)
  {
    hide HeadTailOk, CountsOk, LiveOk, StartOk, LinksOk, MarksOk, TagsOk, ContentOk, PoolOk, OrderOk, WritersOk,
      ReadersOk, GotOk, MovingOk, Rely, Unread;
    CopiesPushed(c, s, p, b);
    CopyGot(c, s, p, s.value[Slot(b, p.off)]);
    CopyRely(c, s, t, p, b);
  }

  lemma CopyGot(c: Config, s: State, p: Pos, v: Value)
    requires GotOk(c, s.head, s.reader, s.pcs, s.got, s.log)
    requires p.off < c.cap && Rank(c.cap, p) < |s.log| && s.log[Rank(c.cap, p)].v == v
    ensures GotOk(c, s.head, s.reader, s.pcs, s.got[p := v], s.log)
  {
    hide Rank, Before;
  }

  lemma CopyRely(c: Config, s: State, t: Tid, p: Pos, b: Id)
    requires SharedOk(c, s) && Slot(b, p.off) in s.value
    ensures Rely(c, s, Copied(s, p, b), t)
  {
    hide CountsOk, LiveOk, StartOk, LinksOk, MarksOk, TagsOk, ContentOk, PoolOk, OrderOk, DutyOk, Published;
  }

  /** A reader that has copied its value may let go of the position. */
  lemma ReaderGone(c: Config, s: State, t: Tid, p: Pos)
    requires DutyOk(c, s) && p in s.reader && s.reader[p] == t && p in s.got
    requires ContentOk(c, s.head, s.tail, s.writer, s.reader, s.serves, s.tag, s.value, s.log)
    ensures DutyOk(c, s.(reader := s.reader - {p}))
    ensures ContentOk(c, s.head, s.tail, s.writer, s.reader - {p}, s.serves, s.tag, s.value, s.log)
    ensures forall q :: q in s.reader - {p} ==> s.reader[q] != t
  {
    hide WritersOk;
  }

  lemma LastReadShared(c: Config, s: State, t: Tid, p: Pos)
    requires SharedOk(c, s) && p in s.reader && s.reader[p] == t && p in s.got && p.off + 1 == c.cap
    ensures SharedOk(c, s.(reader := s.reader - {p})) && Rely(c, s, s.(reader := s.reader - {p}), t)
  {
    hide CountsOk, LiveOk, StartOk, LinksOk, TagsOk, ContentOk, PoolOk, OrderOk, DutyOk;
    ReaderGone(c, s, t, p);
  }

  function Marked(s: State, p: Pos, b: Id): State {
    s.(marked := s.marked + {Slot(b, p.off)}, reader := s.reader - {p})
  }

  lemma MarkMarks(c: Config, s: State, t: Tid, p: Pos, b: Id)
    requires SharedOk(c, s) && p in s.reader && s.reader[p] == t && Serves(s.serves, p.lap, b) && p.off + 1 < c.cap
    requires !c.exclusive
    ensures MarksOk(c, s.head, Marked(s, p, b).marked, s.place, s.reader - {p})
    ensures b in s.place && LapOf(s.place[b]) == Some(p.lap)
  {
    hide HeadTailOk, CountsOk, StartOk, LinksOk, TagsOk, ContentOk, PoolOk, OrderOk, WritersOk, GotOk, MovingOk;
  }

  lemma MarkShared(c: Config, s: State, t: Tid, p: Pos, b: Id)
    requires SharedOk(c, s) && p in s.reader && s.reader[p] == t && Serves(s.serves, p.lap, b) && p.off + 1 < c.cap
    requires !c.exclusive && p in s.got
    ensures SharedOk(c, Marked(s, p, b))
    ensures forall q :: q in s.reader - {p} ==> s.reader[q] != t
  {
    hide HeadTailOk, CountsOk, LiveOk, StartOk, LinksOk, MarksOk, TagsOk, ContentOk, PoolOk, OrderOk, WritersOk,
      ReadersOk,
      GotOk, MovingOk;
    MarkMarks(c, s, t, p, b);
    ReaderGone(c, s, t, p);
  }

  lemma MarkRely(c: Config, s: State, t: Tid, p: Pos, b: Id)
    requires SharedOk(c, s) && p in s.reader && s.reader[p] == t && Serves(s.serves, p.lap, b) && p.off + 1 < c.cap
    requires !c.exclusive
    ensures Rely(c, s, Marked(s, p, b), t)
  {
    hide CountsOk, LiveOk, StartOk, LinksOk, MarksOk, TagsOk, ContentOk, PoolOk, OrderOk, DutyOk;
    MarkMarks(c, s, t, p, b);
  }

  lemma ReadStepOk(c: Config, s: State, t: Tid, p: Pos, b: Id, pc: ReadPc)
    requires Inv(c, s) && t < |s.pcs| && s.pcs[t] == Reading(p, b, pc)
    ensures StepOk(c, s, Apply(StepRead(c, s, t, p, b, pc), t), t)
  {
    hide SharedOk, ThreadsOk, Rely, StepOk, Goto;
    Knows(c, s, t);
    ReaderPos(c, s, p);
    if pc.Mark? {
      MarkShared(c, s, t, p, b);
      MarkRely(c, s, t, p, b);
      ThenGoto(c, s, Marked(s, p, b), t, Idle);
    } else {
      CopiesPushed(c, s, p, b);
      CopyShared(c, s, t, p, b);
      assert p.off + 1 < c.cap ==> CopiedOut(c, s, p, s.value[Slot(b, p.off)]) == Copied(s, p, b);
      if p.off + 1 < c.cap {
        ThenGoto(c, s, Copied(s, p, b), t, Reading(p, b, Mark));
      } else {
        LastCopyOk(c, s, t, p, b);
      }
    }
  }

  lemma ReaderPos(c: Config, s: State, p: Pos)
    requires SharedOk(c, s) && p in s.reader
    ensures p.off < c.cap
  {
    hide HeadTailOk, CountsOk, LiveOk, StartOk, LinksOk, MarksOk, TagsOk, ContentOk, PoolOk, OrderOk, WritersOk, GotOk,
      MovingOk;
  }

  lemma LastCopyOk(c: Config, s: State, t: Tid, p: Pos, b: Id)
    requires Inv(c, s) && t < |s.pcs| && s.pcs[t] == Reading(p, b, Copy) && p.off + 1 == c.cap
    requires Slot(b, p.off) in s.value && SharedOk(c, Copied(s, p, b)) && Rely(c, s, Copied(s, p, b), t)
    ensures StepOk(c, s, Goto(Copied(s, p, b).(reader := s.reader - {p}), t, Moving(p, b, LoadNext)), t)
  {
    hide SharedOk, ThreadsOk, StepOk, Goto, Rely;
    Knows(c, s, t);
    var s1 := Copied(s, p, b);
    var s2 := s1.(reader := s1.reader - {p});
    LastReadShared(c, s1, t, p);
    LastCopyRely(c, s, t, p, b);
    LastCopyDuties(c, s1, t, p, b);
    ThenGoto(c, s, s2, t, Moving(p, b, LoadNext));
  }

  lemma LastCopyDuties(c: Config, s: State, t: Tid, p: Pos, b: Id)
    requires SharedOk(c, s) && t < |s.pcs| && s.pcs[t] == Reading(p, b, Copy) && p in s.got
    ensures SameDuties(c, s.(reader := s.reader - {p}), t, Moving(p, b, LoadNext))
  {
    hide MemoryOk, WritersOk, GotOk, MovingOk;
  }

  lemma LastCopyRely(c: Config, s: State, t: Tid, p: Pos, b: Id)
    requires Slot(b, p.off) in s.value && Rely(c, s, Copied(s, p, b), t) && p in s.reader && s.reader[p] == t
    ensures Rely(c, s, Copied(s, p, b).(reader := s.reader - {p}), t)
  {
  }
}
