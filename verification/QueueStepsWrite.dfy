/**
  Writing and publishing a value keeps the invariant: the slot belongs to the claim, and no
  value that is still to be read is overwritten.
*/
module QueueStepsWrite {
  import opened Basics
  import opened Positions
  import opened QueueModel
  import opened QueueInvariant
  import opened QueueRely
  import opened QueueStepOk

  /** A value still to be read lies in the block of its lap, on the chain or waiting for its
      readers. */
  lemma UnreadPlace(c: Config, s: State, p: Pos)
    requires Inv(c, s) && Unread(c, s.head, s.tail, s.writer, s.reader, p)
    ensures p.lap < |s.serves| && s.serves[p.lap] in s.place
    ensures LapOf(s.place[s.serves[p.lap]]) == Some(p.lap)
  {
    hide HeadTailOk, CountsOk, WritersOk, StartOk, LinksOk, MarksOk, TagsOk, PoolOk, OrderOk, GotOk, ThreadsOk,
      ThreadOk;
    if p !in s.reader && p.lap < s.headLap {
      BehindHeadBlock(c, s, p);
    }
  }

  /** Only the exclusive consumer's own batch is behind the head block and not behind the head. */
  lemma BehindHeadBlock(c: Config, s: State, p: Pos)
    requires Inv(c, s) && AtMost(s.head, p) && p.off < c.cap && p.lap < s.headLap
    ensures p.lap < |s.serves| && s.serves[p.lap] in s.place
    ensures LapOf(s.place[s.serves[p.lap]]) == Some(p.lap)
  {
    hide CountsOk, WritersOk, ReadersOk, StartOk, LinksOk, MarksOk, TagsOk, ContentOk, PoolOk, OrderOk, GotOk;
    if s.moving.Some? {
      Knows(c, s, s.moving.value);
    }
  }

  /** The block of a claim is live, for the claim's lap. */
  lemma ClaimLive(c: Config, s: State, t: Tid, m: Msg, b: Id)
    requires SharedOk(c, s) && ClaimOk(c, s, t, m) && Serves(s.serves, m.p.lap, b)
    ensures b in s.place && s.place[b] == Live(m.p.lap) && m.p.off < c.cap && m.p !in s.reader
    ensures !Published(c, s.tail, s.writer, m.p) && AtMost(s.head, m.p) && Before(m.p, s.tail)
  {
    hide HeadTailOk, CountsOk, StartOk, LinksOk, MarksOk, TagsOk, ContentOk, PoolOk, OrderOk, GotOk, MovingOk;
  }

  /** The claimed slot holds no value that is still to be read. */
  lemma ClaimedSlotFree(c: Config, s: State, t: Tid, m: Msg, b: Id, p: Pos)
    requires Inv(c, s) && ClaimOk(c, s, t, m) && Serves(s.serves, m.p.lap, b)
    requires Unread(c, s.head, s.tail, s.writer, s.reader, p)
    ensures p.lap < |s.serves| && Slot(s.serves[p.lap], p.off) != Slot(b, m.p.off)
  {
    hide SharedOk, ThreadsOk, ClaimOk;
    UnreadPlace(c, s, p);
    ClaimLive(c, s, t, m, b);
  }

  /** Two claims never share a slot. */
  lemma ClaimsApart(c: Config, s: State, t: Tid, m: Msg, b: Id, p: Pos)
    requires SharedOk(c, s) && ClaimOk(c, s, t, m) && Serves(s.serves, m.p.lap, b)
    requires p in s.writer && s.writer[p] != t && p.lap < |s.serves|
    ensures Slot(s.serves[p.lap], p.off) != Slot(b, m.p.off)
  {
    hide HeadTailOk, CountsOk, StartOk, LinksOk, MarksOk, TagsOk, ContentOk, PoolOk, OrderOk, GotOk, MovingOk,
      ReadersOk;
  }

  function Written(s: State, m: Msg, b: Id): State {
    s.(value := s.value[Slot(b, m.p.off) := m.v])
  }

  lemma WriteShared(c: Config, s: State, t: Tid, m: Msg, b: Id)
    requires Inv(c, s) && ClaimOk(c, s, t, m) && Serves(s.serves, m.p.lap, b)
    ensures SharedOk(c, Written(s, m, b))
  {
    hide HeadTailOk, CountsOk, LiveOk, StartOk, LinksOk, MarksOk, TagsOk, PoolOk, OrderOk, WritersOk, ReadersOk, GotOk,
      MovingOk, ThreadsOk;
    forall p | Unread(c, s.head, s.tail, s.writer, s.reader, p)
      ensures p.lap < |s.serves| && Slot(s.serves[p.lap], p.off) != Slot(b, m.p.off)
    {
      ClaimedSlotFree(c, s, t, m, b, p);
    }
  }

  lemma WriteRely(c: Config, s: State, t: Tid, m: Msg, b: Id)
    requires SharedOk(c, s) && ClaimOk(c, s, t, m) && Serves(s.serves, m.p.lap, b)
    ensures Rely(c, s, Written(s, m, b), t)
  {
    hide CountsOk, LiveOk, StartOk, LinksOk, MarksOk, TagsOk, ContentOk, PoolOk, OrderOk, DutyOk;
    forall p | p in s.writer && s.writer[p] != t && p.lap < |s.serves|
      ensures Slot(s.serves[p.lap], p.off) != Slot(b, m.p.off)
    {
      ClaimsApart(c, s, t, m, b, p);
    }
  }

  function Publishing(s: State, m: Msg, b: Id): State {
    s.(tag := s.tag[Slot(b, m.p.off) := m.p.lap], writer := s.writer - {m.p})
  }

  /** Publishing adds the claim's own position and no other. */
  lemma PublishAdds(c: Config, s: State, t: Tid, m: Msg, b: Id)
    requires SharedOk(c, s) && ClaimOk(c, s, t, m) && Serves(s.serves, m.p.lap, b)
    ensures forall p :: Published(c, s.tail, s.writer - {m.p}, p) <==> Published(c, s.tail, s.writer, p) || p == m.p
  {
    hide SharedOk;
    ClaimLive(c, s, t, m, b);
  }

  lemma PublishContent(c: Config, s: State, t: Tid, m: Msg, b: Id)
    requires Inv(c, s) && ClaimOk(c, s, t, m) && WritingOk(c, s, m, b, Publish)
    ensures var s2 := Publishing(s, m, b);
      ContentOk(c, s2.head, s2.tail, s2.writer, s2.reader, s2.serves, s2.tag, s2.value, s2.log)
  {
    hide HeadTailOk, CountsOk, LiveOk, StartOk, LinksOk, MarksOk, TagsOk, PoolOk, OrderOk, DutyOk, ThreadsOk, Linked;
    PublishAdds(c, s, t, m, b);
    forall p | Unread(c, s.head, s.tail, s.writer, s.reader, p)
      ensures p.lap < |s.serves| && Slot(s.serves[p.lap], p.off) != Slot(b, m.p.off)
    {
      ClaimedSlotFree(c, s, t, m, b, p);
    }
  }

  lemma PublishTags(c: Config, s: State, t: Tid, m: Msg, b: Id)
    requires SharedOk(c, s) && ClaimOk(c, s, t, m) && Serves(s.serves, m.p.lap, b)
    ensures var s2 := Publishing(s, m, b); TagsOk(c, s2.tail, s2.writer, s2.serves, s2.tag)
  {
    hide HeadTailOk, CountsOk, LiveOk, StartOk, LinksOk, MarksOk, ContentOk, PoolOk, OrderOk, DutyOk, Published;
    PublishAdds(c, s, t, m, b);
  }

  lemma PublishLinks(c: Config, s: State, t: Tid, m: Msg, b: Id)
    requires SharedOk(c, s) && ClaimOk(c, s, t, m) && WritingOk(c, s, m, b, Publish)
    ensures var s2 := Publishing(s, m, b);
      LinksOk(c, s2.headLap, s2.serves, s2.nextOf, s2.prevOf, s2.tail, s2.writer)
  {
    hide HeadTailOk, CountsOk, LiveOk, StartOk, MarksOk, TagsOk, ContentOk, PoolOk, OrderOk, DutyOk, Published;
    PublishAdds(c, s, t, m, b);
  }

  lemma PublishDuty(c: Config, s: State, t: Tid, m: Msg, b: Id)
    requires DutyOk(c, s) && ClaimOk(c, s, t, m) && t < |s.pcs| && s.pcs[t] == Writing(m, b, Publish)
    ensures DutyOk(c, Publishing(s, m, b)) && SameDuties(c, Publishing(s, m, b), t, Idle)
  {
  }

  lemma PublishShared(c: Config, s: State, t: Tid, m: Msg, b: Id)
    requires Inv(c, s) && t < |s.pcs| && s.pcs[t] == Writing(m, b, Publish)
    requires ClaimOk(c, s, t, m) && WritingOk(c, s, m, b, Publish)
    ensures SharedOk(c, Publishing(s, m, b)) && SameDuties(c, Publishing(s, m, b), t, Idle)
  {
    hide HeadTailOk, CountsOk, LiveOk, StartOk, LinksOk, MarksOk, TagsOk, ContentOk, PoolOk, OrderOk, DutyOk, ThreadsOk,
      ClaimOk, SameDuties;
    PublishContent(c, s, t, m, b);
    PublishTags(c, s, t, m, b);
    PublishLinks(c, s, t, m, b);
    PublishDuty(c, s, t, m, b);
  }

  lemma PublishRely(c: Config, s: State, t: Tid, m: Msg, b: Id)
    requires SharedOk(c, s) && ClaimOk(c, s, t, m) && WritingOk(c, s, m, b, Publish)
    ensures Rely(c, s, Publishing(s, m, b), t)
  {
    hide CountsOk, LiveOk, StartOk, LinksOk, MarksOk, TagsOk, ContentOk, PoolOk, OrderOk, DutyOk, Linked;
    PublishAdds(c, s, t, m, b);
  }

  lemma WriteStepOk(c: Config, s: State, t: Tid, m: Msg, b: Id, pc: WritePc)
    requires Inv(c, s) && t < |s.pcs| && s.pcs[t] == Writing(m, b, pc)
    ensures StepOk(c, s, Apply(StepWrite(c, s, t, m, b, pc), t), t)
  {
    hide SharedOk, ThreadsOk, Rely, StepOk, Goto, SameDuties;
    Knows(c, s, t);
    if pc.Write? {
      WriteShared(c, s, t, m, b);
      WriteRely(c, s, t, m, b);
      WriteDuties(c, s, t, m, b);
      ThenGoto(c, s, Written(s, m, b), t, Writing(m, b, Publish));
    } else {
      PublishShared(c, s, t, m, b);
      PublishRely(c, s, t, m, b);
      ThenGoto(c, s, Publishing(s, m, b), t, Idle);
    }
  }

  lemma WriteDuties(c: Config, s: State, t: Tid, m: Msg, b: Id)
    requires t < |s.pcs| && s.pcs[t] == Writing(m, b, Write)
    ensures SameDuties(c, Written(s, m, b), t, Writing(m, b, Publish))
  {
  }
}
