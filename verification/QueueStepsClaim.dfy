/**
  Claiming a position keeps the invariant.
*/
module QueueStepsClaim {
  import opened Basics
  import opened Positions
  import opened QueueModel
  import opened QueueInvariant
  import opened QueueRely
  import opened QueueStepOk

  /** The claim of the tail position as one step. */
  function ClaimTail(c: Config, s: State, t: Tid, v: Value): State {
    Goto(TailTaken(c, s, t, v), t, Finding(Msg(s.tail, v), FindFast))
  }

  /** Where the published positions stay the same, what is said of them stays true. */
  lemma PublishedSame(c: Config, s: State, s': State)
    requires LinksOk(c, s.headLap, s.serves, s.nextOf, s.prevOf, s.tail, s.writer)
    requires TagsOk(c, s.tail, s.writer, s.serves, s.tag)
    requires ContentOk(c, s.head, s.tail, s.writer, s.reader, s.serves, s.tag, s.value, s.log)
    requires s' == s.(tail := s'.tail, writer := s'.writer, log := s'.log, pcs := s'.pcs)
    requires s.log <= s'.log && AtMost(s.tail, s'.tail)
    requires forall p :: Published(c, s'.tail, s'.writer, p) <==> Published(c, s.tail, s.writer, p)
    ensures LinksOk(c, s'.headLap, s'.serves, s'.nextOf, s'.prevOf, s'.tail, s'.writer)
    ensures TagsOk(c, s'.tail, s'.writer, s'.serves, s'.tag)
    ensures ContentOk(c, s'.head, s'.tail, s'.writer, s'.reader, s'.serves, s'.tag, s'.value, s'.log)
  {
    hide LinksOk, TagsOk, ContentOk, Published, AtMost;
    SameLinks(c, s.headLap, s.serves, s.nextOf, s.prevOf, s.tail, s'.tail, s.writer, s'.writer);
    SameTags(c, s.tail, s'.tail, s.writer, s'.writer, s.serves, s.tag);
    SameContent(c, s, s'.tail, s'.writer, s'.log);
  }

  lemma SameLinks(c: Config, headLap: nat, serves: seq<Id>, nextOf: map<Id, Id>, prevOf: map<Id, Id>,
                  tail: Pos, tail': Pos, writer: map<Pos, Tid>, writer': map<Pos, Tid>)
    requires LinksOk(c, headLap, serves, nextOf, prevOf, tail, writer) && AtMost(tail, tail')
    requires forall p :: Published(c, tail', writer', p) <==> Published(c, tail, writer, p)
    ensures LinksOk(c, headLap, serves, nextOf, prevOf, tail', writer')
  {
    hide Published;
  }

  lemma SameTags(c: Config, tail: Pos, tail': Pos, writer: map<Pos, Tid>, writer': map<Pos, Tid>, serves: seq<Id>,
                 tag: map<Slot, nat>)
    requires TagsOk(c, tail, writer, serves, tag)
    requires forall p :: Published(c, tail', writer', p) <==> Published(c, tail, writer, p)
    ensures TagsOk(c, tail', writer', serves, tag)
  {
    hide Published;
  }

  lemma SameContent(c: Config, s: State, tail': Pos, writer': map<Pos, Tid>, log': seq<Claimed>)
    requires ContentOk(c, s.head, s.tail, s.writer, s.reader, s.serves, s.tag, s.value, s.log) && s.log <= log'
    requires forall p :: Published(c, tail', writer', p) <==> Published(c, s.tail, s.writer, p)
    ensures ContentOk(c, s.head, tail', writer', s.reader, s.serves, s.tag, s.value, log')
  {
    hide Published, AtMost, Rank;
  }

  lemma SkipShared(c: Config, s: State, t: Tid)
    requires SharedOk(c, s) && t < |s.pcs| && IsSentinel(c.cap, s.tail)
    ensures SharedOk(c, SkipSentinel(c, s))
  {
    hide ReadersOk, LiveOk, StartOk, MarksOk, PoolOk, OrderOk, GotOk, MovingOk, TagsOk, LinksOk, ContentOk;
    SkipPublished(c, s);
    PublishedSame(c, s, SkipSentinel(c, s));
  }

  lemma SkipRely(c: Config, s: State, t: Tid)
    requires SharedOk(c, s) && t < |s.pcs| && IsSentinel(c.cap, s.tail)
    ensures Rely(c, s, SkipSentinel(c, s), t)
  {
    hide CountsOk, WritersOk, ReadersOk, LiveOk, StartOk, MarksOk, PoolOk, OrderOk, GotOk, MovingOk, TagsOk,
      LinksOk, ContentOk;
  }

  /** No value position is added by skipping a sentinel. */
  lemma SkipPublished(c: Config, s: State)
    requires HeadTailOk(c, s.head, s.tail, s.cached) && IsSentinel(c.cap, s.tail)
    ensures forall p :: Published(c, Next(c.cap, s.tail), s.writer, p) <==> Published(c, s.tail, s.writer, p)
  {
  }

  /** The head block is never ahead of a position that can be claimed. */
  lemma HeadLapBound(c: Config, s: State)
    requires Inv(c, s) && !IsSentinel(c.cap, s.tail)
    ensures s.headLap <= s.tail.lap
  {
    hide CountsOk, WritersOk, ReadersOk, LiveOk, StartOk, LinksOk, MarksOk, TagsOk, ContentOk, PoolOk, OrderOk, GotOk;
    if s.moving.Some? {
      assert ThreadOk(c, s, s.moving.value, s.pcs[s.moving.value]);
      match s.pcs[s.moving.value]
      case Batching(SoloAdvance(h, _, count, _)) =>
        assert Published(c, s.tail, s.writer, Pos(h.lap, h.off + (count - 1)));
      case _ =>
    }
  }

  lemma ClaimTailWriters(c: Config, s: State, t: Tid, v: Value)
    requires HeadTailOk(c, s.head, s.tail, s.cached) && !IsSentinel(c.cap, s.tail) && s.headLap <= s.tail.lap
    requires WritersOk(c, s.head, s.tail, s.headLap, s.writer, s.pcs)
    requires t < |s.pcs| && ClaimOf(s.pcs[t]).None?
    ensures var s' := ClaimTail(c, s, t, v); WritersOk(c, s'.head, s'.tail, s'.headLap, s'.writer, s'.pcs)
  {
  }

  lemma ClaimTailDuty(c: Config, s: State, t: Tid, v: Value)
    requires DutyOk(c, s) && t < |s.pcs| && !IsSentinel(c.cap, s.tail)
    requires HeadTailOk(c, s.head, s.tail, s.cached) && s.headLap <= s.tail.lap
    requires s.pcs[t].Claiming?
    ensures DutyOk(c, ClaimTail(c, s, t, v))
  {
    hide WritersOk, ReadersOk, GotOk, MovingOk;
    var pc := ClaimTail(c, s, t, v).pcs[t];
    ClaimTailWriters(c, s, t, v);
    ClaimerReads(c, s, t, pc);
    ClaimerGot(c, s, t, pc, Claimed(t, v));
    ClaimerMoves(c, s, t, pc);
  }

  lemma ClaimerReads(c: Config, s: State, t: Tid, pc: Pc)
    requires ReadersOk(c, s.head, s.serves, s.place, s.reader, s.pcs) && t < |s.pcs| && s.pcs[t].Claiming?
    ensures ReadersOk(c, s.head, s.serves, s.place, s.reader, s.pcs[t := pc])
  {
  }

  lemma ClaimerGot(c: Config, s: State, t: Tid, pc: Pc, x: Claimed)
    requires GotOk(c, s.head, s.reader, s.pcs, s.got, s.log) && t < |s.pcs| && s.pcs[t].Claiming?
    ensures GotOk(c, s.head, s.reader, s.pcs[t := pc], s.got, s.log + [x])
  {
    hide Rank, Before;
  }

  lemma ClaimerMoves(c: Config, s: State, t: Tid, pc: Pc)
    requires MovingOk(c, s.head, s.headLap, s.moving, s.pcs) && t < |s.pcs| && s.pcs[t].Claiming?
    ensures MovingOk(c, s.head, s.headLap, s.moving, s.pcs[t := pc])
  {
  }

  lemma ClaimTailShared(c: Config, s: State, t: Tid, v: Value)
    requires SharedOk(c, s) && t < |s.pcs| && !IsSentinel(c.cap, s.tail)
    requires s.pcs[t].Claiming?
    requires c.capacity.Some? ==> Rank(c.cap, s.tail) < Rank(c.cap, s.head) + c.capacity.value
    requires s.headLap <= s.tail.lap
    ensures SharedOk(c, ClaimTail(c, s, t, v))
  {
    hide DutyOk, LiveOk, StartOk, MarksOk, PoolOk, OrderOk, TagsOk, LinksOk, ContentOk;
    ClaimPublished(c, s, t);
    PublishedSame(c, s, ClaimTail(c, s, t, v));
    ClaimTailDuty(c, s, t, v);
  }

  lemma ClaimTailRely(c: Config, s: State, t: Tid, v: Value)
    requires SharedOk(c, s) && t < |s.pcs| && !IsSentinel(c.cap, s.tail)
    ensures Rely(c, s, ClaimTail(c, s, t, v), t)
  {
    hide ReadersOk, LiveOk, StartOk, LinksOk, MarksOk, PoolOk, OrderOk, GotOk, MovingOk, TagsOk, ContentOk;
    ClaimPublished(c, s, t);
  }

  lemma ClaimTailKnows(c: Config, s: State, t: Tid, v: Value)
    requires SharedOk(c, s) && t < |s.pcs| && !IsSentinel(c.cap, s.tail)
    ensures ThreadOk(c, ClaimTail(c, s, t, v), t, Finding(Msg(s.tail, v), FindFast))
  {
    hide ReadersOk, StartOk, MarksOk, PoolOk, OrderOk, GotOk, MovingOk, TagsOk, ContentOk;
  }

  /** A claim publishes nothing. */
  lemma ClaimPublished(c: Config, s: State, t: Tid)
    requires HeadTailOk(c, s.head, s.tail, s.cached) && !IsSentinel(c.cap, s.tail)
    ensures forall p ::
      Published(c, Next(c.cap, s.tail), s.writer[s.tail := t], p) <==> Published(c, s.tail, s.writer, p)
  {
  }

  lemma ClaimTailOk(c: Config, s: State, t: Tid, v: Value)
    requires Inv(c, s) && t < |s.pcs| && !IsSentinel(c.cap, s.tail)
    requires s.pcs[t].Claiming?
    requires c.capacity.Some? ==> Rank(c.cap, s.tail) < Rank(c.cap, s.head) + c.capacity.value
    ensures StepOk(c, s, ClaimTail(c, s, t, v), t)
  {
    hide SharedOk, Rely, ThreadOk;
    HeadLapBound(c, s);
    ClaimTailShared(c, s, t, v);
    ClaimTailRely(c, s, t, v);
    ClaimTailKnows(c, s, t, v);
  }

  lemma SkipOk(c: Config, s: State, t: Tid, pc: Pc)
    requires Inv(c, s) && t < |s.pcs| && SameDuties(c, s, t, pc) && IsSentinel(c.cap, s.tail)
    requires ThreadOk(c, SkipSentinel(c, s), t, pc)
    ensures StepOk(c, s, Goto(SkipSentinel(c, s), t, pc), t)
  {
    hide SharedOk, Rely, ThreadOk;
    SkipShared(c, s, t);
    SkipRely(c, s, t);
    ThenGoto(c, s, SkipSentinel(c, s), t, pc);
  }

  lemma StoreStepOk(c: Config, s: State, t: Tid, ch: Choice, v: Value, t0: Pos, h: Pos)
    requires Inv(c, s) && t < |s.pcs| && s.pcs[t] == Claiming(v, BoundStore(t0, h))
    ensures StepOk(c, s, Apply(StepClaim(c, s, t, ch, v, BoundStore(t0, h)), t), t)
  {
    hide SharedOk, ThreadsOk, Rely, HeadTailOk, Rank, Goto, StepOk;
    Knows(c, s, t);
    CachedShared(c, s, t, h);
    ThenGoto(c, s, s.(cached := h), t, Claiming(v, BoundCas(t0)));
  }

  lemma CachedShared(c: Config, s: State, t: Tid, h: Pos)
    requires SharedOk(c, s) && AtMost(h, s.head) && h.off <= c.cap
    ensures SharedOk(c, s.(cached := h)) && Rely(c, s, s.(cached := h), t)
  {
    hide CountsOk, WritersOk, ReadersOk, LiveOk, StartOk, LinksOk, MarksOk, TagsOk, ContentOk, PoolOk, OrderOk, GotOk,
      MovingOk;
  }

  /** A stale head can only make the queue look fuller than it is. */
  lemma RoomFromHead(c: Config, s: State, h: Pos, t0: Pos)
    requires c.capacity.Some? && h.off <= c.cap && AtMost(h, s.head) && Items(c.cap, h, t0) < c.capacity.value
    ensures Rank(c.cap, t0) < Rank(c.cap, s.head) + c.capacity.value
  {
    RankMonotone(c.cap, h, s.head);
  }

  lemma UnboundedStepOk(c: Config, s: State, t: Tid, ch: Choice, v: Value, pc: ClaimPc)
    requires Inv(c, s) && t < |s.pcs| && s.pcs[t] == Claiming(v, pc) && (pc.Claim? || pc.ClaimCas?)
    ensures StepOk(c, s, Apply(StepClaim(c, s, t, ch, v, pc), t), t)
  {
    hide Inv, SharedOk, ThreadsOk, Rely, StepOk, Rank, Goto, TailTaken;
    Knows(c, s, t);
    if (pc.Claim? && ch.UseCas?) || (pc.ClaimCas? && (ch.Fail? || s.tail != pc.t)) {
      GotoOk(c, s, t, Claiming(v, ClaimCas(s.tail)));
    } else if !IsSentinel(c.cap, s.tail) {
      ClaimTailOk(c, s, t, v);
    } else if pc.Claim? {
      SkipOk(c, s, t, Claiming(v, Claim));
    } else {
      SkipOk(c, s, t, Claiming(v, ClaimCas(Next(c.cap, s.tail))));
    }
  }

  lemma BoundLookOk(c: Config, s: State, t: Tid, ch: Choice, v: Value, t0: Pos)
    requires Inv(c, s) && t < |s.pcs| && s.pcs[t] == Claiming(v, BoundLook(t0))
    ensures StepOk(c, s, Apply(StepClaim(c, s, t, ch, v, BoundLook(t0)), t), t)
  {
    hide Inv, SharedOk, ThreadsOk, Rely, StepOk, Rank, Items, Goto, TailTaken;
    Knows(c, s, t);
    if !IsSentinel(c.cap, t0) {
      if Items(c.cap, s.cached, t0) >= c.capacity.value { GotoOk(c, s, t, Claiming(v, BoundHead(t0))); }
      else { RoomFromHead(c, s, s.cached, t0); GotoOk(c, s, t, Claiming(v, BoundCas(t0))); }
    } else if ch.Fail? || s.tail != t0 {
      GotoOk(c, s, t, Claiming(v, BoundLook(s.tail)));
    } else {
      SkipOk(c, s, t, Claiming(v, BoundLook(Next(c.cap, t0))));
    }
  }

  lemma BoundedStepOk(c: Config, s: State, t: Tid, ch: Choice, v: Value, pc: ClaimPc)
    requires Inv(c, s) && t < |s.pcs| && s.pcs[t] == Claiming(v, pc)
    requires pc.BoundLoad? || pc.BoundHead? || pc.BoundCas?
    ensures StepOk(c, s, Apply(StepClaim(c, s, t, ch, v, pc), t), t)
  {
    hide Inv, SharedOk, ThreadsOk, Rely, StepOk, Rank, Items, Goto, TailTaken;
    Knows(c, s, t);
    if pc.BoundHead? {
      if Items(c.cap, s.head, pc.t) >= c.capacity.value { GotoOk(c, s, t, ReportFull(v)); }
      else { RoomFromHead(c, s, s.head, pc.t); GotoOk(c, s, t, Claiming(v, BoundStore(pc.t, s.head))); }
    } else if pc.BoundCas? && !ch.Fail? && s.tail == pc.t {
      ClaimTailOk(c, s, t, v);
    } else {
      GotoOk(c, s, t, Claiming(v, BoundLook(s.tail)));
    }
  }

  lemma ClaimStepOk(c: Config, s: State, t: Tid, ch: Choice, v: Value, pc: ClaimPc)
    requires Inv(c, s) && t < |s.pcs| && s.pcs[t] == Claiming(v, pc)
    ensures StepOk(c, s, Apply(StepClaim(c, s, t, ch, v, pc), t), t)
  {
    hide *;
    match pc
    case Claim => UnboundedStepOk(c, s, t, ch, v, pc);
    case ClaimCas(_) => UnboundedStepOk(c, s, t, ch, v, pc);
    case BoundLook(t0) => BoundLookOk(c, s, t, ch, v, t0);
    case BoundStore(t0, h) => StoreStepOk(c, s, t, ch, v, t0, h);
    case _ => BoundedStepOk(c, s, t, ch, v, pc);
  }

  /** Between receives the head of an exclusive queue is not in a transition. */
  lemma SoloIdle(c: Config, s: State)
    requires Inv(c, s) && c.exclusive && !InReceive(s.holder, s.pcs)
    ensures s.moving.None?
  {
    hide CountsOk, WritersOk, ReadersOk, LiveOk, StartOk, LinksOk, MarksOk, TagsOk, ContentOk, PoolOk, OrderOk, GotOk,
      HeadTailOk;
    if s.moving.Some? {
      Knows(c, s, s.moving.value);
    }
  }

  lemma CallStepOk(c: Config, s: State, t: Tid, ch: Choice)
    requires Inv(c, s) && t < |s.pcs|
    requires s.pcs[t].Idle? || s.pcs[t].ReportFull? || s.pcs[t].ReportNone? || s.pcs[t].ReportBusy?
    ensures StepOk(c, s, Apply(StepCall(c, s, t, ch), t), t)
  {
    hide Inv, SharedOk, ThreadsOk, Rely, StepOk, Goto;
    Knows(c, s, t);
    if s.pcs[t].Idle? && ch.StartBatch? && c.exclusive && ch.limit > 0 && !InReceive(s.holder, s.pcs) {
      HandOverOk(c, s, t, ch.limit);
    } else {
      GotoOk(c, s, t, StepCall(c, s, t, ch).pc);
    }
  }

  /** The exclusive receiver goes to the thread that receives next. */
  lemma HandOverOk(c: Config, s: State, t: Tid, limit: nat)
    requires Inv(c, s) && t < |s.pcs| && s.pcs[t].Idle? && c.exclusive && limit > 0 && !InReceive(s.holder, s.pcs)
    ensures StepOk(c, s, Goto(s.(holder := t), t, Batching(SoloHead(limit))), t)
  {
    hide SharedOk, ThreadsOk, Rely, StepOk, Goto;
    SoloIdle(c, s);
    HandOverShared(c, s, t);
    ThenGoto(c, s, s.(holder := t), t, Batching(SoloHead(limit)));
  }

  lemma HandOverShared(c: Config, s: State, t: Tid)
    requires SharedOk(c, s) && !InReceive(s.holder, s.pcs)
    ensures SharedOk(c, s.(holder := t)) && Rely(c, s, s.(holder := t), t)
  {
    hide CountsOk, LiveOk, StartOk, LinksOk, MarksOk, TagsOk, ContentOk, PoolOk, OrderOk, WritersOk, ReadersOk, GotOk,
      MovingOk;
  }
}
