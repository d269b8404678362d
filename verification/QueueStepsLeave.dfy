/**
  The block transition keeps the invariant: the head moves to the linked next block, and the
  block left behind is reset or retired according to its readers.
*/
module QueueStepsLeave {
  import opened Basics
  import opened Positions
  import opened QueueModel
  import opened QueueInvariant
  import opened QueueRely
  import opened QueueStepOk
  import QueueStepsInstall

  /** The head block of a finished lap has a next block, and it is linked. */
  lemma NextIsLinked(c: Config, s: State, k: nat)
    requires SharedOk(c, s) && k == s.headLap && Published(c, s.tail, s.writer, Pos(k, c.cap - 1))
    ensures k + 1 < |s.serves| && s.serves[k] in s.nextOf && s.nextOf[s.serves[k]] == s.serves[k + 1]
  {
    hide HeadTailOk, CountsOk, StartOk, MarksOk, TagsOk, ContentOk, PoolOk, OrderOk, DutyOk;
  }

  /** What the head has passed is published. */
  lemma PassedPublished(c: Config, s: State, k: nat)
    requires SharedOk(c, s) && s.head == Pos(k, c.cap)
    ensures Published(c, s.tail, s.writer, Pos(k, c.cap - 1))
  {
    hide CountsOk, LiveOk, StartOk, LinksOk, MarksOk, TagsOk, ContentOk, PoolOk, OrderOk, ReadersOk, GotOk, MovingOk;
  }

  // ---- The head block moves on ------------------------------------------------------------------

  lemma MoveHeadChain(c: Config, s: State, t: Tid, k: nat, b: Id, n: Id)
    requires LiveOk(s.headBlock, s.headLap, s.serves, s.place) && StartOk(s.start, s.serves, s.place)
    requires k == s.headLap && Serves(s.serves, k, b) && Serves(s.serves, k + 1, n)
    ensures var s2 := HeadBlockMoved(s, t, k, b, n);
      LiveOk(s2.headBlock, s2.headLap, s2.serves, s2.place) && StartOk(s2.start, s2.serves, s2.place)
  {
    hide LiveOk, StartOk;
    MoveHeadLive(s.headBlock, s.headLap, s.serves, s.place, t, b, n);
    MoveHeadStart(s.start, s.serves, s.place, t, k, b);
  }

  lemma MoveHeadLive(headBlock: Id, headLap: nat, serves: seq<Id>, place: map<Id, Place>, t: Tid, b: Id, n: Id)
    requires LiveOk(headBlock, headLap, serves, place) && Serves(serves, headLap, b) && Serves(serves, headLap + 1, n)
    ensures LiveOk(n, headLap + 1, serves, place[b := Finishing(t, headLap)])
  {
  }

  lemma MoveHeadStart(start: map<Id, nat>, serves: seq<Id>, place: map<Id, Place>, t: Tid, k: nat, b: Id)
    requires StartOk(start, serves, place)
    ensures StartOk(start, serves, place[b := Finishing(t, k)])
  {
  }

  lemma MoveHeadLinks(c: Config, s: State)
    requires LinksOk(c, s.headLap, s.serves, s.nextOf, s.prevOf, s.tail, s.writer)
    ensures LinksOk(c, s.headLap + 1, s.serves, s.nextOf, s.prevOf, s.tail, s.writer)
  {
  }

  lemma MoveHeadPools(c: Config, s: State, t: Tid, k: nat, b: Id, n: Id)
    requires SharedOk(c, s) && k == s.headLap && Serves(s.serves, k, b) && Serves(s.serves, k + 1, n)
    ensures var s2 := HeadBlockMoved(s, t, k, b, n);
      && PoolOk(s2.spare, s2.ready, s2.retired, s2.blocks, s2.place)
      && MarksOk(c, s2.head, s2.marked, s2.place, s2.reader)
      && ReadersOk(c, s2.head, s2.serves, s2.place, s2.reader, s2.pcs)
  {
    hide HeadTailOk, CountsOk, StartOk, LinksOk, TagsOk, ContentOk, OrderOk, WritersOk, GotOk, MovingOk, PoolOk,
      MarksOk, ReadersOk;
    QueueStepsInstall.LiveDistinct(c, s, k);
    QueueStepsInstall.PoolKeeps(s, b, Finishing(t, k));
    FinishingMarks(c, s.head, s.marked, s.place, s.reader, b, t, k);
    FinishingReaders(c, s, b, t, k);
  }

  /** A live block that leaves the chain keeps its lap, its marks and its readers. */
  lemma FinishingMarks(c: Config, head: Pos, marked: set<Slot>, place: map<Id, Place>, reader: map<Pos, Tid>, b: Id,
                       t: Tid, k: nat)
    requires MarksOk(c, head, marked, place, reader) && Owns(place, b, Live(k))
    ensures MarksOk(c, head, marked, place[b := Finishing(t, k)], reader)
  {
    hide Before;
  }

  lemma FinishingReaders(c: Config, s: State, b: Id, t: Tid, k: nat)
    requires ReadersOk(c, s.head, s.serves, s.place, s.reader, s.pcs) && Owns(s.place, b, Live(k))
    ensures ReadersOk(c, s.head, s.serves, s.place[b := Finishing(t, k)], s.reader, s.pcs)
  {
    hide Before;
  }

  lemma MoveHeadWriters(c: Config, s: State, t: Tid, k: nat)
    requires SharedOk(c, s) && s.headLap == k
    requires forall p :: p in s.writer ==> p.lap > k
    ensures WritersOk(c, s.head, s.tail, k + 1, s.writer, s.pcs)
  {
    hide HeadTailOk, CountsOk, LiveOk, StartOk, LinksOk, MarksOk, TagsOk, ContentOk, PoolOk, OrderOk, ReadersOk, GotOk,
      MovingOk;
  }

  lemma MoveHeadRely(c: Config, s: State, t: Tid, k: nat, b: Id, n: Id)
    requires SharedOk(c, s) && b in s.place && s.place[b] == Live(k)
    requires s.moving.Some? ==> s.moving.value == t
    requires c.exclusive ==> t == s.holder
    ensures Rely(c, s, HeadBlockMoved(s, t, k, b, n), t)
  {
    hide CountsOk, LiveOk, StartOk, LinksOk, MarksOk, TagsOk, ContentOk, PoolOk, OrderOk, DutyOk;
  }

  /** The transition's duty falls to `t`, whose program point says so. */
  lemma MoveHeadOk(c: Config, s: State, t: Tid, k: nat, b: Id, n: Id, pc: Pc)
    requires Inv(c, s) && t < |s.pcs| && k == s.headLap && Serves(s.serves, k, b) && Serves(s.serves, k + 1, n)
    requires ClaimOf(s.pcs[t]).None? && !s.pcs[t].Reading? && IsMoving(c, pc)
    requires s.moving.Some? ==> s.moving.value == t
    requires c.exclusive ==> t == s.holder
    requires forall p :: p in s.writer ==> p.lap > k
    requires ThreadOk(c, HeadBlockMoved(s, t, k, b, n), t, pc)
    ensures StepOk(c, s, Goto(HeadBlockMoved(s, t, k, b, n), t, pc), t)
  {
    hide HeadTailOk, CountsOk, LiveOk, StartOk, LinksOk, MarksOk, TagsOk, ContentOk, PoolOk, OrderOk, DutyOk, ThreadsOk,
      ThreadOk, Rely, StepOk, Goto, IsMoving, ClaimOf;
    var s2 := HeadBlockMoved(s, t, k, b, n);
    MoveHeadChain(c, s, t, k, b, n);
    MoveHeadLinks(c, s);
    MoveHeadPools(c, s, t, k, b, n);
    QueueStepsInstall.LiveDistinct(c, s, k);
    MoveHeadRely(c, s, t, k, b, n);
    MoveHeadWriters(c, s, t, k);
    MoveHeadDuty(c, s, t, k, b, n, pc);
    TogetherOk(c, s, s2, t, pc);
  }

  lemma MoveHeadDuty(c: Config, s: State, t: Tid, k: nat, b: Id, n: Id, pc: Pc)
    requires DutyOk(c, s) && t < |s.pcs|
    requires ClaimOf(s.pcs[t]).None? && !s.pcs[t].Reading? && IsMoving(c, pc)
    requires WritersOk(c, s.head, s.tail, s.headLap + 1, s.writer, s.pcs)
    requires ReadersOk(c, s.head, s.serves, HeadBlockMoved(s, t, k, b, n).place, s.reader, s.pcs)
    ensures DutyOk(c, Goto(HeadBlockMoved(s, t, k, b, n), t, pc))
  {
    hide WritersOk;
    PcsWriters(c, s, s.headLap + 1, t, pc);
  }

  lemma PcsWriters(c: Config, s: State, headLap: nat, t: Tid, pc: Pc)
    requires t < |s.pcs| && ClaimOf(s.pcs[t]).None?
    requires WritersOk(c, s.head, s.tail, headLap, s.writer, s.pcs)
    ensures WritersOk(c, s.head, s.tail, headLap, s.writer, s.pcs[t := pc])
  {
  }

  // ---- The head leaves the sentinel -------------------------------------------------------------

  function Swapped(s: State, k: nat): State {
    s.(head := Pos(k + 1, 0), moving := None)
  }

  /** No value position lies between a lap's sentinel and the next lap. */
  lemma SentinelGap(c: Config, k: nat)
    ensures forall p: Pos :: p.off < c.cap ==> (Before(p, Pos(k, c.cap)) <==> Before(p, Pos(k + 1, 0)))
    ensures forall p: Pos :: p.off < c.cap ==> (AtMost(Pos(k, c.cap), p) <==> AtMost(Pos(k + 1, 0), p))
  {
  }

  lemma SwapIndices(c: Config, s: State, k: nat)
    requires SharedOk(c, s) && s.head == Pos(k, c.cap)
    ensures var s2 := Swapped(s, k);
      && HeadTailOk(c, s2.head, s2.tail, s2.cached) && CountsOk(c, s2.head, s2.tail, s2.log)
      && OrderOk(c, s2.head, s2.order)
  {
    hide LiveOk, StartOk, LinksOk, MarksOk, TagsOk, ContentOk, PoolOk, DutyOk;
  }

  lemma SwapContent(c: Config, s: State, k: nat)
    requires SharedOk(c, s) && s.head == Pos(k, c.cap)
    ensures var s2 := Swapped(s, k);
      && ContentOk(c, s2.head, s2.tail, s2.writer, s2.reader, s2.serves, s2.tag, s2.value, s2.log)
      && MarksOk(c, s2.head, s2.marked, s2.place, s2.reader)
  {
    hide HeadTailOk, CountsOk, OrderOk, LiveOk, StartOk, LinksOk, TagsOk, PoolOk, DutyOk, Before, AtMost;
    SentinelGap(c, k);
  }

  lemma SwapDuty(c: Config, s: State, t: Tid, k: nat, b: Id, p: Pos)
    requires DutyOk(c, s) && s.head == Pos(k, c.cap) && s.headLap == k + 1 && t < |s.pcs|
    requires s.pcs[t] == Moving(p, b, SwapHead)
    ensures DutyOk(c, Goto(Swapped(s, k), t, Leaving(Scan(k, b, 0))))
  {
    hide WritersOk, ReadersOk, GotOk, MovingOk;
    SwapClaims(c, s, t, k, b, p);
    SwapReads(c, s, t, k, b, p);
    SwapMoving(c, s, t, k, b, p);
  }

  lemma SwapClaims(c: Config, s: State, t: Tid, k: nat, b: Id, p: Pos)
    requires WritersOk(c, s.head, s.tail, s.headLap, s.writer, s.pcs) && s.head == Pos(k, c.cap) && t < |s.pcs|
    requires s.pcs[t] == Moving(p, b, SwapHead)
    ensures WritersOk(c, Pos(k + 1, 0), s.tail, s.headLap, s.writer, s.pcs[t := Leaving(Scan(k, b, 0))])
  {
    hide Before, AtMost;
    SentinelGap(c, k);
  }

  lemma SwapReads(c: Config, s: State, t: Tid, k: nat, b: Id, p: Pos)
    requires ReadersOk(c, s.head, s.serves, s.place, s.reader, s.pcs) && GotOk(c, s.head, s.reader, s.pcs, s.got, s.log)
    requires s.head == Pos(k, c.cap) && t < |s.pcs| && s.pcs[t] == Moving(p, b, SwapHead)
    ensures ReadersOk(c, Pos(k + 1, 0), s.serves, s.place, s.reader, s.pcs[t := Leaving(Scan(k, b, 0))])
    ensures GotOk(c, Pos(k + 1, 0), s.reader, s.pcs[t := Leaving(Scan(k, b, 0))], s.got, s.log)
  {
    hide Before, AtMost, Rank;
    SentinelGap(c, k);
  }

  lemma SwapMoving(c: Config, s: State, t: Tid, k: nat, b: Id, p: Pos)
    requires MovingOk(c, s.head, s.headLap, s.moving, s.pcs) && s.headLap == k + 1 && t < |s.pcs|
    requires s.head == Pos(k, c.cap) && s.pcs[t] == Moving(p, b, SwapHead)
    ensures MovingOk(c, Pos(k + 1, 0), s.headLap, None, s.pcs[t := Leaving(Scan(k, b, 0))])
  {
  }

  lemma SwapRely(c: Config, s: State, t: Tid, k: nat)
    requires SharedOk(c, s) && s.head == Pos(k, c.cap) && !c.exclusive && s.moving == Some(t)
    ensures Rely(c, s, Swapped(s, k), t)
  {
    hide CountsOk, LiveOk, StartOk, LinksOk, MarksOk, TagsOk, ContentOk, PoolOk, OrderOk, DutyOk;
  }

  lemma SwapOk(c: Config, s: State, t: Tid, p: Pos, b: Id)
    requires Inv(c, s) && t < |s.pcs| && s.pcs[t] == Moving(p, b, SwapHead)
    ensures StepOk(c, s, Apply(StepMove(c, s, t, p, b, SwapHead), t), t)
  {
    hide HeadTailOk, CountsOk, LiveOk, StartOk, LinksOk, MarksOk, TagsOk, ContentOk, PoolOk, OrderOk, DutyOk, ThreadsOk,
      Rely, StepOk, Goto;
    Knows(c, s, t);
    assert Next(c.cap, Next(c.cap, p)) == Pos(p.lap + 1, 0);
    SwapIndices(c, s, p.lap);
    SwapContent(c, s, p.lap);
    SwapDuty(c, s, t, p.lap, b, p);
    SwapRely(c, s, t, p.lap);
    TogetherOk(c, s, Swapped(s, p.lap), t, Leaving(Scan(p.lap, b, 0)));
  }

  lemma WritersBeyond(c: Config, s: State, k: nat)
    requires SharedOk(c, s) && s.head == Pos(k, c.cap)
    ensures forall p :: p in s.writer ==> p.lap > k
  {
    hide HeadTailOk, CountsOk, LiveOk, StartOk, LinksOk, MarksOk, TagsOk, ContentOk, PoolOk, OrderOk, ReadersOk, GotOk,
      MovingOk;
  }

  lemma MoveStepOk(c: Config, s: State, t: Tid, p: Pos, b: Id, pc: MovePc)
    requires Inv(c, s) && t < |s.pcs| && s.pcs[t] == Moving(p, b, pc)
    ensures StepOk(c, s, Apply(StepMove(c, s, t, p, b, pc), t), t)
  {
    hide SharedOk, ThreadsOk, Rely, StepOk, Goto;
    Knows(c, s, t);
    match pc
    case LoadNext =>
      PassedPublished(c, s, p.lap);
      NextIsLinked(c, s, p.lap);
      GotoOk(c, s, t, Moving(p, b, MoveHeadBlock(s.nextOf[b])));
    case MoveHeadBlock(n) =>
      WritersBeyond(c, s, p.lap);
      MoveHeadOk(c, s, t, p.lap, b, n, Moving(p, b, SwapHead));
    case SwapHead => SwapOk(c, s, t, p, b);
  }

  // ---- The block left behind --------------------------------------------------------------------

  lemma RetireShared(c: Config, s: State, t: Tid, k: nat, b: Id)
    requires SharedOk(c, s) && Owns(s.place, b, Finishing(t, k))
    ensures var s2 := s.(retired := s.retired + [b], place := s.place[b := Retired(k)]);
      SharedOk(c, s2) && Rely(c, s, s2, t)
  {
    hide HeadTailOk, CountsOk, LiveOk, StartOk, LinksOk, MarksOk, TagsOk, ContentOk, OrderOk, PoolOk, WritersOk,
      ReadersOk,
      GotOk, MovingOk, Rely;
    RetirePlace(c, s, t, k, b);
    PoolRetires(s, t, k, b);
    QueueStepsInstall.PlaceRely(c, s, s.(retired := s.retired + [b], place := s.place[b := Retired(k)]), t, b,
      Retired(k));
  }

  lemma RetirePlace(c: Config, s: State, t: Tid, k: nat, b: Id)
    requires SharedOk(c, s) && Owns(s.place, b, Finishing(t, k))
    ensures LiveOk(s.headBlock, s.headLap, s.serves, s.place[b := Retired(k)])
    ensures StartOk(s.start, s.serves, s.place[b := Retired(k)])
    ensures ReadersOk(c, s.head, s.serves, s.place[b := Retired(k)], s.reader, s.pcs)
    ensures MarksOk(c, s.head, s.marked, s.place[b := Retired(k)], s.reader)
  {
    hide HeadTailOk, CountsOk, LinksOk, TagsOk, ContentOk, OrderOk, PoolOk, WritersOk, GotOk, MovingOk, ReadersOk,
      MarksOk;
    RetiredMarks(c, s.head, s.marked, s.place, s.reader, b, t, k);
    RetiredReaders(c, s, b, t, k);
  }

  lemma RetiredMarks(c: Config, head: Pos, marked: set<Slot>, place: map<Id, Place>, reader: map<Pos, Tid>, b: Id,
                     t: Tid, k: nat)
    requires MarksOk(c, head, marked, place, reader) && Owns(place, b, Finishing(t, k))
    ensures MarksOk(c, head, marked, place[b := Retired(k)], reader)
  {
    hide Before;
  }

  lemma RetiredReaders(c: Config, s: State, b: Id, t: Tid, k: nat)
    requires ReadersOk(c, s.head, s.serves, s.place, s.reader, s.pcs) && Owns(s.place, b, Finishing(t, k))
    ensures ReadersOk(c, s.head, s.serves, s.place[b := Retired(k)], s.reader, s.pcs)
  {
    hide Before;
  }

  lemma PoolRetires(s: State, t: Tid, k: nat, b: Id)
    requires PoolOk(s.spare, s.ready, s.retired, s.blocks, s.place) && Owns(s.place, b, Finishing(t, k))
    ensures PoolOk(s.spare, s.ready, s.retired + [b], s.blocks, s.place[b := Retired(k)])
  {
  }

  /** The scan has seen every mark: no reader is left. */
  lemma ScanDoneShared(c: Config, s: State, t: Tid, k: nat, b: Id)
    requires Inv(c, s) && Owns(s.place, b, Finishing(t, k)) && ReadersDone(c, s, b)
    ensures SharedOk(c, s.(place := s.place[b := Wiping(t)])) && Rely(c, s, s.(place := s.place[b := Wiping(t)]), t)
  {
    hide HeadTailOk, CountsOk, LiveOk, StartOk, LinksOk, MarksOk, TagsOk, ContentOk, OrderOk, PoolOk, WritersOk,
      ReadersOk,
      GotOk, MovingOk, Rely, ThreadsOk;
    QueueStepsInstall.AllMarkedNoReaders(c, s, b);
    QueueStepsInstall.PlaceShared(c, s, b, Wiping(t));
    QueueStepsInstall.PoolKeeps(s, b, Wiping(t));
    QueueStepsInstall.PlaceRely(c, s, s.(place := s.place[b := Wiping(t)]), t, b, Wiping(t));
  }

  lemma CleanBlock(c: Config, s: State, b: Id)
    requires SharedOk(c, s) && b in s.place && IsClean(s.place[b])
    ensures b !in s.start && forall i :: Slot(b, i) !in s.marked
  {
    hide HeadTailOk, CountsOk, LiveOk, LinksOk, TagsOk, ContentOk, OrderOk, PoolOk, DutyOk;
  }

  lemma PoolReturns(s: State, t: Tid, b: Id)
    requires PoolOk(s.spare, s.ready, s.retired, s.blocks, s.place) && Owns(s.place, b, Held(t))
    ensures s.spare.None? ==> PoolOk(Some(b), s.ready, s.retired, s.blocks, s.place[b := InSpare])
    ensures PoolOk(s.spare, s.ready + [b], s.retired, s.blocks, s.place[b := InReady])
  {
  }

  lemma ReturnShared(c: Config, s: State, s2: State, t: Tid, b: Id, pl: Place)
    requires SharedOk(c, s) && Owns(s.place, b, Held(t)) && (pl.InSpare? || pl.InReady?)
    requires s2 == s.(spare := s2.spare, ready := s2.ready, place := s.place[b := pl])
    requires PoolOk(s2.spare, s2.ready, s2.retired, s2.blocks, s2.place)
    ensures SharedOk(c, s2) && Rely(c, s, s2, t)
  {
    hide HeadTailOk, CountsOk, LiveOk, StartOk, LinksOk, MarksOk, TagsOk, ContentOk, OrderOk, PoolOk, WritersOk,
      ReadersOk,
      GotOk, MovingOk, Rely;
    CleanBlock(c, s, b);
    QueueStepsInstall.PlaceShared(c, s, b, pl);
    QueueStepsInstall.PlaceRely(c, s, s2, t, b, pl);
  }

  lemma PoolIs(c: Config, s: State)
    requires SharedOk(c, s)
    ensures PoolOk(s.spare, s.ready, s.retired, s.blocks, s.place)
  {
    hide DutyOk, PoolOk;
  }

  lemma ScanStepOk(c: Config, s: State, t: Tid, pc: LeavePc)
    requires Inv(c, s) && t < |s.pcs| && s.pcs[t] == Leaving(pc) && (pc.Scan? || pc.Retire?)
    ensures StepOk(c, s, Apply(StepLeave(c, s, t, pc), t), t)
  {
    hide SharedOk, ThreadsOk, Rely, StepOk, Goto;
    Knows(c, s, t);
    var b := pc.b;
    if pc.Retire? {
      RetireShared(c, s, t, pc.k, b);
      ThenGoto(c, s, s.(retired := s.retired + [b], place := s.place[b := Retired(pc.k)]), t, Idle);
    } else if pc.j >= c.cap - 1 {
      ScanDoneShared(c, s, t, pc.k, b);
      ThenGoto(c, s, s.(place := s.place[b := Wiping(t)]), t, Leaving(Wipe(b, 0)));
    } else if Slot(b, pc.j) in s.marked {
      GotoOk(c, s, t, Leaving(Scan(pc.k, b, pc.j + 1)));
    } else {
      GotoOk(c, s, t, Leaving(Retire(pc.k, b)));
    }
  }

  lemma WipeStepOk(c: Config, s: State, t: Tid, b: Id, j: nat)
    requires Inv(c, s) && t < |s.pcs| && s.pcs[t] == Leaving(Wipe(b, j))
    ensures StepOk(c, s, Apply(StepLeave(c, s, t, Wipe(b, j)), t), t)
  {
    hide SharedOk, ThreadsOk, Rely, StepOk, Goto;
    Knows(c, s, t);
    if j < c.cap {
      QueueStepsInstall.WipeMarkShared(c, s, t, b, j);
      ThenGoto(c, s, s.(marked := s.marked - {Slot(b, j)}), t, Leaving(Wipe(b, j + 1)));
    } else {
      QueueStepsInstall.WipeDoneShared(c, s, t, b);
      ThenGoto(c, s, s.(start := s.start - {b}, place := s.place[b := Held(t)]), t, Leaving(Recycle(b)));
    }
  }

  lemma ReturnStepOk(c: Config, s: State, t: Tid, pc: LeavePc)
    requires Inv(c, s) && t < |s.pcs| && s.pcs[t] == Leaving(pc) && (pc.Recycle? || pc.PushReady?)
    ensures StepOk(c, s, Apply(StepLeave(c, s, t, pc), t), t)
  {
    hide SharedOk, ThreadsOk, Rely, StepOk, Goto, PoolOk;
    Knows(c, s, t);
    PoolIs(c, s);
    var b := pc.b;
    PoolReturns(s, t, b);
    if pc.Recycle? && s.spare.Some? {
      GotoOk(c, s, t, Leaving(PushReady(b)));
    } else if pc.Recycle? {
      var s2 := s.(spare := Some(b), place := s.place[b := InSpare]);
      ReturnShared(c, s, s2, t, b, InSpare);
      ThenGoto(c, s, s2, t, Idle);
    } else {
      var s2 := s.(ready := s.ready + [b], place := s.place[b := InReady]);
      ReturnShared(c, s, s2, t, b, InReady);
      ThenGoto(c, s, s2, t, Idle);
    }
  }

  lemma LeaveStepOk(c: Config, s: State, t: Tid, pc: LeavePc)
    requires Inv(c, s) && t < |s.pcs| && s.pcs[t] == Leaving(pc)
    ensures StepOk(c, s, Apply(StepLeave(c, s, t, pc), t), t)
  {
    hide *;
    match pc
    case Wipe(b, j) => WipeStepOk(c, s, t, b, j);
    case Recycle(_) => ReturnStepOk(c, s, t, pc);
    case PushReady(_) => ReturnStepOk(c, s, t, pc);
    case _ => ScanStepOk(c, s, t, pc);
  }
}
