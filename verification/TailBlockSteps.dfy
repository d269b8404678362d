/**
  Steps of a run chosen on purpose: claiming, installing, publishing and taking one after another.

  A run is described by a sketch of the state, the fields its steps depend on; what else they need
  follows from the invariant.
*/
module TailBlockSteps {
  import opened Basics
  import opened Positions
  import opened QueueModel
  import opened QueueInvariant
  import opened QueueStepOk
  import opened QueueTheorems
  import TailBlock

  // ---- Reachable states -------------------------------------------------------------------------

  ghost predicate Reachable(c: Config, n: nat, s: State) {
    exists run: seq<State>, acts: seq<Act> :: IsRun(c, run, acts) && |run[0].pcs| == n && run[|acts|] == s
  }

  /** One more step. */
  lemma More(c: Config, n: nat, s: State, t: Tid, ch: Choice) returns (s': State)
    requires Reachable(c, n, s) && t < n
    ensures |s.pcs| == n && s' == Step(c, s, t, ch) && Reachable(c, n, s') && Inv(c, s') && |s'.pcs| == n
  {
    hide Inv, Step;
    var run: seq<State>, acts: seq<Act> :| IsRun(c, run, acts) && |run[0].pcs| == n && run[|acts|] == s;
    TailBlock.SameThreads(c, run, acts, |acts|);
    s' := Step(c, s, t, ch);
    var run', acts' := run + [s'], acts + [Act(t, ch)];
    assert IsRun(c, run', acts');
    assert run'[|acts'|] == s';
    RunInv(c, run', acts', |acts'|);
    TailBlock.SameThreads(c, run', acts', |acts'|);
  }

  lemma ReachableInv(c: Config, n: nat, s: State)
    requires Reachable(c, n, s)
    ensures Inv(c, s) && |s.pcs| == n
  {
    hide Inv, Step;
    var run: seq<State>, acts: seq<Act> :| IsRun(c, run, acts) && |run[0].pcs| == n && run[|acts|] == s;
    RunInv(c, run, acts, |acts|);
    TailBlock.SameThreads(c, run, acts, |acts|);
  }

  // ---- Sketches ---------------------------------------------------------------------------------

  datatype Sketch = Sketch(tail: Pos, head: Pos, tailBlock: Id, serves: seq<Id>, spare: Option<Id>,
                           ready: seq<Id>, retired: seq<Id>, pcs: seq<Pc>)

  function Of(s: State): Sketch {
    Sketch(s.tail, s.head, s.tailBlock, s.serves, s.spare, s.ready, s.retired, s.pcs)
  }

  /** Thread `t` moves on. */
  function To(k: Sketch, t: Tid, pc: Pc): Sketch
    requires t < |k.pcs|
  {
    k.(pcs := k.pcs[t := pc])
  }

  // ---- Claiming ---------------------------------------------------------------------------------

  lemma StepStart(c: Config, s: State, t: Tid, v: Value)
    requires t < |s.pcs| && s.pcs[t] == Idle
    ensures Of(Step(c, s, t, StartPush(v))) ==
      To(Of(s), t, Claiming(v, if c.capacity.None? then Claim else BoundLoad))
  {
  }

  lemma StepClaimNow(c: Config, s: State, t: Tid, v: Value)
    requires t < |s.pcs| && s.pcs[t] == Claiming(v, Claim) && s.tail.off < c.cap
    ensures Of(Step(c, s, t, Go)) ==
      To(Of(s), t, Finding(Msg(s.tail, v), FindFast)).(tail := Next(c.cap, s.tail))
  {
  }

  lemma StepClaimSkip(c: Config, s: State, t: Tid, v: Value)
    requires t < |s.pcs| && s.pcs[t] == Claiming(v, Claim) && s.tail.off == c.cap
    ensures Of(Step(c, s, t, Go)) == Of(s).(tail := Next(c.cap, s.tail))
  {
    hide Next, TailTaken, Items, StepClaim;
    SkipEffect(c, s, t, v);
    assert s.pcs[t := Claiming(v, Claim)] == s.pcs;
  }

  lemma SkipEffect(c: Config, s: State, t: Tid, v: Value)
    requires s.tail.off == c.cap
    ensures StepClaim(c, s, t, Go, v, Claim) == Outcome(SkipSentinel(c, s), Claiming(v, Claim))
  {
    hide Next, TailTaken;
  }

  lemma StepBoundLoad(c: Config, s: State, t: Tid, v: Value)
    requires t < |s.pcs| && s.pcs[t] == Claiming(v, BoundLoad)
    ensures Of(Step(c, s, t, Go)) == To(Of(s), t, Claiming(v, BoundLook(s.tail)))
  {
  }

  lemma StepBoundSkip(c: Config, s: State, t: Tid, v: Value)
    requires t < |s.pcs| && s.pcs[t] == Claiming(v, BoundLook(s.tail)) && s.tail.off == c.cap
    ensures Of(Step(c, s, t, Go)) ==
      To(Of(s), t, Claiming(v, BoundLook(Next(c.cap, s.tail)))).(tail := Next(c.cap, s.tail))
  {
  }

  lemma StepBoundLook(c: Config, s: State, t: Tid, v: Value)
    requires t < |s.pcs| && s.pcs[t] == Claiming(v, BoundLook(s.tail)) && s.tail.off < c.cap
    ensures var s' := Step(c, s, t, Go);
      Of(s') == To(Of(s), t, Claiming(v, BoundHead(s.tail))) || Of(s') == To(Of(s), t, Claiming(v, BoundCas(s.tail)))
  {
    hide Items;
  }

  lemma StepBoundHead(c: Config, s: State, t: Tid, v: Value)
    requires t < |s.pcs| && s.pcs[t] == Claiming(v, BoundHead(s.tail))
    requires c.capacity.Some? && Items(c.cap, s.head, s.tail) < c.capacity.value
    ensures Of(Step(c, s, t, Go)) == To(Of(s), t, Claiming(v, BoundStore(s.tail, s.head)))
  {
    hide Items;
  }

  lemma StepBoundStore(c: Config, s: State, t: Tid, v: Value, h: Pos)
    requires t < |s.pcs| && s.pcs[t] == Claiming(v, BoundStore(s.tail, h))
    ensures Of(Step(c, s, t, Go)) == To(Of(s), t, Claiming(v, BoundCas(s.tail)))
  {
  }

  lemma StepBoundCas(c: Config, s: State, t: Tid, v: Value)
    requires t < |s.pcs| && s.pcs[t] == Claiming(v, BoundCas(s.tail))
    ensures Of(Step(c, s, t, Go)) == To(Of(s), t, Finding(Msg(s.tail, v), FindFast)).(tail := Next(c.cap, s.tail))
  {
  }

  /** The position the next claim gets. */
  function NextClaim(c: Config, tail: Pos): Pos {
    if tail.off == c.cap then Next(c.cap, tail) else tail
  }

  predicate HasRoom(c: Config, head: Pos, p: Pos) {
    c.capacity.Some? ==> c.capacity.value > 0 && Rank(c.cap, p) < Rank(c.cap, head) + c.capacity.value
  }

  /** An idle thread claims the next value position. */
  lemma ClaimNext(c: Config, n: nat, s: State, t: Tid, v: Value) returns (s': State)
    requires Reachable(c, n, s) && t < n && |s.pcs| == n && s.pcs[t] == Idle && s.tail.off <= c.cap
    requires HasRoom(c, s.head, NextClaim(c, s.tail))
    ensures Reachable(c, n, s')
    ensures var p := NextClaim(c, s.tail);
      Of(s') == To(Of(s), t, Finding(Msg(p, v), FindFast)).(tail := Next(c.cap, p))
  {
    hide Reachable, Step, HasRoom, Inv;
    s' := More(c, n, s, t, StartPush(v));
    StepStart(c, s, t, v);
    if c.capacity.None? {
      if s.tail.off == c.cap {
        StepClaimSkip(c, s', t, v);
        s' := More(c, n, s', t, Go);
      }
      StepClaimNow(c, s', t, v);
      s' := More(c, n, s', t, Go);
    } else {
      StepBoundLoad(c, s', t, v);
      s' := More(c, n, s', t, Go);
      if s.tail.off == c.cap {
        StepBoundSkip(c, s', t, v);
        s' := More(c, n, s', t, Go);
      }
      s' := BoundedClaim(c, n, s', t, v);
    }
  }

  lemma BoundedClaim(c: Config, n: nat, s: State, t: Tid, v: Value) returns (s': State)
    requires Reachable(c, n, s) && t < n && |s.pcs| == n && s.pcs[t] == Claiming(v, BoundLook(s.tail))
      && s.tail.off < c.cap
    requires c.capacity.Some? && HasRoom(c, s.head, s.tail)
    ensures Reachable(c, n, s')
    ensures Of(s') == To(Of(s), t, Finding(Msg(s.tail, v), FindFast)).(tail := Next(c.cap, s.tail))
  {
    hide Reachable, Step, Rank, Inv, Next;
    StepBoundLook(c, s, t, v);
    s' := More(c, n, s, t, Go);
    if s'.pcs[t].claim.BoundHead? {
      StepBoundHead(c, s', t, v);
      s' := More(c, n, s', t, Go);
      StepBoundStore(c, s', t, v, s'.head);
      s' := More(c, n, s', t, Go);
    }
    StepBoundCas(c, s', t, v);
    s' := More(c, n, s', t, Go);
  }

  // ---- Finding, installing and writing ----------------------------------------------------------

  lemma StepFindFast(c: Config, s: State, t: Tid, m: Msg)
    requires t < |s.pcs| && s.pcs[t] == Finding(m, FindFast)
    ensures Of(Step(c, s, t, Go)) == To(Of(s), t, Finding(m, CheckFast(s.tailBlock)))
  {
  }

  lemma StepCheckFast(c: Config, s: State, t: Tid, m: Msg, b: Id)
    requires t < |s.pcs| && s.pcs[t] == Finding(m, CheckFast(b)) && StartIs(s, b, m.p.lap)
    ensures Of(Step(c, s, t, Go)) == To(Of(s), t, Found(c, m, b))
  {
  }

  /** The newest lap's block has that lap's start. */
  lemma NewestStart(c: Config, s: State)
    requires Inv(c, s)
    ensures |s.serves| > 0 && StartIs(s, s.serves[|s.serves| - 1], |s.serves| - 1)
  {
    hide HeadTailOk, CountsOk, LinksOk, MarksOk, TagsOk, ContentOk, PoolOk, OrderOk, DutyOk, ThreadsOk;
  }

  /** A claim in the newest lap finds its block in hand. */
  lemma FindNewest(c: Config, n: nat, s: State, t: Tid, m: Msg) returns (s': State)
    requires Reachable(c, n, s) && t < n && |s.pcs| == n && |s.serves| == m.p.lap + 1
    requires s.pcs[t] == Finding(m, CheckFast(s.serves[m.p.lap]))
    ensures Reachable(c, n, s') && Of(s') == To(Of(s), t, Found(c, m, s.serves[m.p.lap]))
  {
    hide Reachable, Step, Inv, StartIs;
    ReachableInv(c, n, s);
    NewestStart(c, s);
    StepCheckFast(c, s, t, m, s.serves[m.p.lap]);
    s' := More(c, n, s, t, Go);
  }

  lemma StepWriteNow(c: Config, s: State, t: Tid, m: Msg, b: Id)
    requires t < |s.pcs| && s.pcs[t] == Writing(m, b, Write)
    ensures Of(Step(c, s, t, Go)) == To(Of(s), t, Writing(m, b, Publish))
  {
  }

  lemma StepPublish(c: Config, s: State, t: Tid, m: Msg, b: Id)
    requires t < |s.pcs| && s.pcs[t] == Writing(m, b, Publish)
    ensures Of(Step(c, s, t, Go)) == To(Of(s), t, Idle)
  {
  }

  lemma PublishNow(c: Config, n: nat, s: State, t: Tid, m: Msg, b: Id) returns (s': State)
    requires Reachable(c, n, s) && t < n && |s.pcs| == n && s.pcs[t] == Writing(m, b, Write)
    ensures Reachable(c, n, s') && Of(s') == To(Of(s), t, Idle)
  {
    hide Reachable, Step, Inv;
    StepWriteNow(c, s, t, m, b);
    s' := More(c, n, s, t, Go);
    StepPublish(c, s', t, m, b);
    s' := More(c, n, s', t, Go);
  }

  lemma StepTakeSpare(c: Config, s: State, t: Tid, m: Msg, b: Id)
    requires t < |s.pcs| && s.pcs[t] == Installing(m, b, TakeSpare)
    ensures Of(Step(c, s, t, Go)) ==
      if s.spare.Some? then To(Of(s), t, Installing(m, b, SetPrev(s.spare.value))).(spare := None)
      else To(Of(s), t, Installing(m, b, TakePool))
  {
    if s.spare.Some? {}
  }

  lemma StepAllocate(c: Config, s: State, t: Tid, m: Msg, b: Id)
    requires t < |s.pcs| && s.pcs[t] == Installing(m, b, TakePool) && s.ready == [] && s.retired == []
    ensures Of(Step(c, s, t, Go)) == To(Of(s), t, Installing(m, b, SetPrev(s.blocks)))
  {
  }

  lemma StepSetPrev(c: Config, s: State, t: Tid, m: Msg, b: Id, x: Id)
    requires t < |s.pcs| && s.pcs[t] == Installing(m, b, SetPrev(x))
    ensures Of(Step(c, s, t, Go)) == To(Of(s), t, Installing(m, b, ClearNext(x)))
  {
  }

  lemma StepClearNext(c: Config, s: State, t: Tid, m: Msg, b: Id, x: Id)
    requires t < |s.pcs| && s.pcs[t] == Installing(m, b, ClearNext(x))
    ensures Of(Step(c, s, t, Go)) == To(Of(s), t, Installing(m, b, SetStart(x)))
  {
  }

  lemma StepSetStart(c: Config, s: State, t: Tid, m: Msg, b: Id, x: Id)
    requires t < |s.pcs| && s.pcs[t] == Installing(m, b, SetStart(x))
    ensures Of(Step(c, s, t, Go)) == To(Of(s), t, Installing(m, b, LinkNext(x))).(serves := s.serves + [x])
  {
  }

  lemma StepLinkNext(c: Config, s: State, t: Tid, m: Msg, b: Id, x: Id)
    requires t < |s.pcs| && s.pcs[t] == Installing(m, b, LinkNext(x))
    ensures Of(Step(c, s, t, Go)) == To(Of(s), t, Installing(m, b, MoveTail(x)))
  {
  }

  lemma StepMoveTail(c: Config, s: State, t: Tid, m: Msg, b: Id, x: Id)
    requires t < |s.pcs| && s.pcs[t] == Installing(m, b, MoveTail(x))
    ensures Of(Step(c, s, t, Go)) == To(Of(s), t, Writing(m, b, Write)).(tailBlock := x)
  {
  }

  /** An installer with a block in hand stores its start, and stops there. */
  lemma StoreStart(c: Config, n: nat, s: State, t: Tid, m: Msg, b: Id, x: Id) returns (s': State)
    requires Reachable(c, n, s) && t < n && |s.pcs| == n && s.pcs[t] == Installing(m, b, SetPrev(x))
    ensures Reachable(c, n, s')
    ensures Of(s') == To(Of(s), t, Installing(m, b, LinkNext(x))).(serves := s.serves + [x])
  {
    hide Reachable, Step, Inv;
    StepSetPrev(c, s, t, m, b, x);
    s' := More(c, n, s, t, Go);
    StepClearNext(c, s', t, m, b, x);
    s' := More(c, n, s', t, Go);
    StepSetStart(c, s', t, m, b, x);
    s' := More(c, n, s', t, Go);
  }

  /** An installer that finds the pools empty takes a fresh block. */
  lemma TakeFresh(c: Config, n: nat, s: State, t: Tid, m: Msg, b: Id) returns (s': State, x: Id)
    requires Reachable(c, n, s) && t < n && |s.pcs| == n && s.pcs[t] == Installing(m, b, TakeSpare)
    requires s.spare.None? && s.ready == [] && s.retired == []
    ensures Reachable(c, n, s') && Of(s') == To(Of(s), t, Installing(m, b, SetPrev(x))) && x !in s.serves
  {
    hide Reachable, Step, Inv;
    StepTakeSpare(c, s, t, m, b);
    s' := More(c, n, s, t, Go);
    StepAllocate(c, s', t, m, b);
    x := s'.blocks;
    ServedBlocks(c, s');
    s' := More(c, n, s', t, Go);
  }

  /** An installer between its stores goes on and publishes its value. */
  lemma Resume(c: Config, n: nat, s: State, t: Tid, m: Msg, b: Id, x: Id) returns (s': State)
    requires Reachable(c, n, s) && t < n && |s.pcs| == n && s.pcs[t] == Installing(m, b, LinkNext(x))
    ensures Reachable(c, n, s') && Of(s') == To(Of(s), t, Idle).(tailBlock := x)
  {
    hide Reachable, Step, Inv;
    StepLinkNext(c, s, t, m, b, x);
    s' := More(c, n, s, t, Go);
    StepMoveTail(c, s', t, m, b, x);
    s' := More(c, n, s', t, Go);
    s' := PublishNow(c, n, s', t, m, b);
  }

  /** An installer takes a fresh block, installs it, and publishes its own value. */
  lemma InstallFresh(c: Config, n: nat, s: State, t: Tid, m: Msg, b: Id) returns (s': State, x: Id)
    requires Reachable(c, n, s) && t < n && |s.pcs| == n && s.pcs[t] == Installing(m, b, TakeSpare)
    requires s.spare.None? && s.ready == [] && s.retired == []
    ensures Reachable(c, n, s') && Of(s') == To(Of(s), t, Idle).(serves := s.serves + [x], tailBlock := x)
    ensures x !in s.serves
  {
    hide Reachable, Step, Inv;
    s', x := TakeFresh(c, n, s, t, m, b);
    s' := StoreStart(c, n, s', t, m, b, x);
    s' := Resume(c, n, s', t, m, b, x);
  }

  lemma ServedBlocks(c: Config, s: State)
    requires Inv(c, s)
    ensures forall b :: b in s.serves ==> b < s.blocks
  {
    hide HeadTailOk, CountsOk, StartOk, LinksOk, MarksOk, TagsOk, ContentOk, OrderOk, DutyOk, ThreadsOk;
  }

  // ---- Taking a value ---------------------------------------------------------------------------

  /** Nobody is reading a value or moving the head. */
  predicate NobodyReads(c: Config, pcs: seq<Pc>) {
    forall t :: 0 <= t < |pcs| ==> !pcs[t].Reading? && !IsMoving(c, pcs[t])
  }

  /** Nobody is inside an exclusive receive. */
  predicate NobodyReceives(pcs: seq<Pc>) {
    forall t :: 0 <= t < |pcs| ==> !pcs[t].Batching? && !pcs[t].Leaving?
  }

  predicate NobodyOwns(pcs: seq<Pc>, p: Pos) {
    forall t :: 0 <= t < |pcs| ==> ClaimOf(pcs[t]).None? || ClaimOf(pcs[t]).value.p != p
  }

  /** A claimed position nobody owns is published; at the head, its slot shows it. */
  lemma HeadWritten(c: Config, s: State)
    requires Inv(c, s) && s.head.off < c.cap && Before(s.head, s.tail)
    requires NobodyOwns(s.pcs, s.head) && (forall t :: 0 <= t < |s.pcs| ==> !IsMoving(c, s.pcs[t]))
    ensures Published(c, s.tail, s.writer, s.head) && s.moving.None? && Serves(s.serves, s.head.lap, s.headBlock)
    ensures var x := Slot(s.headBlock, s.head.off); x in s.tag && s.tag[x] == s.head.lap && x in s.value
  {
    hide Inv, Rank;
    NotPending(c, s, s.head);
    HeadServed(c, s);
    SlotWritten(c, s, s.head);
  }

  lemma NotPending(c: Config, s: State, p: Pos)
    requires Inv(c, s) && NobodyOwns(s.pcs, p)
    ensures p !in s.writer
  {
    hide MemoryOk, ReadersOk, GotOk, MovingOk, ThreadsOk, ClaimOf;
  }

  lemma HeadServed(c: Config, s: State)
    requires Inv(c, s) && forall t :: 0 <= t < |s.pcs| ==> !IsMoving(c, s.pcs[t])
    ensures s.moving.None? && Serves(s.serves, s.head.lap, s.headBlock)
  {
    hide HeadTailOk, CountsOk, StartOk, LinksOk, MarksOk, TagsOk, ContentOk, PoolOk, OrderOk, WritersOk, ReadersOk,
      GotOk,
      ThreadsOk, IsMoving;
  }

  lemma SlotWritten(c: Config, s: State, p: Pos)
    requires Inv(c, s) && Published(c, s.tail, s.writer, p) && AtMost(s.head, p)
    ensures p.lap < |s.serves|
    ensures var x := Slot(s.serves[p.lap], p.off); x in s.tag && s.tag[x] == p.lap && x in s.value
  {
    hide HeadTailOk, CountsOk, LiveOk, StartOk, LinksOk, MarksOk, TagsOk, PoolOk, OrderOk, DutyOk, ThreadsOk, Rank;
    assert Unread(c, s.head, s.tail, s.writer, s.reader, p);
  }

  lemma StepStartPop(c: Config, s: State, t: Tid)
    requires t < |s.pcs| && s.pcs[t] == Idle && !c.exclusive
    ensures Of(Step(c, s, t, StartPop)) == To(Of(s), t, Taking(LoadHead))
  {
  }

  lemma StepLoadHead(c: Config, s: State, t: Tid)
    requires t < |s.pcs| && s.pcs[t] == Taking(LoadHead)
    ensures Of(Step(c, s, t, Go)) == To(Of(s), t, Taking(LoadBlock(s.head)))
  {
  }

  lemma StepLoadBlock(c: Config, s: State, t: Tid, h: Pos)
    requires t < |s.pcs| && s.pcs[t] == Taking(LoadBlock(h))
    ensures Of(Step(c, s, t, Go)) == To(Of(s), t, Taking(Look(h, s.headBlock)))
  {
  }

  lemma StepLook(c: Config, s: State, t: Tid, b: Id)
    requires t < |s.pcs| && s.pcs[t] == Taking(Look(s.head, b)) && s.head.off < c.cap
    requires Slot(b, s.head.off) in s.tag && s.tag[Slot(b, s.head.off)] == s.head.lap
    ensures Of(Step(c, s, t, Go)) == To(Of(s), t, Taking(CasHead(s.head, b)))
  {
    hide Published;
  }

  lemma StepCasHead(c: Config, s: State, t: Tid, b: Id)
    requires t < |s.pcs| && s.pcs[t] == Taking(CasHead(s.head, b))
    ensures Of(Step(c, s, t, Go)) == To(Of(s), t, Reading(s.head, b, Copy)).(head := Next(c.cap, s.head))
  {
  }

  /** A reader finds its value; the reader of a block's last value finds the next block linked. */
  lemma ReaderFinds(c: Config, s: State, t: Tid, p: Pos, b: Id)
    requires Inv(c, s) && t < |s.pcs| && s.pcs[t] == Reading(p, b, Copy)
    ensures Slot(b, p.off) in s.value
  {
    hide HeadTailOk, CountsOk, LiveOk, StartOk, LinksOk, MarksOk, TagsOk, PoolOk, OrderOk, WritersOk, ReadersOk,
      GotOk, MovingOk,
      Rank;
    Knows(c, s, t);
    assert Unread(c, s.head, s.tail, s.writer, s.reader, p);
  }

  lemma StepCopy(c: Config, s: State, t: Tid, p: Pos, b: Id)
    requires t < |s.pcs| && s.pcs[t] == Reading(p, b, Copy) && Slot(b, p.off) in s.value
    ensures Of(Step(c, s, t, Go)) ==
      To(Of(s), t, if p.off + 1 == c.cap then Moving(p, b, LoadNext) else Reading(p, b, Mark))
  {
    if p.off + 1 == c.cap {}
  }

  lemma StepMark(c: Config, s: State, t: Tid, p: Pos, b: Id)
    requires t < |s.pcs| && s.pcs[t] == Reading(p, b, Mark)
    ensures Of(Step(c, s, t, Go)) == To(Of(s), t, Idle)
  {
  }

  /** Has the head and its block in hand. */
  lemma LookAtHead(c: Config, n: nat, s: State, t: Tid) returns (s': State, b: Id)
    requires Reachable(c, n, s) && t < n && |s.pcs| == n && s.pcs[t] == Idle && !c.exclusive
    ensures Reachable(c, n, s') && Of(s') == To(Of(s), t, Taking(Look(s.head, b))) && Inv(c, s')
  {
    hide Reachable, Step, Inv;
    StepStartPop(c, s, t);
    s' := More(c, n, s, t, StartPop);
    StepLoadHead(c, s', t);
    s' := More(c, n, s', t, Go);
    b := s'.headBlock;
    StepLoadBlock(c, s', t, s.head);
    s' := More(c, n, s', t, Go);
  }

  /** The slot it looks at shows the head's lap. */
  lemma StillWritten(c: Config, s: State, s': State, t: Tid, b: Id)
    requires Inv(c, s') && t < |s.pcs| && Of(s') == To(Of(s), t, Taking(Look(s.head, b)))
    requires s.head.off < c.cap && Before(s.head, s.tail) && NobodyOwns(s.pcs, s.head) && NobodyReads(c, s.pcs)
    ensures Serves(s.serves, s.head.lap, b)
    ensures var x := Slot(b, s.head.off); x in s'.tag && s'.tag[x] == s.head.lap
  {
    hide Inv;
    SameHeadBlock(c, s', t, s.head, b);
    HeadWritten(c, s');
  }

  /** Claims the head's value and copies it. */
  lemma TakeHead(c: Config, n: nat, s: State, t: Tid) returns (s': State, b: Id)
    requires Reachable(c, n, s) && t < n && |s.pcs| == n && s.pcs[t] == Idle && !c.exclusive
    requires s.head.off < c.cap && Before(s.head, s.tail) && NobodyOwns(s.pcs, s.head) && NobodyReads(c, s.pcs)
    ensures Reachable(c, n, s') && Serves(s.serves, s.head.lap, b)
    ensures Of(s') == To(Of(s), t, if s.head.off + 1 == c.cap then Moving(s.head, b, LoadNext) else Reading(s.head,
      b, Mark))
                      .(head := Next(c.cap, s.head))
  {
    hide Reachable, Step, Inv, Published, Next, NobodyOwns, NobodyReads;
    s', b := LookAtHead(c, n, s, t);
    StillWritten(c, s, s', t, b);
    StepLook(c, s', t, b);
    s' := More(c, n, s', t, Go);
    StepCasHead(c, s', t, b);
    s' := More(c, n, s', t, Go);
    ReaderFinds(c, s', t, s.head, b);
    StepCopy(c, s', t, s.head, b);
    s' := More(c, n, s', t, Go);
  }

  lemma SameHeadBlock(c: Config, s: State, t: Tid, h: Pos, b: Id)
    requires Inv(c, s) && t < |s.pcs| && s.pcs[t] == Taking(Look(h, b)) && h == s.head && h.off < c.cap
    requires forall u :: 0 <= u < |s.pcs| ==> !IsMoving(c, s.pcs[u])
    ensures s.headBlock == b
  {
    hide SharedOk, IsMoving;
    HeadServed(c, s);
    Knows(c, s, t);
  }

  // ---- Leaving a block --------------------------------------------------------------------------

  lemma NotCrashed(c: Config, s: State, t: Tid)
    requires Inv(c, s) && t < |s.pcs|
    ensures s.pcs[t] != Crashed
  {
    hide SharedOk;
    Knows(c, s, t);
  }

  lemma StepLoadNext(c: Config, s: State, t: Tid, p: Pos, b: Id)
    requires t < |s.pcs| && s.pcs[t] == Moving(p, b, LoadNext)
    ensures Of(Step(c, s, t, Go)) ==
      To(Of(s), t, if b in s.nextOf then Moving(p, b, MoveHeadBlock(s.nextOf[b])) else Crashed)
  {
    if b in s.nextOf {}
  }

  lemma StepMoveHeadBlock(c: Config, s: State, t: Tid, p: Pos, b: Id, x: Id)
    requires t < |s.pcs| && s.pcs[t] == Moving(p, b, MoveHeadBlock(x))
    ensures Of(Step(c, s, t, Go)) == To(Of(s), t, Moving(p, b, SwapHead))
  {
  }

  lemma StepSwapHead(c: Config, s: State, t: Tid, p: Pos, b: Id)
    requires t < |s.pcs| && s.pcs[t] == Moving(p, b, SwapHead) && p.off + 1 == c.cap
    ensures Of(Step(c, s, t, Go)) == To(Of(s), t, Leaving(Scan(p.lap, b, 0))).(head := Pos(p.lap + 1, 0))
  {
  }

  lemma StepScan(c: Config, s: State, t: Tid, k: nat, b: Id, j: nat)
    requires t < |s.pcs| && s.pcs[t] == Leaving(Scan(k, b, j)) && (j < c.cap - 1 ==> Slot(b, j) in s.marked)
    ensures Of(Step(c, s, t, Go)) ==
      To(Of(s), t, if j < c.cap - 1 then Leaving(Scan(k, b, j + 1)) else Leaving(Wipe(b, 0)))
  {
    if j < c.cap - 1 {}
  }

  lemma StepWipe(c: Config, s: State, t: Tid, b: Id, j: nat)
    requires t < |s.pcs| && s.pcs[t] == Leaving(Wipe(b, j))
    ensures Of(Step(c, s, t, Go)) == To(Of(s), t, if j < c.cap then Leaving(Wipe(b, j + 1)) else Leaving(Recycle(b)))
  {
    if j < c.cap {}
  }

  lemma StepRecycle(c: Config, s: State, t: Tid, b: Id)
    requires t < |s.pcs| && s.pcs[t] == Leaving(Recycle(b)) && s.spare.None?
    ensures Of(Step(c, s, t, Go)) == To(Of(s), t, Idle).(spare := Some(b))
  {
  }

  /** With no reader about, every slot of the block left behind is marked. */
  lemma ScanFindsMark(c: Config, s: State, t: Tid, k: nat, b: Id, j: nat)
    requires Inv(c, s) && t < |s.pcs| && s.pcs[t] == Leaving(Scan(k, b, j)) && NobodyReads(c, s.pcs)
    ensures j < c.cap - 1 ==> Slot(b, j) in s.marked
  {
    hide HeadTailOk, CountsOk, LiveOk, StartOk, LinksOk, TagsOk, ContentOk, PoolOk, OrderOk, WritersOk, GotOk,
      MovingOk, IsMoving;
    Knows(c, s, t);
    assert Owns(s.place, b, Finishing(t, k));
  }

  lemma {:induction false} ScanAll(c: Config, n: nat, s: State, t: Tid, k: nat, b: Id, j: nat) returns (s': State)
    requires Reachable(c, n, s) && t < n && |s.pcs| == n && s.pcs[t] == Leaving(Scan(k, b, j)) && NobodyReads(c, s.pcs)
    ensures Reachable(c, n, s') && Of(s') == To(Of(s), t, Leaving(Wipe(b, 0)))
    decreases c.cap - j
  {
    hide Reachable, Step, Inv;
    ReachableInv(c, n, s);
    ScanFindsMark(c, s, t, k, b, j);
    StepScan(c, s, t, k, b, j);
    s' := More(c, n, s, t, Go);
    if j < c.cap - 1 {
      s' := ScanAll(c, n, s', t, k, b, j + 1);
    }
  }

  lemma {:induction false} WipeAll(c: Config, n: nat, s: State, t: Tid, b: Id, j: nat) returns (s': State)
    requires Reachable(c, n, s) && t < n && |s.pcs| == n && s.pcs[t] == Leaving(Wipe(b, j)) && j <= c.cap
    ensures Reachable(c, n, s') && Of(s') == To(Of(s), t, Leaving(Recycle(b)))
    decreases c.cap - j
  {
    hide Reachable, Step, Inv;
    StepWipe(c, s, t, b, j);
    s' := More(c, n, s, t, Go);
    if j < c.cap {
      s' := WipeAll(c, n, s', t, b, j + 1);
    }
  }

  /** The head moves on to the next block. */
  lemma HeadMoves(c: Config, n: nat, s: State, t: Tid, p: Pos, b: Id) returns (s': State)
    requires Reachable(c, n, s) && t < n && |s.pcs| == n && s.pcs[t] == Moving(p, b, LoadNext) && p.off + 1 == c.cap
    ensures Reachable(c, n, s') && Of(s') == To(Of(s), t, Leaving(Scan(p.lap, b, 0))).(head := Pos(p.lap + 1, 0))
  {
    hide Reachable, Step, Inv;
    StepLoadNext(c, s, t, p, b);
    s' := More(c, n, s, t, Go);
    NotCrashed(c, s', t);
    StepMoveHeadBlock(c, s', t, p, b, s.nextOf[b]);
    s' := More(c, n, s', t, Go);
    StepSwapHead(c, s', t, p, b);
    s' := More(c, n, s', t, Go);
  }

  lemma OthersReadNot(c: Config, pcs: seq<Pc>, t: Tid, pc: Pc)
    requires t < |pcs| && NobodyReads(c, pcs[t := Idle]) && !pc.Reading? && !IsMoving(c, pc)
    ensures NobodyReads(c, pcs[t := pc])
  {
    hide IsMoving;
    forall u | 0 <= u < |pcs| && u != t ensures !pcs[u].Reading? && !IsMoving(c, pcs[u]) {
      assert pcs[t := Idle][u] == pcs[u];
    }
  }

  /** The consumer of a block's last value moves the head on and recycles the block. */
  lemma FinishBlock(c: Config, n: nat, s: State, t: Tid, p: Pos, b: Id) returns (s': State)
    requires Reachable(c, n, s) && t < n && |s.pcs| == n && s.pcs[t] == Moving(p, b, LoadNext) && p.off + 1 == c.cap
    requires s.spare.None? && NobodyReads(c, s.pcs[t := Idle])
    ensures Reachable(c, n, s') && Of(s') == To(Of(s), t, Idle).(head := Pos(p.lap + 1, 0), spare := Some(b))
  {
    hide Reachable, Step, Inv, NobodyReads;
    s' := HeadMoves(c, n, s, t, p, b);
    OthersReadNot(c, s.pcs, t, Leaving(Scan(p.lap, b, 0)));
    s' := ScanAll(c, n, s', t, p.lap, b, 0);
    s' := WipeAll(c, n, s', t, b, 0);
    StepRecycle(c, s', t, b);
    s' := More(c, n, s', t, Go);
  }

  /** An idle consumer takes the head's value; the last one of a block recycles it. */
  lemma TakeOne(c: Config, n: nat, s: State, t: Tid) returns (s': State, b: Id)
    requires Reachable(c, n, s) && t < n && |s.pcs| == n && s.pcs[t] == Idle && NobodyReceives(s.pcs)
    requires s.head.off < c.cap && Before(s.head, s.tail) && NobodyOwns(s.pcs, s.head) && NobodyReads(c, s.pcs)
    requires s.spare.None?
    ensures Reachable(c, n, s') && Serves(s.serves, s.head.lap, b)
    ensures Of(s') == if s.head.off + 1 == c.cap then Of(s).(head := Pos(s.head.lap + 1, 0), spare := Some(b))
                      else Of(s).(head := Next(c.cap, s.head))
  {
    hide Reachable, Step, Inv, NobodyOwns, NobodyReads;
    if c.exclusive {
      s', b := TakeSolo(c, n, s, t);
    } else {
      s', b := TakeHead(c, n, s, t);
      if s.head.off + 1 == c.cap {
        assert s'.pcs[t := Idle] == s.pcs;
        s' := FinishBlock(c, n, s', t, s.head, b);
      } else {
        StepMark(c, s', t, s.head, b);
        s' := More(c, n, s', t, Go);
      }
      assert s'.pcs == s.pcs;
    }
  }

  // ---- The exclusive consumer -------------------------------------------------------------------

  lemma StepSoloStart(c: Config, s: State, t: Tid)
    requires t < |s.pcs| && s.pcs[t] == Idle && c.exclusive && NobodyReceives(s.pcs)
    ensures Of(Step(c, s, t, StartBatch(1))) == To(Of(s), t, Batching(SoloHead(1)))
  {
  }

  lemma StepSoloHead(c: Config, s: State, t: Tid)
    requires t < |s.pcs| && s.pcs[t] == Batching(SoloHead(1))
    ensures Of(Step(c, s, t, Go)) == To(Of(s), t, Batching(SoloBlock(1, s.head)))
  {
  }

  lemma StepSoloBlock(c: Config, s: State, t: Tid, h: Pos)
    requires t < |s.pcs| && s.pcs[t] == Batching(SoloBlock(1, h))
    ensures Of(Step(c, s, t, Go)) == To(Of(s), t, Batching(SoloLook(h, s.headBlock, 1, 0)))
  {
  }

  lemma StepSoloLook(c: Config, s: State, t: Tid, h: Pos, b: Id)
    requires t < |s.pcs| && s.pcs[t] == Batching(SoloLook(h, b, 1, 0)) && h.off < c.cap
    requires Slot(b, h.off) in s.tag && s.tag[Slot(b, h.off)] == h.lap
    ensures Of(Step(c, s, t, Go)) == To(Of(s), t, Batching(SoloCopy(h, b, 1, 0)))
  {
    hide Published;
  }

  lemma StepSoloCopy(c: Config, s: State, t: Tid, h: Pos, b: Id)
    requires t < |s.pcs| && s.pcs[t] == Batching(SoloCopy(h, b, 1, 0))
    ensures Of(Step(c, s, t, Go)) ==
      To(Of(s), t, if Slot(b, h.off) in s.value then Batching(SoloLook(h, b, 1, 1)) else Crashed)
  {
    if Slot(b, h.off) in s.value {}
  }

  lemma StepSoloDone(c: Config, s: State, t: Tid, h: Pos, b: Id)
    requires t < |s.pcs| && s.pcs[t] == Batching(SoloLook(h, b, 1, 1)) && h.off < c.cap
    ensures Of(Step(c, s, t, Go)) ==
      To(Of(s), t, Batching(if h.off + 1 == c.cap then SoloNext(h, b, 1) else SoloAdvance(h, b, 1, false)))
  {
    hide Published;
  }

  lemma StepSoloNext(c: Config, s: State, t: Tid, h: Pos, b: Id)
    requires t < |s.pcs| && s.pcs[t] == Batching(SoloNext(h, b, 1))
    ensures Of(Step(c, s, t, Go)) ==
      To(Of(s), t, if b in s.nextOf then Batching(SoloMoveBlock(h, b, 1, s.nextOf[b])) else Crashed)
  {
    if b in s.nextOf {}
  }

  lemma StepSoloMove(c: Config, s: State, t: Tid, h: Pos, b: Id, x: Id)
    requires t < |s.pcs| && s.pcs[t] == Batching(SoloMoveBlock(h, b, 1, x))
    ensures Of(Step(c, s, t, Go)) == To(Of(s), t, Batching(SoloAdvance(h, b, 1, true)))
  {
  }

  lemma StepSoloAdvance(c: Config, s: State, t: Tid, h: Pos, b: Id, last: bool)
    requires t < |s.pcs| && s.pcs[t] == Batching(SoloAdvance(h, b, 1, last))
    ensures Of(Step(c, s, t, Go)) ==
      To(Of(s), t, if last then Batching(SoloPool(b)) else Idle)
        .(head := if last then Pos(h.lap + 1, 0) else Pos(h.lap, h.off + 1))
  {
    hide Range;
    if last {}
  }

  lemma StepSoloPool(c: Config, s: State, t: Tid, b: Id)
    requires t < |s.pcs| && s.pcs[t] == Batching(SoloPool(b))
    ensures Of(Step(c, s, t, Go)) == To(Of(s), t, Leaving(Recycle(b)))
  {
  }

  /** The exclusive consumer's receive of one value. */
  lemma TakeSolo(c: Config, n: nat, s: State, t: Tid) returns (s': State, b: Id)
    requires Reachable(c, n, s) && t < n && |s.pcs| == n && s.pcs[t] == Idle && c.exclusive && s.spare.None?
    requires NobodyReceives(s.pcs)
    requires s.head.off < c.cap && Before(s.head, s.tail) && NobodyOwns(s.pcs, s.head) && NobodyReads(c, s.pcs)
    ensures Reachable(c, n, s') && Serves(s.serves, s.head.lap, b)
    ensures Of(s') == if s.head.off + 1 == c.cap then Of(s).(head := Pos(s.head.lap + 1, 0), spare := Some(b))
                      else Of(s).(head := Next(c.cap, s.head))
  {
    hide Reachable, Step, Inv, NobodyOwns, NobodyReads, Next;
    s', b := SoloReady(c, n, s, t);
    s' := SoloCopied(c, n, s', t, s.head, b);
    if s.head.off + 1 == c.cap {
      s' := SoloAcross(c, n, s', t, s.head, b);
    } else {
      StepSoloDone(c, s', t, s.head, b);
      s' := More(c, n, s', t, Go);
      StepSoloAdvance(c, s', t, s.head, b, false);
      s' := More(c, n, s', t, Go);
      NextInside(c, s.head);
    }
    assert s'.pcs == s.pcs;
  }

  lemma NextInside(c: Config, p: Pos)
    requires p.off + 1 < c.cap
    ensures Next(c.cap, p) == Pos(p.lap, p.off + 1)
  {
  }

  /** The exclusive consumer has loaded its head and block. */
  lemma SoloReady(c: Config, n: nat, s: State, t: Tid) returns (s': State, b: Id)
    requires Reachable(c, n, s) && t < n && |s.pcs| == n && s.pcs[t] == Idle && c.exclusive && NobodyReceives(s.pcs)
    requires s.head.off < c.cap && Before(s.head, s.tail) && NobodyOwns(s.pcs, s.head) && NobodyReads(c, s.pcs)
    ensures Reachable(c, n, s') && Serves(s.serves, s.head.lap, b)
    ensures Of(s') == To(Of(s), t, Batching(SoloLook(s.head, b, 1, 0)))
    ensures NobodyOwns(s'.pcs, s.head) && NobodyReads(c, s'.pcs)
  {
    hide Reachable, Step, Inv;
    StepSoloStart(c, s, t);
    s' := More(c, n, s, t, StartBatch(1));
    StepSoloHead(c, s', t);
    s' := More(c, n, s', t, Go);
    HeadWritten(c, s');
    b := s'.headBlock;
    StepSoloBlock(c, s', t, s.head);
    s' := More(c, n, s', t, Go);
  }

  /** The last value of the block is out: on to the next block. */
  lemma SoloAcross(c: Config, n: nat, s: State, t: Tid, h: Pos, b: Id) returns (s': State)
    requires Reachable(c, n, s) && t < n && |s.pcs| == n && s.pcs[t] == Batching(SoloLook(h, b, 1, 1)) && s.spare.None?
    requires h.off + 1 == c.cap
    ensures Reachable(c, n, s') && Of(s') == To(Of(s), t, Idle).(head := Pos(h.lap + 1, 0), spare := Some(b))
  {
    hide Reachable, Step, Inv;
    StepSoloDone(c, s, t, h, b);
    s' := More(c, n, s, t, Go);
    StepSoloNext(c, s', t, h, b);
    var linked := s'.nextOf;
    s' := More(c, n, s', t, Go);
    NotCrashed(c, s', t);
    StepSoloMove(c, s', t, h, b, linked[b]);
    s' := More(c, n, s', t, Go);
    StepSoloAdvance(c, s', t, h, b, true);
    s' := More(c, n, s', t, Go);
    StepSoloPool(c, s', t, b);
    s' := More(c, n, s', t, Go);
    StepRecycle(c, s', t, b);
    s' := More(c, n, s', t, Go);
  }

  lemma SoloCopied(c: Config, n: nat, s: State, t: Tid, h: Pos, b: Id) returns (s': State)
    requires Reachable(c, n, s) && t < n && |s.pcs| == n && s.pcs[t] == Batching(SoloLook(h, b, 1, 0)) && h == s.head
    requires h.off < c.cap && Before(h, s.tail) && NobodyOwns(s.pcs, h) && NobodyReads(c, s.pcs)
    ensures Reachable(c, n, s') && Of(s') == To(Of(s), t, Batching(SoloLook(h, b, 1, 1)))
  {
    hide Reachable, Step, Inv;
    ReachableInv(c, n, s);
    HeadWritten(c, s);
    SoloBlockIs(c, s, t, h, b);
    StepSoloLook(c, s, t, h, b);
    s' := More(c, n, s, t, Go);
    StepSoloCopy(c, s', t, h, b);
    s' := More(c, n, s', t, Go);
    NotCrashed(c, s', t);
  }

  lemma SoloBlockIs(c: Config, s: State, t: Tid, h: Pos, b: Id)
    requires Inv(c, s) && t < |s.pcs| && s.pcs[t] == Batching(SoloLook(h, b, 1, 0))
      && Serves(s.serves, s.head.lap, s.headBlock)
    ensures s.headBlock == b && h == s.head
  {
    hide SharedOk;
    Knows(c, s, t);
  }
}
