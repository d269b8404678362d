/**
  Installing the next block keeps the invariant: a block is handed to an installer only after
  every reader of the lap it last served is done.
*/
module QueueStepsInstall {
  import opened Basics
  import opened Positions
  import opened QueueModel
  import opened QueueInvariant
  import opened QueueRely
  import opened QueueStepOk

  /** No value of the lap that block `b` last served is still being read. */
  predicate NoReaders(s: State, b: Id) {
    b in s.place && LapOf(s.place[b]).Some? ==> forall p :: p in s.reader ==> p.lap != LapOf(s.place[b]).value
  }

  /** A block outside the chain changes hands. */
  lemma PlaceShared(c: Config, s: State, b: Id, pl: Place)
    requires LiveOk(s.headBlock, s.headLap, s.serves, s.place) && StartOk(s.start, s.serves, s.place)
    requires ReadersOk(c, s.head, s.serves, s.place, s.reader, s.pcs)
    requires MarksOk(c, s.head, s.marked, s.place, s.reader)
    requires b in s.place ==> !s.place[b].Live?
    requires LapOf(pl).None? && NoReaders(s, b)
    requires IsClean(pl) && b in s.place ==> b !in s.start && forall i :: Slot(b, i) !in s.marked
    ensures LiveOk(s.headBlock, s.headLap, s.serves, s.place[b := pl])
    ensures StartOk(s.start, s.serves, s.place[b := pl])
    ensures ReadersOk(c, s.head, s.serves, s.place[b := pl], s.reader, s.pcs)
    ensures MarksOk(c, s.head, s.marked, s.place[b := pl], s.reader)
  {
    hide LiveOk, StartOk;
    PlaceChain(s, b, pl);
    forall x | x in s.marked && x.block == b ensures b in s.place && !IsClean(pl) {
      assert x == Slot(b, x.off);
    }
  }

  lemma PlaceChain(s: State, b: Id, pl: Place)
    requires LiveOk(s.headBlock, s.headLap, s.serves, s.place) && StartOk(s.start, s.serves, s.place)
    requires b in s.place ==> !s.place[b].Live?
    requires LapOf(pl).None? && (IsClean(pl) && b in s.place ==> b !in s.start)
    ensures LiveOk(s.headBlock, s.headLap, s.serves, s.place[b := pl])
    ensures StartOk(s.start, s.serves, s.place[b := pl])
  {
  }

  lemma PlaceRely(c: Config, s: State, s2: State, t: Tid, b: Id, pl: Place)
    requires s2 == s.(place := s.place[b := pl], spare := s2.spare, ready := s2.ready, retired := s2.retired,
                      blocks := s2.blocks)
    requires SharedOk(c, s) && !Others(s.place, b, t)
    ensures Rely(c, s, s2, t)
  {
    hide CountsOk, WritersOk, ReadersOk, LiveOk, StartOk, LinksOk, MarksOk, TagsOk, ContentOk, PoolOk, OrderOk, GotOk,
      MovingOk;
  }

  /** The pools' own bookkeeping, block by block. */
  lemma PoolTakes(s: State, t: Tid, pl: Place)
    requires PoolOk(s.spare, s.ready, s.retired, s.blocks, s.place)
    requires !pl.InSpare? && !pl.InReady? && !pl.Retired?
    ensures s.spare.Some? ==> PoolOk(None, s.ready, s.retired, s.blocks, s.place[s.spare.value := pl])
    ensures |s.ready| > 0 ==>
      PoolOk(s.spare, s.ready[..|s.ready| - 1], s.retired, s.blocks, s.place[s.ready[|s.ready| - 1] := pl])
    ensures PoolOk(s.spare, s.ready, s.retired, s.blocks + 1, s.place[s.blocks := pl])
  {
  }

  lemma PoolTakesRetired(s: State, i: nat, pl: Place)
    requires PoolOk(s.spare, s.ready, s.retired, s.blocks, s.place) && i < |s.retired|
    requires !pl.InSpare? && !pl.InReady? && !pl.Retired?
    ensures PoolOk(s.spare, s.ready, SwapRemove(s.retired, i), s.blocks, s.place[s.retired[i] := pl])
  {
    hide SwapRemove;
    SwapRemoved(s.retired, i);
    var ys := SwapRemove(s.retired, i);
    assert forall k :: 0 <= k < |ys| ==> ys[k] in ys;
    assert s.retired[i] in s.retired;
  }

  lemma SwapRemoved(xs: seq<Id>, i: nat)
    requires i < |xs| && forall k, l :: 0 <= k < l < |xs| ==> xs[k] != xs[l]
    ensures var ys := SwapRemove(xs, i);
      && (forall k, l :: 0 <= k < l < |ys| ==> ys[k] != ys[l])
      && (forall b :: b in ys <==> b in xs && b != xs[i])
  {
    var ys := SwapRemove(xs, i);
    forall b | b in xs && b != xs[i] ensures b in ys {
      var k :| 0 <= k < |xs| && xs[k] == b;
      assert ys[if k == |xs| - 1 then i else k] == b;
    }
  }

  /** A block that is held by one thread, or by none, keeps the pools as they are. */
  lemma PoolKeeps(s: State, b: Id, pl: Place)
    requires PoolOk(s.spare, s.ready, s.retired, s.blocks, s.place) && b in s.place
    requires !s.place[b].InSpare? && !s.place[b].InReady? && !s.place[b].Retired?
    requires !pl.InSpare? && !pl.InReady? && !pl.Retired?
    ensures PoolOk(s.spare, s.ready, s.retired, s.blocks, s.place[b := pl])
  {
  }

  lemma TakeSpareShared(c: Config, s: State, t: Tid, n: Id)
    requires SharedOk(c, s) && s.spare == Some(n)
    ensures SharedOk(c, s.(spare := None, place := s.place[n := Held(t)]))
    ensures Rely(c, s, s.(spare := None, place := s.place[n := Held(t)]), t)
  {
    hide HeadTailOk, CountsOk, WritersOk, LiveOk, ReadersOk, LinksOk, TagsOk, ContentOk, OrderOk, GotOk, MovingOk, Rely;
    PlaceShared(c, s, n, Held(t));
    PoolTakes(s, t, Held(t));
    PlaceRely(c, s, s.(spare := None, place := s.place[n := Held(t)]), t, n, Held(t));
  }

  lemma TakeReadyShared(c: Config, s: State, t: Tid)
    requires SharedOk(c, s) && |s.ready| > 0
    ensures var n, rest := s.ready[|s.ready| - 1], s.ready[..|s.ready| - 1];
      var s2 := s.(ready := rest, place := s.place[n := Held(t)]); SharedOk(c, s2) && Rely(c, s, s2, t)
  {
    hide HeadTailOk, CountsOk, WritersOk, LiveOk, ReadersOk, LinksOk, TagsOk, ContentOk, OrderOk, GotOk, MovingOk, Rely;
    var n, rest := s.ready[|s.ready| - 1], s.ready[..|s.ready| - 1];
    PlaceShared(c, s, n, Held(t));
    PoolTakes(s, t, Held(t));
    PlaceRely(c, s, s.(ready := rest, place := s.place[n := Held(t)]), t, n, Held(t));
  }

  /** The reader of a block's last slot finds the block still live. */
  lemma LastReaderLive(c: Config, s: State, b: Id)
    requires Inv(c, s) && b in s.place && LapOf(s.place[b]).Some? && !s.place[b].Live?
    ensures Pos(LapOf(s.place[b]).value, c.cap - 1) !in s.reader
  {
    hide CountsOk, WritersOk, StartOk, LinksOk, MarksOk, TagsOk, ContentOk, PoolOk, OrderOk, GotOk, MovingOk;
    var p := Pos(LapOf(s.place[b]).value, c.cap - 1);
    if p in s.reader {
      Knows(c, s, s.reader[p]);
    }
  }

  /** When every mark is set, no value of the block's lap is being read. */
  lemma AllMarkedNoReaders(c: Config, s: State, b: Id)
    requires Inv(c, s) && ReadersDone(c, s, b) && b in s.place && !s.place[b].Live?
    ensures NoReaders(s, b)
  {
    hide HeadTailOk, CountsOk, WritersOk, LiveOk, StartOk, LinksOk, TagsOk, ContentOk, PoolOk, OrderOk, GotOk, MovingOk,
      ThreadsOk;
    if LapOf(s.place[b]).Some? {
      LastReaderLive(c, s, b);
      forall p | p in s.reader ensures p.lap != LapOf(s.place[b]).value {
        if p.off < c.cap - 1 { assert Slot(b, p.off) in s.marked; }
      }
    }
  }

  lemma TakeRetiredShared(c: Config, s: State, t: Tid, i: nat)
    requires Inv(c, s) && i < |s.retired| && ReadersDone(c, s, s.retired[i])
    ensures var n := s.retired[i];
      var s2 := s.(retired := SwapRemove(s.retired, i), place := s.place[n := Wiping(t)]);
      SharedOk(c, s2) && Rely(c, s, s2, t)
  {
    hide HeadTailOk, CountsOk, WritersOk, LiveOk, StartOk, MarksOk, ReadersOk, LinksOk, TagsOk, ContentOk, OrderOk,
      GotOk,
      MovingOk, Rely, ThreadsOk;
    var n := s.retired[i];
    AllMarkedNoReaders(c, s, n);
    PlaceShared(c, s, n, Wiping(t));
    PoolTakesRetired(s, i, Wiping(t));
    PlaceRely(c, s, s.(retired := SwapRemove(s.retired, i), place := s.place[n := Wiping(t)]), t, n, Wiping(t));
  }

  lemma TakeFreshShared(c: Config, s: State, t: Tid)
    requires SharedOk(c, s)
    ensures var s2 := s.(blocks := s.blocks + 1, place := s.place[s.blocks := Held(t)]);
      SharedOk(c, s2) && Rely(c, s, s2, t)
  {
    hide HeadTailOk, CountsOk, WritersOk, LiveOk, StartOk, MarksOk, ReadersOk, LinksOk, TagsOk, ContentOk, OrderOk,
      GotOk,
      MovingOk, Rely;
    assert s.blocks !in s.place;
    PlaceShared(c, s, s.blocks, Held(t));
    PoolTakes(s, t, Held(t));
    PlaceRely(c, s, s.(blocks := s.blocks + 1, place := s.place[s.blocks := Held(t)]), t, s.blocks, Held(t));
  }

  /** Clearing a mark of a block that only this thread has. */
  lemma WipeMarkShared(c: Config, s: State, t: Tid, n: Id, j: nat)
    requires SharedOk(c, s) && Owns(s.place, n, Wiping(t))
    ensures SharedOk(c, s.(marked := s.marked - {Slot(n, j)}))
    ensures Rely(c, s, s.(marked := s.marked - {Slot(n, j)}), t)
  {
    hide CountsOk, WritersOk, LiveOk, StartOk, ReadersOk, LinksOk, TagsOk, ContentOk, OrderOk, GotOk, MovingOk, PoolOk;
  }

  /** A wiped block becomes clean: pooled start, no marks. */
  lemma WipeDoneShared(c: Config, s: State, t: Tid, n: Id)
    requires SharedOk(c, s) && Owns(s.place, n, Wiping(t))
    requires forall i :: 0 <= i < c.cap ==> Slot(n, i) !in s.marked
    ensures SharedOk(c, s.(start := s.start - {n}, place := s.place[n := Held(t)]))
    ensures Rely(c, s, s.(start := s.start - {n}, place := s.place[n := Held(t)]), t)
  {
    hide HeadTailOk, CountsOk, WritersOk, LiveOk, ReadersOk, LinksOk, TagsOk, ContentOk, OrderOk, GotOk, MovingOk, Rely;
    var s1 := s.(start := s.start - {n});
    StartDropped(s, n);
    forall i: nat ensures Slot(n, i) !in s.marked {
      assert Slot(n, i) in s.marked ==> i < c.cap - 1;
    }
    PlaceShared(c, s1, n, Held(t));
    PoolKeeps(s, n, Held(t));
    WipeDoneRely(c, s, t, n);
  }

  lemma StartDropped(s: State, n: Id)
    requires StartOk(s.start, s.serves, s.place) && n in s.place && !s.place[n].Live?
    ensures StartOk(s.start - {n}, s.serves, s.place)
  {
  }

  lemma WipeDoneRely(c: Config, s: State, t: Tid, n: Id)
    requires SharedOk(c, s) && n in s.place && !Others(s.place, n, t)
    ensures Rely(c, s, s.(start := s.start - {n}, place := s.place[n := Held(t)]), t)
  {
    hide CountsOk, WritersOk, ReadersOk, LiveOk, StartOk, LinksOk, MarksOk, TagsOk, ContentOk, PoolOk, OrderOk, GotOk,
      MovingOk;
  }

  /** A block in one thread's hands is not on the live chain. */
  lemma HeldOffChain(c: Config, s: State, t: Tid, n: Id)
    requires SharedOk(c, s) && Owns(s.place, n, Held(t))
    ensures forall k :: s.headLap <= k < |s.serves| ==> s.serves[k] != n
  {
    hide HeadTailOk, CountsOk, WritersOk, StartOk, ReadersOk, MarksOk, TagsOk, ContentOk, PoolOk, OrderOk, GotOk,
      MovingOk,
      LinksOk;
  }

  lemma SetPrevShared(c: Config, s: State, t: Tid, b: Id, n: Id)
    requires SharedOk(c, s) && Owns(s.place, n, Held(t))
    ensures SharedOk(c, s.(prevOf := s.prevOf[n := b])) && Rely(c, s, s.(prevOf := s.prevOf[n := b]), t)
  {
    hide CountsOk, WritersOk, LiveOk, StartOk, ReadersOk, MarksOk, TagsOk, ContentOk, PoolOk, OrderOk, GotOk, MovingOk;
    HeldOffChain(c, s, t, n);
  }

  lemma ClearNextShared(c: Config, s: State, t: Tid, n: Id)
    requires SharedOk(c, s) && Owns(s.place, n, Held(t))
    ensures SharedOk(c, s.(nextOf := s.nextOf - {n})) && Rely(c, s, s.(nextOf := s.nextOf - {n}), t)
  {
    hide CountsOk, LiveOk, StartOk, ReadersOk, MarksOk, TagsOk, ContentOk, PoolOk, OrderOk, GotOk, MovingOk;
    HeldOffChain(c, s, t, n);
  }

  /** The live chain has one block per lap. */
  lemma LiveDistinct(c: Config, s: State, k: nat)
    requires SharedOk(c, s) && s.headLap <= k < |s.serves|
    ensures forall j :: s.headLap <= j < |s.serves| && s.serves[j] == s.serves[k] ==> j == k
    ensures s.serves[k] in s.place && s.place[s.serves[k]] == Live(k)
  {
    hide HeadTailOk, CountsOk, WritersOk, StartOk, ReadersOk, MarksOk, TagsOk, ContentOk, PoolOk, OrderOk, GotOk,
      MovingOk,
      LinksOk;
  }

  /** The link to the next block belongs to the owner of the last slot. */
  lemma LinkNextShared(c: Config, s: State, t: Tid, m: Msg, b: Id, n: Id)
    requires SharedOk(c, s) && ClaimOk(c, s, t, m) && InstallingOk(c, s, t, m, b, LinkNext(n))
    ensures SharedOk(c, s.(nextOf := s.nextOf[b := n]))
  {
    hide HeadTailOk, CountsOk, LiveOk, StartOk, ReadersOk, MarksOk, TagsOk, ContentOk, PoolOk, OrderOk, GotOk, MovingOk;
    LiveDistinct(c, s, m.p.lap);
  }

  lemma LinkNextRely(c: Config, s: State, t: Tid, m: Msg, b: Id, n: Id)
    requires SharedOk(c, s) && ClaimOk(c, s, t, m) && InstallingOk(c, s, t, m, b, LinkNext(n))
    ensures Rely(c, s, s.(nextOf := s.nextOf[b := n]), t)
  {
    hide CountsOk, LiveOk, StartOk, ReadersOk, MarksOk, TagsOk, ContentOk, PoolOk, OrderOk, GotOk, MovingOk, LinksOk;
    LiveDistinct(c, s, m.p.lap);
  }

  lemma SetStartLive(c: Config, s: State, t: Tid, m: Msg, b: Id, n: Id)
    requires LiveOk(s.headBlock, s.headLap, s.serves, s.place)
    requires ClaimOk(c, s, t, m) && InstallingOk(c, s, t, m, b, SetStart(n))
    ensures LiveOk(s.headBlock, s.headLap, Started(s, m.p.lap + 1, n).serves, Started(s, m.p.lap + 1, n).place)
  {
    assert |s.serves| == m.p.lap + 1;
  }

  lemma SetStartStart(c: Config, s: State, t: Tid, m: Msg, b: Id, n: Id)
    requires StartOk(s.start, s.serves, s.place)
    requires ClaimOk(c, s, t, m) && InstallingOk(c, s, t, m, b, SetStart(n))
    ensures var s2 := Started(s, m.p.lap + 1, n); StartOk(s2.start, s2.serves, s2.place)
  {
    assert |s.serves| == m.p.lap + 1;
  }

  lemma SetStartLinks(c: Config, s: State, t: Tid, m: Msg, b: Id, n: Id)
    requires LinksOk(c, s.headLap, s.serves, s.nextOf, s.prevOf, s.tail, s.writer)
    requires WritersOk(c, s.head, s.tail, s.headLap, s.writer, s.pcs)
    requires ContentOk(c, s.head, s.tail, s.writer, s.reader, s.serves, s.tag, s.value, s.log)
    requires ClaimOk(c, s, t, m) && InstallingOk(c, s, t, m, b, SetStart(n))
    ensures LinksOk(c, s.headLap, Started(s, m.p.lap + 1, n).serves, s.nextOf, s.prevOf, s.tail, s.writer)
  {
    hide LinksOk, Published;
    var k := |s.serves|;
    assert k == m.p.lap + 1 && m.p == Pos(k - 1, c.cap - 1);
    NewestUnpublished(c, s, k);
    LinksGrow(c, s.headLap, s.serves, n, s.nextOf, s.prevOf, s.tail, s.writer);
  }

  lemma NewestUnpublished(c: Config, s: State, k: nat)
    requires ContentOk(c, s.head, s.tail, s.writer, s.reader, s.serves, s.tag, s.value, s.log) && k >= |s.serves|
    ensures !Published(c, s.tail, s.writer, Pos(k, c.cap - 1))
  {
    hide Unread, Published;
  }

  /** The chain grows by a block linked back to the newest. */
  lemma LinksGrow(c: Config, headLap: nat, serves: seq<Id>, n: Id, nextOf: map<Id, Id>, prevOf: map<Id, Id>, tail: Pos,
                  writer: map<Pos, Tid>)
    requires LinksOk(c, headLap, serves, nextOf, prevOf, tail, writer) && |serves| > 0
    requires n in prevOf && prevOf[n] == serves[|serves| - 1] && n !in nextOf
    requires !Published(c, tail, writer, Pos(|serves|, c.cap - 1)) && Before(Pos(|serves| - 1, c.cap - 1), tail)
    ensures LinksOk(c, headLap, serves + [n], nextOf, prevOf, tail, writer)
  {
    hide Published, Before;
  }

  lemma SetStartContent(c: Config, s: State, t: Tid, m: Msg, b: Id, n: Id)
    requires ContentOk(c, s.head, s.tail, s.writer, s.reader, s.serves, s.tag, s.value, s.log)
    requires TagsOk(c, s.tail, s.writer, s.serves, s.tag)
    ensures ContentOk(c, s.head, s.tail, s.writer, s.reader, Started(s, m.p.lap + 1, n).serves, s.tag, s.value, s.log)
    ensures TagsOk(c, s.tail, s.writer, Started(s, m.p.lap + 1, n).serves, s.tag)
  {
  }

  lemma SetStartMarks(c: Config, s: State, t: Tid, m: Msg, b: Id, n: Id)
    requires WritersOk(c, s.head, s.tail, s.headLap, s.writer, s.pcs)
    requires ReadersOk(c, s.head, s.serves, s.place, s.reader, s.pcs)
    requires MarksOk(c, s.head, s.marked, s.place, s.reader)
    requires ClaimOk(c, s, t, m) && InstallingOk(c, s, t, m, b, SetStart(n))
    ensures ReadersOk(c, s.head, Started(s, m.p.lap + 1, n).serves, Started(s, m.p.lap + 1, n).place, s.reader, s.pcs)
    ensures MarksOk(c, s.head, s.marked, Started(s, m.p.lap + 1, n).place, s.reader)
  {
    SetStartReaders(c, s, t, m, b, n);
    AheadOfHead(c, s, t, m, m.p.lap + 1);
    LiveMarks(c, s.head, s.marked, s.place, s.reader, n, t, m.p.lap + 1);
  }

  lemma SetStartReaders(c: Config, s: State, t: Tid, m: Msg, b: Id, n: Id)
    requires ReadersOk(c, s.head, s.serves, s.place, s.reader, s.pcs) && InstallingOk(c, s, t, m, b, SetStart(n))
    ensures ReadersOk(c, s.head, Started(s, m.p.lap + 1, n).serves, Started(s, m.p.lap + 1, n).place, s.reader, s.pcs)
  {
  }

  /** The lap after a pending claim's is ahead of the head, and nothing in it is taken. */
  lemma AheadOfHead(c: Config, s: State, t: Tid, m: Msg, k: nat)
    requires WritersOk(c, s.head, s.tail, s.headLap, s.writer, s.pcs) && ClaimOk(c, s, t, m) && k == m.p.lap + 1
    requires ReadersOk(c, s.head, s.serves, s.place, s.reader, s.pcs)
    ensures forall i: nat :: !Before(Pos(k, i), s.head) && Pos(k, i) !in s.reader
  {
    forall i: nat ensures !Before(Pos(k, i), s.head) {
    }
  }

  /** A clean block becomes live: it has no marks, and nothing of its lap is taken. */
  lemma LiveMarks(c: Config, head: Pos, marked: set<Slot>, place: map<Id, Place>, reader: map<Pos, Tid>, n: Id, t: Tid,
                  k: nat)
    requires MarksOk(c, head, marked, place, reader) && Owns(place, n, Held(t))
    requires forall i: nat :: !Before(Pos(k, i), head) && Pos(k, i) !in reader
    ensures MarksOk(c, head, marked, place[n := Live(k)], reader)
  {
    hide Before;
    assert forall x :: x in marked ==> x.block != n;
  }

  lemma SetStartShared(c: Config, s: State, t: Tid, m: Msg, b: Id, n: Id)
    requires SharedOk(c, s) && ClaimOk(c, s, t, m) && InstallingOk(c, s, t, m, b, SetStart(n))
    ensures SharedOk(c, Started(s, m.p.lap + 1, n))
  {
    hide HeadTailOk, CountsOk, WritersOk, LiveOk, StartOk, ReadersOk, MarksOk, TagsOk, ContentOk, PoolOk, OrderOk,
      GotOk,
      MovingOk, LinksOk;
    SetStartLive(c, s, t, m, b, n);
    SetStartStart(c, s, t, m, b, n);
    SetStartLinks(c, s, t, m, b, n);
    SetStartContent(c, s, t, m, b, n);
    SetStartMarks(c, s, t, m, b, n);
    PoolKeeps(s, n, Live(m.p.lap + 1));
  }

  lemma SetStartRely(c: Config, s: State, t: Tid, m: Msg, b: Id, n: Id)
    requires SharedOk(c, s) && ClaimOk(c, s, t, m) && InstallingOk(c, s, t, m, b, SetStart(n))
    ensures Rely(c, s, Started(s, m.p.lap + 1, n), t)
  {
    hide CountsOk, WritersOk, LiveOk, StartOk, ReadersOk, MarksOk, TagsOk, ContentOk, PoolOk, OrderOk, GotOk,
      MovingOk, LinksOk;
    assert m.p == Pos(m.p.lap, c.cap - 1);
  }

  // ---- The steps --------------------------------------------------------------------------------

  lemma TakeStepOk(c: Config, s: State, t: Tid, ch: Choice, m: Msg, b: Id, pc: InstallPc)
    requires Inv(c, s) && t < |s.pcs| && s.pcs[t] == Installing(m, b, pc) && (pc.TakeSpare? || pc.TakePool?)
    ensures StepOk(c, s, Apply(StepInstall(c, s, t, ch, m, b, pc), t), t)
  {
    hide SharedOk, ThreadsOk, Rely, StepOk, ReadersDone, Goto;
    Knows(c, s, t);
    if pc.TakeSpare? && s.spare.None? {
      GotoOk(c, s, t, Installing(m, b, TakePool));
    } else if pc.TakeSpare? {
      var n := s.spare.value;
      TakeSpareShared(c, s, t, n);
      ThenGoto(c, s, s.(spare := None, place := s.place[n := Held(t)]), t, Installing(m, b, SetPrev(n)));
    } else {
      TakePoolStepOk(c, s, t, ch, m, b);
    }
  }

  lemma TakePoolStepOk(c: Config, s: State, t: Tid, ch: Choice, m: Msg, b: Id)
    requires Inv(c, s) && t < |s.pcs| && s.pcs[t] == Installing(m, b, TakePool)
    ensures StepOk(c, s, Apply(StepInstall(c, s, t, ch, m, b, TakePool), t), t)
  {
    hide SharedOk, ThreadsOk, Rely, StepOk, ReadersDone, Goto;
    Knows(c, s, t);
    if |s.ready| > 0 {
      var n, rest := s.ready[|s.ready| - 1], s.ready[..|s.ready| - 1];
      TakeReadyShared(c, s, t);
      ThenGoto(c, s, s.(ready := rest, place := s.place[n := Held(t)]), t, Installing(m, b, SetPrev(n)));
    } else {
      TakeOtherStepOk(c, s, t, ch, m, b);
    }
  }

  lemma TakeRetiredStepOk(c: Config, s: State, t: Tid, ch: Choice, m: Msg, b: Id)
    requires Inv(c, s) && t < |s.pcs| && s.pcs[t] == Installing(m, b, TakePool) && |s.ready| == 0
    requires ch.Pick? && ch.i < |s.retired| && ReadersDone(c, s, s.retired[ch.i])
    ensures StepOk(c, s, Apply(StepInstall(c, s, t, ch, m, b, TakePool), t), t)
  {
    hide SharedOk, ThreadsOk, Rely, StepOk, ReadersDone, Goto;
    Knows(c, s, t);
    var n := s.retired[ch.i];
    TakeRetiredShared(c, s, t, ch.i);
    ThenGoto(c, s, s.(retired := SwapRemove(s.retired, ch.i), place := s.place[n := Wiping(t)]), t,
             Installing(m, b, WipeTaken(n, 0)));
  }

  lemma TakeFreshStepOk(c: Config, s: State, t: Tid, ch: Choice, m: Msg, b: Id)
    requires Inv(c, s) && t < |s.pcs| && s.pcs[t] == Installing(m, b, TakePool) && |s.ready| == 0
    requires !(ch.Pick? && ch.i < |s.retired| && ReadersDone(c, s, s.retired[ch.i]))
    ensures StepOk(c, s, Apply(StepInstall(c, s, t, ch, m, b, TakePool), t), t)
  {
    hide SharedOk, ThreadsOk, Rely, StepOk, ReadersDone, Goto;
    Knows(c, s, t);
    var n := s.blocks;
    TakeFreshShared(c, s, t);
    ThenGoto(c, s, s.(blocks := n + 1, place := s.place[n := Held(t)]), t, Installing(m, b, SetPrev(n)));
  }

  lemma TakeOtherStepOk(c: Config, s: State, t: Tid, ch: Choice, m: Msg, b: Id)
    requires Inv(c, s) && t < |s.pcs| && s.pcs[t] == Installing(m, b, TakePool) && |s.ready| == 0
    ensures StepOk(c, s, Apply(StepInstall(c, s, t, ch, m, b, TakePool), t), t)
  {
    hide Inv, StepOk, Apply, StepInstall, ReadersDone;
    if ch.Pick? && ch.i < |s.retired| && ReadersDone(c, s, s.retired[ch.i]) {
      TakeRetiredStepOk(c, s, t, ch, m, b);
    } else {
      TakeFreshStepOk(c, s, t, ch, m, b);
    }
  }

  lemma WipeStepOk(c: Config, s: State, t: Tid, ch: Choice, m: Msg, b: Id, n: Id, j: nat)
    requires Inv(c, s) && t < |s.pcs| && s.pcs[t] == Installing(m, b, WipeTaken(n, j))
    ensures StepOk(c, s, Apply(StepInstall(c, s, t, ch, m, b, WipeTaken(n, j)), t), t)
  {
    hide Inv, StepOk, Goto;
    if j < c.cap { WipeMarkOk(c, s, t, m, b, n, j); } else { WipeDoneOk(c, s, t, m, b, n, j); }
  }

  lemma WipeMarkOk(c: Config, s: State, t: Tid, m: Msg, b: Id, n: Id, j: nat)
    requires Inv(c, s) && t < |s.pcs| && s.pcs[t] == Installing(m, b, WipeTaken(n, j)) && j < c.cap
    ensures StepOk(c, s, Goto(s.(marked := s.marked - {Slot(n, j)}), t, Installing(m, b, WipeTaken(n, j + 1))), t)
  {
    hide SharedOk, ThreadsOk, Rely, StepOk, Goto;
    Knows(c, s, t);
    WipeMarkShared(c, s, t, n, j);
    ThenGoto(c, s, s.(marked := s.marked - {Slot(n, j)}), t, Installing(m, b, WipeTaken(n, j + 1)));
  }

  lemma WipeDoneOk(c: Config, s: State, t: Tid, m: Msg, b: Id, n: Id, j: nat)
    requires Inv(c, s) && t < |s.pcs| && s.pcs[t] == Installing(m, b, WipeTaken(n, j)) && j >= c.cap
    ensures var s2 := s.(start := s.start - {n}, place := s.place[n := Held(t)]);
      StepOk(c, s, Goto(s2, t, Installing(m, b, SetPrev(n))), t)
  {
    hide SharedOk, ThreadsOk, Rely, StepOk, Goto;
    Knows(c, s, t);
    WipeDoneShared(c, s, t, n);
    ThenGoto(c, s, s.(start := s.start - {n}, place := s.place[n := Held(t)]), t, Installing(m, b, SetPrev(n)));
  }

  lemma PrepareStepOk(c: Config, s: State, t: Tid, ch: Choice, m: Msg, b: Id, pc: InstallPc)
    requires Inv(c, s) && t < |s.pcs| && s.pcs[t] == Installing(m, b, pc)
    requires pc.SetPrev? || pc.ClearNext?
    ensures StepOk(c, s, Apply(StepInstall(c, s, t, ch, m, b, pc), t), t)
  {
    hide SharedOk, ThreadsOk, Rely, StepOk, Goto;
    Knows(c, s, t);
    var n := pc.n;
    if pc.SetPrev? {
      SetPrevShared(c, s, t, b, n);
      ThenGoto(c, s, s.(prevOf := s.prevOf[n := b]), t, Installing(m, b, ClearNext(n)));
    } else {
      ClearNextShared(c, s, t, n);
      ThenGoto(c, s, s.(nextOf := s.nextOf - {n}), t, Installing(m, b, SetStart(n)));
    }
  }

  lemma LinkStepOk(c: Config, s: State, t: Tid, ch: Choice, m: Msg, b: Id, pc: InstallPc)
    requires Inv(c, s) && t < |s.pcs| && s.pcs[t] == Installing(m, b, pc)
    requires pc.SetStart? || pc.LinkNext? || pc.MoveTail?
    ensures StepOk(c, s, Apply(StepInstall(c, s, t, ch, m, b, pc), t), t)
  {
    hide Inv, StepOk, Apply, StepInstall;
    match pc
    case SetStart(n) => SetStartStepOk(c, s, t, ch, m, b, n);
    case LinkNext(n) => LinkNextStepOk(c, s, t, ch, m, b, n);
    case MoveTail(n) => MoveTailStepOk(c, s, t, ch, m, b, n);
  }

  lemma SetStartStepOk(c: Config, s: State, t: Tid, ch: Choice, m: Msg, b: Id, n: Id)
    requires Inv(c, s) && t < |s.pcs| && s.pcs[t] == Installing(m, b, SetStart(n))
    ensures StepOk(c, s, Apply(StepInstall(c, s, t, ch, m, b, SetStart(n)), t), t)
  {
    hide SharedOk, ThreadsOk, Rely, StepOk, Goto;
    Knows(c, s, t);
    SetStartShared(c, s, t, m, b, n);
    SetStartRely(c, s, t, m, b, n);
    ThenGoto(c, s, Started(s, m.p.lap + 1, n), t, Installing(m, b, LinkNext(n)));
  }

  lemma LinkNextStepOk(c: Config, s: State, t: Tid, ch: Choice, m: Msg, b: Id, n: Id)
    requires Inv(c, s) && t < |s.pcs| && s.pcs[t] == Installing(m, b, LinkNext(n))
    ensures StepOk(c, s, Apply(StepInstall(c, s, t, ch, m, b, LinkNext(n)), t), t)
  {
    hide SharedOk, ThreadsOk, Rely, StepOk, Goto;
    Knows(c, s, t);
    LinkNextShared(c, s, t, m, b, n);
    LinkNextRely(c, s, t, m, b, n);
    ThenGoto(c, s, s.(nextOf := s.nextOf[b := n]), t, Installing(m, b, MoveTail(n)));
  }

  lemma MoveTailStepOk(c: Config, s: State, t: Tid, ch: Choice, m: Msg, b: Id, n: Id)
    requires Inv(c, s) && t < |s.pcs| && s.pcs[t] == Installing(m, b, MoveTail(n))
    ensures StepOk(c, s, Apply(StepInstall(c, s, t, ch, m, b, MoveTail(n)), t), t)
  {
    hide SharedOk, ThreadsOk, Rely, StepOk, Goto;
    Knows(c, s, t);
    MoveTailShared(c, s, t, n);
    ThenGoto(c, s, s.(tailBlock := n), t, Writing(m, b, Write));
  }

  /** Nothing above rests on where the producers start their walk. */
  lemma MoveTailShared(c: Config, s: State, t: Tid, n: Id)
    requires SharedOk(c, s)
    ensures SharedOk(c, s.(tailBlock := n)) && Rely(c, s, s.(tailBlock := n), t)
  {
    hide CountsOk, WritersOk, LiveOk, StartOk, ReadersOk, MarksOk, TagsOk, ContentOk, PoolOk, OrderOk, GotOk,
      MovingOk, LinksOk;
  }

  lemma InstallStepOk(c: Config, s: State, t: Tid, ch: Choice, m: Msg, b: Id, pc: InstallPc)
    requires Inv(c, s) && t < |s.pcs| && s.pcs[t] == Installing(m, b, pc)
    ensures StepOk(c, s, Apply(StepInstall(c, s, t, ch, m, b, pc), t), t)
  {
    hide *;
    match pc
    case TakeSpare => TakeStepOk(c, s, t, ch, m, b, pc);
    case TakePool => TakeStepOk(c, s, t, ch, m, b, pc);
    case WipeTaken(n, j) => WipeStepOk(c, s, t, ch, m, b, n, j);
    case SetPrev(_) => PrepareStepOk(c, s, t, ch, m, b, pc);
    case ClearNext(_) => PrepareStepOk(c, s, t, ch, m, b, pc);
    case _ => LinkStepOk(c, s, t, ch, m, b, pc);
  }
}
