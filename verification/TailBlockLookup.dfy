/**
  Whether a lookup ends.

  Where no installation can be overtaken, a lookup ends within a bound of its own steps once the
  installer of its lap has made both its stores, whatever everybody else does.  Where one can, there
  is a run that leaves `tail.block` behind the newest block with nobody left to move it: from then on
  every push of the newest lap looks for its block for ever, in every continuation.
*/
module TailBlockLookup {
  import opened Basics
  import opened Positions
  import opened QueueModel
  import opened QueueInvariant
  import opened QueueFrames
  import opened QueueStepOk
  import opened QueueTheorems
  import opened QueueWalk
  import opened TailBlock
  import opened TailBlockSteps
  import opened TailBlockLate
  import QueueSafety

  /** Lap `lap` is installed, and its installer has made both its stores. */
  ghost predicate Ready(s: State, lap: nat) {
    lap < |s.serves| && forall u :: 0 <= u < |s.pcs| && Linking(s.pcs[u]) ==> s.pcs[u].m.p.lap + 1 != lap
  }

  /** Thread `t` looks for the block of a lap that is ready. */
  ghost predicate LooksReady(s: State, t: Tid) {
    t < |s.pcs| && s.pcs[t].Finding? && Ready(s, s.pcs[t].m.p.lap)
  }

  /** The lookup for `m` is over: it has found a block. */
  predicate FoundBy(s: State, t: Tid, m: Msg) {
    t < |s.pcs| && (s.pcs[t].Installing? || s.pcs[t].Writing?) && s.pcs[t].m == m
  }

  // ---- Ready laps -------------------------------------------------------------------------------

  lemma LinkingFrom(c: Config, s: State, t: Tid, ch: Choice)
    requires t < |s.pcs| && Linking(StepOf(c, s, t, ch).pc)
    ensures s.pcs[t].Installing? && StepOf(c, s, t, ch).pc.m == s.pcs[t].m
    ensures s.pcs[t].install.SetStart? || Linking(s.pcs[t])
  {
    hide Elsewhere, StepClaim, StepFind, StepTake, StepRead, StepMove, StepLeave, StepSolo, StepCall, ReadersDone;
    match s.pcs[t] {
    case Claiming(v, pc) => ClaimNotLinking(c, s, t, ch, v, pc);
    case Finding(m, pc) => FindNotLinking(c, s, t, m, pc);
    case Installing(m, b, pc) =>
    case Writing(m, b, pc) =>
    case Taking(pc) => PopElsewhere(c, s, t, ch, pc); ElsewhereNotLinking(StepOf(c, s, t, ch).pc);
    case Reading(p, b, pc) => ReadElsewhere(c, s, t, p, b); ElsewhereNotLinking(StepOf(c, s, t, ch).pc);
    case Moving(p, b, pc) => ReadElsewhere(c, s, t, p, b); ElsewhereNotLinking(StepOf(c, s, t, ch).pc);
    case Leaving(pc) => ReadElsewhere(c, s, t, s.head, 0); ElsewhereNotLinking(StepOf(c, s, t, ch).pc);
    case Batching(pc) => SoloElsewhere(c, s, t, pc); ElsewhereNotLinking(StepOf(c, s, t, ch).pc);
    case pc => NotPushing(pc); CallElsewhere(c, s, t, ch); ElsewhereNotLinking(StepOf(c, s, t, ch).pc);
    }
  }

  lemma ElsewhereNotLinking(pc: Pc)
    requires Elsewhere(pc)
    ensures !Linking(pc)
  {
  }

  lemma NotPushing(pc: Pc)
    requires !pc.Finding? && !pc.Installing? && !pc.Writing?
    ensures Elsewhere(pc)
  {
  }

  lemma ClaimNotLinking(c: Config, s: State, t: Tid, ch: Choice, v: Value, pc: ClaimPc)
    ensures !Linking(StepClaim(c, s, t, ch, v, pc).pc)
  {
    hide Items;
  }

  lemma FindNotLinking(c: Config, s: State, t: Tid, m: Msg, pc: FindPc)
    ensures !Linking(StepFind(c, s, t, m, pc).pc)
  {
  }

  lemma ReadyStays(c: Config, s: State, t: Tid, ch: Choice, lap: nat)
    requires Inv(c, s) && t < |s.pcs| && Ready(s, lap)
    ensures Ready(Step(c, s, t, ch), lap)
  {
    hide Inv, Step, StepOf, StepOk, Linking;
    var s' := Step(c, s, t, ch);
    StepIsOk(c, s, t, ch);
    QueueSafety.StepGrows(c, s, s', t);
    QueueSafety.StepMoves(c, s, t, ch);
    if Linking(s'.pcs[t]) {
      LinkingFrom(c, s, t, ch);
      if s.pcs[t].install.SetStart? {
        InstallerKnows(c, s, t, s.pcs[t].m, s.pcs[t].b, s.pcs[t].install);
      }
    }
  }

  /** Once its lap is ready, `tail.block` is at or ahead of the claim. */
  lemma ReadyReached(c: Config, g: nat, s: State, lap: nat)
    requires Inv(c, s) && TailInv(c, g, s) && Ready(s, lap)
    ensures lap <= TailLap(c, s.serves, s.writer, s.pcs)
  {
    hide Inv, TailOk;
    LastRange(c, g, s);
    if Lagging(c, s.serves, s.writer, s.pcs) {
      LinkingLap(c, g, s, s.writer[Pos(|s.serves| - 2, c.cap - 1)]);
    }
  }

  // ---- Every lookup ends ------------------------------------------------------------------------

  /** Own steps left, while `newest` is the newest lap. */
  function LookupLeft(pc: Pc, newest: nat): int
    requires pc.Finding?
  {
    match WalkLeft(pc)
    case Some(k) => k
    case None =>
      2 * (newest - pc.m.p.lap) + if pc.find.FindFast? then 4 else if pc.find.FindSlow? then 2 else 3
  }

  /** The block `tail.block` points to is at or ahead of the claim, and still has its start. */
  lemma TailAhead(c: Config, g: nat, s: State, t: Tid)
    requires Inv(c, s) && TailInv(c, g, s) && LooksReady(s, t)
    ensures var k := TailLap(c, s.serves, s.writer, s.pcs);
      s.pcs[t].m.p.lap <= k < |s.serves| && StartIs(s, s.tailBlock, k)
  {
    hide Inv, TailOk, Lagging;
    LastRange(c, g, s);
    ReadyReached(c, g, s, s.pcs[t].m.p.lap);
    BlockAhead(c, s, t, s.pcs[t].m, TailLap(c, s.serves, s.writer, s.pcs));
  }

  lemma BlockAhead(c: Config, s: State, t: Tid, m: Msg, k: nat)
    requires Inv(c, s) && t < |s.pcs| && s.pcs[t].Finding? && s.pcs[t].m == m && m.p.lap <= k < |s.serves|
    ensures StartIs(s, s.serves[k], k)
  {
    hide SharedOk;
    Knows(c, s, t);
    AheadIsLive(c, s, t, m, k, s.serves[k]);
  }

  /** A known distance is no more than that to the newest lap. */
  lemma WalkInside(c: Config, s: State, t: Tid, m: Msg, pc: FindPc)
    requires Inv(c, s) && t < |s.pcs| && s.pcs[t] == Finding(m, pc) && WalkLeft(s.pcs[t]).Some?
    ensures WalkLeft(s.pcs[t]).value <= 2 * (|s.serves| - 1 - m.p.lap) + 1
  {
    hide SharedOk;
    Knows(c, s, t);
  }

  /** A block whose start is ahead of the claim gives a known distance. */
  lemma AheadInside(c: Config, s: State, t: Tid, m: Msg, b: Id)
    requires Inv(c, s) && b in s.start && s.start[b] > m.p.lap
    ensures WalkLeft(Finding(m, WalkPrev(b, s.start[b]))) == Some(2 * (s.start[b] - m.p.lap))
    ensures s.start[b] < |s.serves|
  {
    hide Inv;
    FoundLap(c, s, b, s.start[b]);
  }

  /** Every step of a lookup for a ready lap finds the block or has fewer steps left. */
  lemma LookupShrinks(c: Config, g: nat, s: State, t: Tid, newest: nat)
    requires Inv(c, s) && TailInv(c, g, s) && LooksReady(s, t) && |s.serves| <= newest + 1
    ensures var m := s.pcs[t].m; var o := StepFind(c, s, t, m, s.pcs[t].find).pc;
      || ((o.Installing? || o.Writing?) && o.m == m)
      || (o.Finding? && o.m == m && LookupLeft(o, newest) < LookupLeft(s.pcs[t], newest))
    ensures LookupLeft(s.pcs[t], newest) > 0
  {
    hide Inv, TailInv, Lagging, WalkLeft, Ready, TailLap;
    var m, pc := s.pcs[t].m, s.pcs[t].find;
    TailAhead(c, g, s, t);
    if WalkLeft(s.pcs[t]).Some? {
      WalkShrinks(c, s, t, m, pc);
    } else {
      FreshShrinks(c, s, t, m, pc, newest);
    }
  }

  lemma FreshShrinks(c: Config, s: State, t: Tid, m: Msg, pc: FindPc, newest: nat)
    requires Inv(c, s) && t < |s.pcs| && s.pcs[t] == Finding(m, pc) && WalkLeft(s.pcs[t]).None?
    requires m.p.lap < |s.serves| <= newest + 1
    requires s.tailBlock in s.start && m.p.lap <= s.start[s.tailBlock] < |s.serves|
    ensures var o := StepFind(c, s, t, m, pc).pc;
      || ((o.Installing? || o.Writing?) && o.m == m)
      || (o.Finding? && o.m == m && LookupLeft(o, newest) < LookupLeft(s.pcs[t], newest))
    ensures LookupLeft(s.pcs[t], newest) > 0
  {
    hide Inv;
    match pc
    case FindFast =>
    case CheckFast(b) =>
    case FindSlow =>
    case CheckSlow(b, bound) =>
      BoundKnown(c, s, t, m, pc);
      if b in s.start && s.start[b] > m.p.lap { AheadInside(c, s, t, m, b); }
    case WalkPrev(b, seen) => BoundKnown(c, s, t, m, pc);
  }

  /** Only a visit to a block not known to be at or ahead of the claim has no bound. */
  lemma BoundKnown(c: Config, s: State, t: Tid, m: Msg, pc: FindPc)
    requires Inv(c, s) && t < |s.pcs| && s.pcs[t] == Finding(m, pc) && WalkLeft(s.pcs[t]).None?
    ensures !pc.WalkPrev? && (pc.CheckSlow? ==> pc.bound.None?)
  {
    hide SharedOk;
    Knows(c, s, t);
  }

  /** Whatever the others do meanwhile, a lookup for a ready lap ends within a bound of its own steps,
      if no installation can be overtaken. */
  lemma {:induction false} LookupEnds(c: Config, run: seq<State>, acts: seq<Act>, t: Tid, i: nat, j: nat, newest: nat)
      returns (k: nat)
    requires IsRun(c, run, acts) && i <= j <= |acts| && Few(c, c.cap - 1, |run[0].pcs|) && LooksReady(run[i], t)
    requires |run[j].serves| == newest + 1 && Turns(acts, t, i, j) >= LookupLeft(run[i].pcs[t], newest)
    ensures i < k <= j && FoundBy(run[k], t, run[i].pcs[t].m)
    decreases j - i
  {
    hide Inv, Step, StepOf, StepOk, StepFind, LookupLeft, Few, TailInv, Ready;
    RunInv(c, run, acts, i);
    QueueSafety.HistoryGrows(c, run, acts, i, j);
    var h := InvIfFew(c, c.cap - 1, run, acts, i);
    LookupShrinks(c, h, run[i], t, newest);
    var a, m := acts[i], run[i].pcs[t].m;
    assert run[i + 1] == Step(c, run[i], a.t, a.ch);
    StepIsOk(c, run[i], a.t, a.ch);
    QueueSafety.StepGrows(c, run[i], run[i + 1], a.t);
    ReadyStays(c, run[i], a.t, a.ch, m.p.lap);
    if a.t == t {
      QueueSafety.StepMoves(c, run[i], t, a.ch);
      FindMoves(c, run[i], t, a.ch);
      if !run[i + 1].pcs[t].Finding? { return i + 1; }
    }
    k := LookupEnds(c, run, acts, t, i + 1, j, newest);
  }

  /** At most four steps, and two for each lap installed beyond the claim's. */
  lemma LeftAtMost(c: Config, s: State, t: Tid, newest: nat)
    requires Inv(c, s) && LooksReady(s, t) && |s.serves| <= newest + 1
    ensures LookupLeft(s.pcs[t], newest) <= 2 * (newest - s.pcs[t].m.p.lap) + 4
  {
    hide Inv, WalkLeft;
    if WalkLeft(s.pcs[t]).Some? { WalkInside(c, s, t, s.pcs[t].m, s.pcs[t].find); }
  }

  // ---- Lookups that never end -------------------------------------------------------------------

  /** Nobody is between the two stores, `tail.block` is not the newest block, and no claim of the
      newest lap or a later one has the newest block in hand. */
  ghost predicate Stuck(s: State) {
    && |s.serves| > 0 && s.tailBlock != s.serves[|s.serves| - 1]
    && forall t :: 0 <= t < |s.pcs| ==> StuckPc(s.serves, s.pcs[t])
  }

  predicate StuckPc(serves: seq<Id>, pc: Pc)
    requires |serves| > 0
  {
    && !Linking(pc)
    && (ClaimOf(pc).Some? && ClaimOf(pc).value.p.lap + 1 >= |serves| ==>
          pc.Finding? && InHand(pc) != Some(serves[|serves| - 1]))
  }

  /** What a step leaves as it was. */
  predicate TailSame(s: State, s': State) {
    s'.serves == s.serves && s'.tailBlock == s.tailBlock
  }

  /** The step of a stuck state's thread keeps it so, and a lookup in the newest lap goes on. */
  ghost predicate StaysStuck(s: State, t: Tid, o: Outcome)
    requires t < |s.pcs| && |s.serves| > 0
  {
    && TailSame(s, o.after) && StuckPc(s.serves, o.pc)
    && (s.pcs[t].Finding? && s.pcs[t].m.p.lap + 1 >= |s.serves| ==> o.pc.Finding? && o.pc.m == s.pcs[t].m)
  }

  lemma FindStuck(c: Config, s: State, t: Tid, m: Msg, pc: FindPc)
    requires Inv(c, s) && Stuck(s) && t < |s.pcs| && s.pcs[t] == Finding(m, pc)
    ensures StaysStuck(s, t, StepFind(c, s, t, m, pc))
  {
    hide Inv;
    if m.p.lap + 1 >= |s.serves| {
      match pc
      case CheckFast(b) => NotThere(c, s, t, m, b);
      case CheckSlow(b, _) => NotThere(c, s, t, m, b);
      case WalkPrev(b, seen) => WalkLink(c, s, t, m, b, seen);
      case _ =>
    }
  }

  /** Only the newest block has the newest start. */
  lemma NotThere(c: Config, s: State, t: Tid, m: Msg, b: Id)
    requires Inv(c, s) && |s.serves| > 0 && m.p.lap + 1 >= |s.serves| && b != s.serves[|s.serves| - 1]
    ensures b in s.start ==> s.start[b] < m.p.lap
  {
    hide Inv;
    if b in s.start { FoundLap(c, s, b, s.start[b]); }
  }

  /** Nobody installs: the newest block's successor is the business of a lookup that goes on. */
  lemma NobodyInstalls(c: Config, s: State, t: Tid)
    requires Inv(c, s) && Stuck(s) && t < |s.pcs|
    ensures !s.pcs[t].Installing?
  {
    hide SharedOk;
    Knows(c, s, t);
    assert StuckPc(s.serves, s.pcs[t]);
  }

  lemma ClaimStuck(c: Config, s: State, t: Tid, ch: Choice, v: Value, pc: ClaimPc)
    requires Inv(c, s) && Stuck(s) && t < |s.pcs| && s.pcs[t] == Claiming(v, pc)
    ensures StaysStuck(s, t, StepClaim(c, s, t, ch, v, pc))
  {
    hide Inv, StepClaim;
    ClaimCases(c, s, t, ch, v, pc);
  }

  lemma AwayStuck(c: Config, s: State, t: Tid, ch: Choice)
    requires Stuck(s) && t < |s.pcs| && Elsewhere(s.pcs[t]) && !s.pcs[t].Claiming?
    ensures StaysStuck(s, t, StepOf(c, s, t, ch))
  {
    hide StepTake, StepRead, StepMove, StepLeave, StepSolo, StepCall;
    match s.pcs[t] {
    case Taking(pc) => TakeKeepsTail(c, s, t, ch, pc); PopElsewhere(c, s, t, ch, pc);
    case Reading(p, b, pc) => ReadKeepsTail(c, s, t, p, b, pc); ReadElsewhere(c, s, t, p, b);
    case Moving(p, b, pc) => MoveKeepsTail(c, s, t, p, b, pc); ReadElsewhere(c, s, t, p, b);
    case Leaving(pc) => LeaveKeepsTail(c, s, t, pc); ReadElsewhere(c, s, t, s.head, s.headBlock);
    case Batching(pc) => SoloKeepsTail(c, s, t, pc); SoloElsewhere(c, s, t, pc);
    case _ => CallElsewhere(c, s, t, ch);
    }
  }

  lemma EffectStuck(c: Config, s: State, t: Tid, ch: Choice)
    requires Inv(c, s) && Stuck(s) && t < |s.pcs|
    ensures StaysStuck(s, t, StepOf(c, s, t, ch))
  {
    hide Inv, Stuck, StaysStuck, StepClaim, StepFind, StepInstall, StepTake, StepRead, StepMove, StepLeave, StepSolo,
      StepCall;
    NobodyInstalls(c, s, t);
    if s.pcs[t].Claiming? {
      ClaimStuck(c, s, t, ch, s.pcs[t].v, s.pcs[t].claim);
    } else if s.pcs[t].Finding? {
      FindStuck(c, s, t, s.pcs[t].m, s.pcs[t].find);
    } else if s.pcs[t].Writing? {
      WriteStuck(c, s, t, s.pcs[t].m, s.pcs[t].b, s.pcs[t].write);
    } else {
      AwayStuck(c, s, t, ch);
    }
  }

  lemma WriteStuck(c: Config, s: State, t: Tid, m: Msg, b: Id, pc: WritePc)
    requires Stuck(s) && t < |s.pcs| && s.pcs[t] == Writing(m, b, pc)
    ensures StaysStuck(s, t, StepWrite(c, s, t, m, b, pc))
  {
    assert StuckPc(s.serves, s.pcs[t]);
  }

  /** A lookup of the newest lap, or a later one, in a stuck state. */
  ghost predicate Spins(s: State, t: Tid, m: Msg) {
    Stuck(s) && t < |s.pcs| && s.pcs[t].Finding? && s.pcs[t].m == m && m.p.lap + 1 >= |s.serves|
  }

  lemma StepSpins(c: Config, s: State, t: Tid, m: Msg, u: Tid, ch: Choice)
    requires Inv(c, s) && Spins(s, t, m) && u < |s.pcs|
    ensures Spins(Step(c, s, u, ch), t, m)
  {
    hide Inv, StepOf, StepOk, StuckPc;
    EffectStuck(c, s, u, ch);
    StepIsOk(c, s, u, ch);
    QueueSafety.StepGrows(c, s, Step(c, s, u, ch), u);
    QueueSafety.StepMoves(c, s, u, ch);
    EffectPcs(c, s, u, ch);
  }

  lemma EffectPcs(c: Config, s: State, t: Tid, ch: Choice)
    requires t < |s.pcs| && StepOk(c, s, Step(c, s, t, ch), t)
    ensures TailSame(StepOf(c, s, t, ch).after, Step(c, s, t, ch))
  {
    hide StepOf, StepOk;
  }

  /** So it goes on, in every continuation. */
  lemma {:induction false} SpinsForever(c: Config, run: seq<State>, acts: seq<Act>, i: nat, j: nat, t: Tid, m: Msg)
    requires IsRun(c, run, acts) && i <= j < |run| && Spins(run[i], t, m)
    ensures Spins(run[j], t, m)
    decreases j
  {
    hide Inv, Step, Spins;
    if i < j {
      SpinsForever(c, run, acts, i, j - 1, t, m);
      RunInv(c, run, acts, j - 1);
      var a := acts[j - 1];
      assert run[j] == run[(j - 1) + 1] == Step(c, run[j - 1], a.t, a.ch);
      StepSpins(c, run[j - 1], t, m, a.t, a.ch);
    }
  }

  // ---- A run that gets there --------------------------------------------------------------------

  /** An installation is overtaken and moves `tail.block` back; then a push claims in the newest lap. */
  lemma MovedBack(c: Config, n: nat) returns (s: State, m: Msg)
    requires !Few(c, c.cap - 1, n)
    ensures Reachable(c, n, s) && Spins(s, 0, m) && LooksReady(s, 0)
  {
    hide Reachable, Step, Inv, Covered;
    var z, l, w;
    s, z, l := Early(c, c.cap - 1, n);
    var x := s.serves[c.cap + 1];
    s, w := InstallFresh(c, n, s, l, Msg(Pos(c.cap + 1, c.cap - 1), 0), x);
    s := Resume(c, n, s, z, Msg(Pos(c.cap, c.cap - 1), 0), s.serves[c.cap], x);
    assert s.pcs == AllIdle(n);
    MovedRoom(c);
    m := Msg(Pos(c.cap + 2, 0), 0);
    s := ClaimNext(c, n, s, 0, 0);
  }

  lemma MovedRoom(c: Config)
    requires c.capacity.Some? ==> c.capacity.value > 2 * c.cap
    ensures HasRoom(c, Pos(c.cap, c.cap - 1), Pos(c.cap + 2, 0))
  {
    assert Base(c.cap, c.cap + 2) == Base(c.cap, c.cap) + c.cap + c.cap;
  }

  // ---- When lookups end -------------------------------------------------------------------------

  /** In every run of `n` threads a lookup ends once it has taken so many steps since its lap was
      ready: four, and two for each lap installed beyond its own. */
  ghost predicate LookupsEnd(c: Config, n: nat) {
    forall run: seq<State>, acts: seq<Act>, t: Tid, i: nat, j: nat ::
      IsRun(c, run, acts) && |run[0].pcs| == n && i <= j <= |acts| && LooksReady(run[i], t)
        && Turns(acts, t, i, j) >= 2 * (|run[j].serves| - 1 - run[i].pcs[t].m.p.lap) + 4 ==>
        EndsBetween(run, t, i, j)
  }

  ghost predicate EndsBetween(run: seq<State>, t: Tid, i: nat, j: nat)
    requires i <= j < |run| && LooksReady(run[i], t)
  {
    exists k :: i < k <= j && FoundBy(run[k], t, run[i].pcs[t].m)
  }

  /** Some run of `n` threads ends with a lookup for a ready lap that is still going on at the end of
      every continuation. */
  ghost predicate SomeLookupSpins(c: Config, n: nat) {
    exists run: seq<State>, acts: seq<Act>, t: Tid ::
      IsRun(c, run, acts) && |run[0].pcs| == n && LooksReady(run[|acts|], t) && NeverFinds(c, run, acts, t)
  }

  ghost predicate NeverFinds(c: Config, run: seq<State>, acts: seq<Act>, t: Tid)
    requires |run| == |acts| + 1 && LooksReady(run[|acts|], t)
  {
    forall run': seq<State>, acts': seq<Act>, j: nat ::
      IsRun(c, run', acts') && run <= run' && acts <= acts' && |acts| <= j < |run'| ==>
        t < |run'[j].pcs| && run'[j].pcs[t].Finding? && run'[j].pcs[t].m == run[|acts|].pcs[t].m
  }

  /** In every state of every run of `n` threads in which nobody is between the two stores,
      `tail.block` is the newest block. */
  ghost predicate AlwaysSettled(c: Config, n: nat) {
    forall run: seq<State>, acts: seq<Act>, j: nat ::
      IsRun(c, run, acts) && |run[0].pcs| == n && j < |run| ==> Settled(run[j])
  }

  ghost predicate Settled(s: State) {
    (forall u :: 0 <= u < |s.pcs| ==> !Linking(s.pcs[u])) ==>
      |s.serves| > 0 && s.tailBlock == s.serves[|s.serves| - 1]
  }

  lemma LookupsEndIfFew(c: Config, n: nat)
    requires Few(c, c.cap - 1, n)
    ensures LookupsEnd(c, n)
  {
    hide Inv, Step, Few, LookupLeft, Ready;
    forall run: seq<State>, acts: seq<Act>, t: Tid, i: nat, j: nat |
      IsRun(c, run, acts) && |run[0].pcs| == n && i <= j <= |acts| && LooksReady(run[i], t)
        && Turns(acts, t, i, j) >= 2 * (|run[j].serves| - 1 - run[i].pcs[t].m.p.lap) + 4
      ensures EndsBetween(run, t, i, j)
    {
      var newest := LapsGrow(c, run, acts, t, i, j);
      RunInv(c, run, acts, i);
      LeftAtMost(c, run[i], t, newest);
      var k := LookupEnds(c, run, acts, t, i, j, newest);
    }
  }

  lemma LapsGrow(c: Config, run: seq<State>, acts: seq<Act>, t: Tid, i: nat, j: nat) returns (newest: nat)
    requires IsRun(c, run, acts) && i <= j < |run| && LooksReady(run[i], t)
    ensures |run[i].serves| <= |run[j].serves| == newest + 1
  {
    hide IsRun;
    QueueSafety.HistoryGrows(c, run, acts, i, j);
    newest := |run[j].serves| - 1;
  }

  /** A run goes on with `k` steps of thread `t` alone. */
  lemma {:induction false} Alone(c: Config, run: seq<State>, acts: seq<Act>, t: Tid, k: nat)
      returns (run': seq<State>, acts': seq<Act>)
    requires IsRun(c, run, acts) && t < |run[0].pcs|
    ensures IsRun(c, run', acts') && run <= run' && acts <= acts' && |acts'| == |acts| + k
    ensures Turns(acts', t, |acts|, |acts'|) == k && forall i :: |acts| <= i < |acts'| ==> acts'[i].t == t
    decreases k
  {
    hide Step;
    run', acts' := run, acts;
    if k > 0 {
      run', acts' := Alone(c, run, acts, t, k - 1);
      SameThreads(c, run', acts', |acts'|);
      TurnsMore(acts', Act(t, Go), t, |acts|);
      run', acts' := run' + [Step(c, run'[|acts'|], t, Go)], acts' + [Act(t, Go)];
    }
  }

  lemma {:induction false} TurnsMore(acts: seq<Act>, a: Act, t: Tid, i: nat)
    requires i <= |acts| && a.t == t
    ensures Turns(acts + [a], t, i, |acts| + 1) == Turns(acts, t, i, |acts|) + 1
    decreases |acts| - i
  {
    if i < |acts| { TurnsMore(acts, a, t, i + 1); }
  }

  /** While it looks, a thread alone installs nothing. */
  lemma {:induction false} LooksAlone(c: Config, run: seq<State>, acts: seq<Act>, t: Tid, i: nat, j: nat)
    requires IsRun(c, run, acts) && i <= j < |run|
    requires forall k :: i <= k < j ==> acts[k].t == t && run[k].pcs[t].Finding?
    ensures run[j].serves == run[i].serves
    decreases j
  {
    hide Inv, Step, StepOf;
    if i < j {
      LooksAlone(c, run, acts, t, i, j - 1);
      var a := acts[j - 1];
      assert run[j] == run[(j - 1) + 1] == Step(c, run[j - 1], a.t, a.ch);
      LookEffect(c, run[j - 1], t, a.ch);
    }
  }

  lemma LookEffect(c: Config, s: State, t: Tid, ch: Choice)
    requires t < |s.pcs| && s.pcs[t].Finding?
    ensures Step(c, s, t, ch).serves == s.serves
  {
    hide StepOf, StepFind;
    FindMoves(c, s, t, ch);
    FindStays(c, s, t, s.pcs[t].m, s.pcs[t].find);
  }

  /** Where every lookup ends, none can spin for ever: left alone it would end. */
  lemma EndingIsNotSpinning(c: Config, n: nat)
    requires LookupsEnd(c, n)
    ensures !SomeLookupSpins(c, n)
  {
    hide Step, Ready;
    forall run: seq<State>, acts: seq<Act>, t: Tid |
      IsRun(c, run, acts) && |run[0].pcs| == n && LooksReady(run[|acts|], t)
      ensures !NeverFinds(c, run, acts, t)
    {
      if NeverFinds(c, run, acts, t) {
        SameThreads(c, run, acts, |acts|);
        var s := run[|acts|];
        var newest := LapsGrow(c, run, acts, t, |acts|, |acts|);
        ReadyBefore(s, t, newest);
        var run', acts' := Alone(c, run, acts, t, 2 * (newest - s.pcs[t].m.p.lap) + 4);
        LooksAlone(c, run', acts', t, |acts|, |acts'|);
        assert false;
      }
    }
  }

  lemma ReadyBefore(s: State, t: Tid, newest: nat)
    requires LooksReady(s, t) && |s.serves| == newest + 1
    ensures s.pcs[t].m.p.lap <= newest
  {
  }

  lemma SpinsIfMany(c: Config, n: nat)
    requires !Few(c, c.cap - 1, n)
    ensures SomeLookupSpins(c, n) && !AlwaysSettled(c, n)
  {
    hide Step, Spins, Ready, Few, Settled;
    var s, m := MovedBack(c, n);
    var run: seq<State>, acts: seq<Act> :| IsRun(c, run, acts) && |run[0].pcs| == n && run[|acts|] == s;
    forall run': seq<State>, acts': seq<Act>, j: nat |
      IsRun(c, run', acts') && run <= run' && acts <= acts' && |acts| <= j < |run'|
      ensures Spins(run'[j], 0, m)
    {
      SpinsForever(c, run', acts', |acts|, j, 0, m);
    }
    SpinsLooks(m);
    assert NeverFinds(c, run, acts, 0);
    NotSettled(s, m);
    assert !Settled(run[|acts|]);
  }

  lemma SpinsLooks(m: Msg)
    ensures forall s: State, t: Tid :: Spins(s, t, m) ==> t < |s.pcs| && s.pcs[t].Finding? && s.pcs[t].m == m
  {
    hide Stuck;
  }

  lemma NotSettled(s: State, m: Msg)
    requires Spins(s, 0, m)
    ensures !Settled(s)
  {
    hide Linking;
    forall u | 0 <= u < |s.pcs| ensures !Linking(s.pcs[u]) {
      assert StuckPc(s.serves, s.pcs[u]);
    }
  }

  lemma SettledIfFew(c: Config, n: nat)
    requires Few(c, c.cap - 1, n)
    ensures AlwaysSettled(c, n)
  {
    hide Step, TailInv, Few, Settled;
    forall run: seq<State>, acts: seq<Act>, j: nat | IsRun(c, run, acts) && |run[0].pcs| == n && j < |run|
      ensures Settled(run[j])
    {
      var h := InvIfFew(c, c.cap - 1, run, acts, j);
      StateSettled(c, h, run[j]);
    }
  }

  lemma StateSettled(c: Config, g: nat, s: State)
    requires TailInv(c, g, s)
    ensures Settled(s)
  {
    hide TailOk, Linking;
    LastRange(c, g, s);
  }

  /** Whether lookups end.  With few threads or little room every lookup ends, within its bound,
      and `tail.block` never stays behind; with more there is a run that leaves it behind and a
      lookup that no continuation ends, with several consumers and with the exclusive one. */
  lemma LookupsEndExactly(c: Config, n: nat)
    ensures LookupsEnd(c, n) <==> n <= c.cap + 1 || (c.capacity.Some? && c.capacity.value <= 2 * c.cap)
    ensures LookupsEnd(c, n) <==> AlwaysSettled(c, n)
    ensures LookupsEnd(c, n) <==> !SomeLookupSpins(c, n)
  {
    hide LookupsEnd, AlwaysSettled, SomeLookupSpins;
    if Few(c, c.cap - 1, n) {
      LookupsEndIfFew(c, n);
      EndingIsNotSpinning(c, n);
      SettledIfFew(c, n);
    } else {
      SpinsIfMany(c, n);
      if LookupsEnd(c, n) { EndingIsNotSpinning(c, n); }
    }
  }
}
