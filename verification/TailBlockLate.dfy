/**
  When a claim can be found early: the runs that do it, and the exact condition.

  In stage `d` the installer of lap `d + 1` is between its two stores, and the first `d` slots of
  that lap were found early and are published.  So `cap + 2` threads reach two laps beyond
  `tail.block`: the installer, those with the rest of lap `d + 1`, and `d + 1` of lap `d + 2`, which
  all load `tail.block` while it is the block of lap `d`.  That block is emptied and installed again
  for lap `d + 2`, and when its installer is between its stores the `d + 1` find it: one slot more
  than in the stage before.
*/
module TailBlockLate {
  import opened Basics
  import opened Positions
  import opened QueueModel
  import opened QueueInvariant
  import opened QueueStepOk
  import opened TailBlock
  import opened TailBlockSteps
  import QueueOwnership

  // ---- The first stage --------------------------------------------------------------------------

  function AllIdle(n: nat): seq<Pc> {
    seq(n, _ => Idle)
  }

  function FirstState(n: nat): State {
    State(Pos(0, 0), Pos(0, 0), Pos(0, 0), 0, 0, map[0 := 0], map[], map[], {}, map[], map[], None, [], [], 1,
      AllIdle(n), 0, [0], 0, map[0 := Live(0)], map[], map[], None, [], [], map[])
  }

  lemma Starts(c: Config, n: nat)
    ensures Reachable(c, n, FirstState(n))
  {
    hide Step;
    var run, acts: seq<Act> := [FirstState(n)], [];
    assert Initial(c, run[0]);
    assert IsRun(c, run, acts);
    assert run[|acts|] == FirstState(n);
  }

  /** Everything pushed so far is taken; `i` values of the first block are gone. */
  predicate Drained(s: State, n: nat, i: nat) {
    Of(s) == Sketch(Pos(0, i), Pos(0, i), 0, [0], None, [], [], AllIdle(n))
  }

  /** Room for everything from the last slot of a lap to slot `g` two laps on. */
  predicate Roomy(c: Config, g: nat) {
    c.capacity.Some? ==> c.capacity.value >= c.cap + 2 + g
  }

  /** Thread 0 pushes and takes the first block's values, all but the last. */
  lemma {:induction false} Drain(c: Config, n: nat, i: nat) returns (s: State)
    requires Roomy(c, 0) && n > 0 && i < c.cap
    ensures Reachable(c, n, s) && Drained(s, n, i)
    decreases i
  {
    hide Reachable, Step, Inv;
    if i == 0 {
      Starts(c, n);
      s := FirstState(n);
    } else {
      s := Drain(c, n, i - 1);
      s := PushAndTake(c, n, s, i - 1);
    }
  }

  lemma PushAndTake(c: Config, n: nat, s: State, i: nat) returns (s': State)
    requires Reachable(c, n, s) && Roomy(c, 0) && n > 0 && i + 1 < c.cap && Drained(s, n, i)
    ensures Reachable(c, n, s') && Drained(s', n, i + 1)
  {
    hide Reachable, Step, Inv;
    var m := Msg(Pos(0, i), 0);
    s' := ClaimNext(c, n, s, 0, 0);
    StepFindFast(c, s', 0, m);
    s' := More(c, n, s', 0, Go);
    s' := FindNewest(c, n, s', 0, m);
    s' := PublishNow(c, n, s', 0, m, 0);
    assert s'.pcs == AllIdle(n);
    var b;
    s', b := TakeOne(c, n, s', 0);
  }

  /** Stage `d`: thread `a` has stored the start of the block `serves[d + 1]`, and all else is idle;
      what was pushed before its own value is taken. */
  predicate Lagged(c: Config, s: State, n: nat, d: nat, a: Tid, b: Id) {
    && a < n && |s.serves| == d + 2
    && s.pcs == AllIdle(n)[a := Installing(Msg(Pos(d, c.cap - 1), 0), b, LinkNext(s.serves[d + 1]))]
    && s.head == Pos(d, c.cap - 1) && s.tail.off <= c.cap && NextClaim(c, s.tail) == Pos(d + 1, d)
    && s.tailBlock == s.serves[d] && s.spare.None? && s.ready == [] && s.retired == []
  }

  lemma FirstStage(c: Config, n: nat) returns (s: State, b: Id)
    requires Roomy(c, 0) && n >= 2
    ensures Reachable(c, n, s) && Lagged(c, s, n, 0, 1, b)
  {
    hide Reachable, Step, Inv;
    var m := Msg(Pos(0, c.cap - 1), 0);
    s := FirstLast(c, n);
    b := 0;
    var x;
    s, x := TakeFresh(c, n, s, 1, m, b);
    s := StoreStart(c, n, s, 1, m, b, x);
  }

  /** Thread 1 has found the first block for its last slot. */
  lemma FirstLast(c: Config, n: nat) returns (s: State)
    requires Roomy(c, 0) && n >= 2
    ensures Reachable(c, n, s)
    ensures Of(s) == Sketch(Pos(0, c.cap), Pos(0, c.cap - 1), 0, [0], None, [], [],
                            AllIdle(n)[1 := Installing(Msg(Pos(0, c.cap - 1), 0), 0, TakeSpare)])
  {
    hide Reachable, Step, Inv;
    var m := Msg(Pos(0, c.cap - 1), 0);
    s := Drain(c, n, c.cap - 1);
    s := ClaimNext(c, n, s, 1, 0);
    StepFindFast(c, s, 1, m);
    s := More(c, n, s, 1, Go);
    s := FindNewest(c, n, s, 1, m);
  }

  // ---- Roles ------------------------------------------------------------------------------------

  /** The `i`-th thread, not counting thread `a`. */
  function Nth(a: Tid, i: nat): Tid {
    if i < a then i else i + 1
  }

  /** Which one thread `t` is. */
  function Role(a: Tid, t: Tid): int {
    if t < a then t else t - 1
  }

  lemma RoleOfNth(a: Tid, i: nat)
    ensures Nth(a, i) != a && Role(a, Nth(a, i)) == i && Nth(a, i) <= i + 1
    ensures forall t: Tid :: t != a && Role(a, t) == i ==> t == Nth(a, i)
  {
  }

  /** The position the `i`-th of them claims: the rest of lap `d + 1`, then lap `d + 2`. */
  function HuntPos(c: Config, d: nat, i: nat): Pos {
    if d + i < c.cap then Pos(d + 1, d + i) else Pos(d + 2, d + i - c.cap)
  }

  /** Those of lap `d + 2` have loaded `tail.block`. */
  function Hunter(c: Config, d: nat, x: Id, i: nat): Pc {
    Finding(Msg(HuntPos(c, d, i), 0), if d + i < c.cap then FindFast else CheckFast(x))
  }

  /** The roles from `f` up to `j` are taken; everybody else is idle. */
  function Hunt(c: Config, n: nat, d: nat, a: Tid, x: Id, f: nat, j: nat): (pcs: seq<Pc>)
    ensures |pcs| == n
  {
    seq(n, t requires 0 <= t < n =>
      if t != a && f <= Role(a, t) < j then Hunter(c, d, x, Role(a, t)) else Idle)
  }

  lemma HuntGrows(c: Config, n: nat, d: nat, a: Tid, x: Id, f: nat, j: nat)
    requires f <= j && Nth(a, j) < n
    ensures Hunt(c, n, d, a, x, f, j)[Nth(a, j) := Hunter(c, d, x, j)] == Hunt(c, n, d, a, x, f, j + 1)
    ensures Hunt(c, n, d, a, x, f, j)[Nth(a, j)] == Idle
  {
    hide HuntPos, Nth;
    RoleOfNth(a, j);
  }

  lemma HuntShrinks(c: Config, n: nat, d: nat, a: Tid, x: Id, f: nat, j: nat)
    requires f < j && Nth(a, f) < n
    ensures Hunt(c, n, d, a, x, f, j)[Nth(a, f) := Idle] == Hunt(c, n, d, a, x, f + 1, j)
    ensures Hunt(c, n, d, a, x, f, j)[Nth(a, f)] == Hunter(c, d, x, f)
  {
    hide HuntPos, Nth;
    RoleOfNth(a, f);
  }

  /** With nobody left to take a role all are idle. */
  lemma HuntOver(c: Config, n: nat, d: nat, a: Tid, x: Id, j: nat)
    ensures Hunt(c, n, d, a, x, j, j) == AllIdle(n)
  {
    hide HuntPos;
  }

  /** The roles of a stage: thread `a` installs, and receives when it is done; the others are numbered. */
  predicate RolesOk(c: Config, n: nat, d: nat, a: Tid) {
    d < c.cap && a < n && c.cap + 1 < n
  }

  /** The producer of the last slot of lap `d + 1`. */
  function NextInstaller(c: Config, d: nat, a: Tid): Tid
    requires d < c.cap
  {
    Nth(a, c.cap - d - 1)
  }

  // ---- A stage ----------------------------------------------------------------------------------

  /** The tail once `j` of them have claimed. */
  predicate TailAfter(c: Config, tail: Pos, d: nat, j: nat) {
    && tail.off <= c.cap
    && if j == 0 then NextClaim(c, tail) == Pos(d + 1, d) else tail == Next(c.cap, HuntPos(c, d, j - 1))
  }

  lemma NextHuntPos(c: Config, tail: Pos, d: nat, j: nat)
    requires d < c.cap && j <= c.cap && TailAfter(c, tail, d, j)
    ensures NextClaim(c, tail) == HuntPos(c, d, j)
    ensures TailAfter(c, Next(c.cap, HuntPos(c, d, j)), d, j + 1)
  {
  }

  lemma HuntRoom(c: Config, d: nat, j: nat)
    requires d < c.cap && j <= c.cap && Roomy(c, d)
    ensures HasRoom(c, Pos(d, c.cap - 1), HuntPos(c, d, j))
  {
    assert Base(c.cap, d + 1) == Base(c.cap, d) + c.cap;
    assert Base(c.cap, d + 2) == Base(c.cap, d + 1) + c.cap;
  }

  /** They claim one after another. */
  lemma {:induction false} HuntersClaim(c: Config, n: nat, s: State, d: nat, a: Tid, b: Id, j: nat)
      returns (s': State)
    requires Reachable(c, n, s) && Lagged(c, s, n, d, a, b) && RolesOk(c, n, d, a) && Roomy(c, d) && j <= c.cap + 1
    ensures Reachable(c, n, s') && TailAfter(c, s'.tail, d, j)
    ensures Of(s') == Of(s).(tail := s'.tail, pcs := Hunt(c, n, d, a, s.tailBlock, 0, j)[a := s.pcs[a]])
    decreases j
  {
    hide Reachable, Step, Inv, RolesOk, Hunt, HuntPos, TailAfter, Role;
    if j == 0 {
      s' := s;
      HuntOver(c, n, d, a, s.tailBlock, 0);
      StageTail(c, s, n, d, a, b);
    } else {
      s' := HuntersClaim(c, n, s, d, a, b, j - 1);
      s' := HunterClaims(c, n, s, s', d, a, b, j - 1);
    }
  }

  lemma StageTail(c: Config, s: State, n: nat, d: nat, a: Tid, b: Id)
    requires Lagged(c, s, n, d, a, b)
    ensures TailAfter(c, s.tail, d, 0)
  {
  }

  lemma HunterClaims(c: Config, n: nat, s: State, s1: State, d: nat, a: Tid, b: Id, j: nat) returns (s': State)
    requires Reachable(c, n, s1) && Lagged(c, s, n, d, a, b) && RolesOk(c, n, d, a) && Roomy(c, d) && j <= c.cap
    requires Of(s1) == Of(s).(tail := s1.tail, pcs := Hunt(c, n, d, a, s.tailBlock, 0, j)[a := s.pcs[a]])
    requires TailAfter(c, s1.tail, d, j)
    ensures Reachable(c, n, s') && TailAfter(c, s'.tail, d, j + 1)
    ensures Of(s') == Of(s).(tail := s'.tail, pcs := Hunt(c, n, d, a, s.tailBlock, 0, j + 1)[a := s.pcs[a]])
  {
    hide Reachable, Step, Inv, Hunt, HuntPos, HasRoom, Role, Next, NextClaim;
    var t, m, x := Nth(a, j), Msg(HuntPos(c, d, j), 0), s.tailBlock;
    RoleOfNth(a, j);
    HuntGrows(c, n, d, a, x, 0, j);
    NextHuntPos(c, s1.tail, d, j);
    HuntRoom(c, d, j);
    s' := ClaimNext(c, n, s1, t, 0);
    if d + j >= c.cap {
      StepFindFast(c, s', t, m);
      s' := More(c, n, s', t, Go);
    }
    assert Hunt(c, n, d, a, x, 0, j)[a := s.pcs[a]][t := Hunter(c, d, x, j)]
        == Hunt(c, n, d, a, x, 0, j)[t := Hunter(c, d, x, j)][a := s.pcs[a]];
  }

  /** Those of lap `d + 1`, all but its last slot's, find the block and publish. */
  lemma {:induction false} FillersPublish(c: Config, n: nat, s: State, d: nat, a: Tid, x: Id, f: nat)
      returns (s': State)
    requires Reachable(c, n, s) && RolesOk(c, n, d, a) && |s.serves| == d + 2 && s.tailBlock == s.serves[d + 1]
    requires f + d + 1 <= c.cap && s.pcs == Hunt(c, n, d, a, x, 0, c.cap + 1)
    ensures Reachable(c, n, s') && Of(s') == Of(s).(pcs := Hunt(c, n, d, a, x, f, c.cap + 1))
    decreases f
  {
    hide Reachable, Step, Inv, Hunt, HuntPos;
    if f == 0 {
      s' := s;
    } else {
      s' := FillersPublish(c, n, s, d, a, x, f - 1);
      var t, m := Nth(a, f - 1), Msg(Pos(d + 1, d + f - 1), 0);
      HuntShrinks(c, n, d, a, x, f - 1, c.cap + 1);
      HunterOfLap(c, d, x, f - 1);
      StepFindFast(c, s', t, m);
      s' := More(c, n, s', t, Go);
      s' := FindNewest(c, n, s', t, m);
      s' := PublishNow(c, n, s', t, m, s.tailBlock);
    }
  }

  lemma HunterOfLap(c: Config, d: nat, x: Id, i: nat)
    ensures d + i < c.cap ==> Hunter(c, d, x, i) == Finding(Msg(Pos(d + 1, d + i), 0), FindFast)
    ensures d + i >= c.cap ==> Hunter(c, d, x, i) == Finding(Msg(Pos(d + 2, d + i - c.cap), 0), CheckFast(x))
  {
  }

  /** The installer of lap `d + 2` finds its block, takes the spare one, and stops between its
      stores. */
  lemma Reinstall(c: Config, n: nat, s: State, t: Tid, m: Msg, x: Id) returns (s': State)
    requires Reachable(c, n, s) && |s.pcs| == n && t < n && |s.serves| == m.p.lap + 1 && m.p.off + 1 == c.cap
    requires s.tailBlock == s.serves[m.p.lap] && s.spare == Some(x) && s.pcs[t] == Finding(m, FindFast)
    ensures Reachable(c, n, s')
    ensures Of(s') == To(Of(s), t, Installing(m, s.tailBlock, LinkNext(x))).(spare := None, serves := s.serves + [x])
  {
    hide Reachable, Step, Inv;
    StepFindFast(c, s, t, m);
    s' := More(c, n, s, t, Go);
    s' := FindNewest(c, n, s', t, m);
    StepTakeSpare(c, s', t, m, s.tailBlock);
    s' := More(c, n, s', t, Go);
    s' := StoreStart(c, n, s', t, m, s.tailBlock, x);
  }

  /** Values of a block, all but its last, are taken one after another. */
  lemma {:induction false} TakeMany(c: Config, n: nat, s: State, r: Tid, e: nat) returns (s': State)
    requires Reachable(c, n, s) && r < n && |s.pcs| == n && s.pcs[r] == Idle && NobodyReceives(s.pcs)
    requires s.head.off == 0 && e < c.cap && s.spare.None? && Before(Pos(s.head.lap, e), s.tail)
    requires NobodyReads(c, s.pcs) && forall i :: 0 <= i < e ==> NobodyOwns(s.pcs, Pos(s.head.lap, i))
    ensures Reachable(c, n, s') && Of(s') == Of(s).(head := Pos(s.head.lap, e))
    decreases e
  {
    hide Reachable, Step, Inv, NobodyOwns, NobodyReads, NobodyReceives;
    if e == 0 {
      s' := s;
    } else {
      s' := TakeMany(c, n, s, r, e - 1);
      var b;
      s', b := TakeOne(c, n, s', r);
    }
  }

  /** Who owns what while they push; the thread that receives is not among them. */
  lemma HuntOwns(c: Config, n: nat, d: nat, a: Tid, x: Id, f: nat, j: nat, p: Pos)
    requires f <= j && forall i :: f <= i < j ==> HuntPos(c, d, i) != p
    ensures var pcs := Hunt(c, n, d, a, x, f, j); NobodyOwns(pcs, p) && NobodyReads(c, pcs) && NobodyReceives(pcs)
  {
    hide HuntPos, Role;
  }

  lemma InstallerIdle(c: Config, n: nat, d: nat, a: Tid, x: Id, f: nat, j: nat)
    requires a < n
    ensures Hunt(c, n, d, a, x, f, j)[a] == Idle
  {
    hide HuntPos, Role;
  }

  /** Up to where the block of lap `d` is empty and spare. */
  lemma BlockBack(c: Config, n: nat, s: State, d: nat, a: Tid, b: Id) returns (s': State)
    requires Reachable(c, n, s) && Lagged(c, s, n, d, a, b) && RolesOk(c, n, d, a) && Roomy(c, d)
    ensures Reachable(c, n, s') && TailAfter(c, s'.tail, d, c.cap + 1)
    ensures Of(s') == Of(s).(tail := s'.tail, head := Pos(d + 1, 0), tailBlock := s.serves[d + 1],
                             spare := Some(s.tailBlock),
                             pcs := Hunt(c, n, d, a, s.tailBlock, c.cap - d - 1, c.cap + 1))
  {
    hide Reachable, Step, Inv, Hunt, HuntPos, TailAfter, Role, NobodyOwns, NobodyReads, NobodyReceives, NextClaim;
    var x := s.tailBlock;
    s' := HuntersClaim(c, n, s, d, a, b, c.cap + 1);
    s' := Resume(c, n, s', a, Msg(Pos(d, c.cap - 1), 0), b, s.serves[d + 1]);
    InstallerOut(c, n, d, a, x, s.pcs[a]);
    s' := FillersPublish(c, n, s', d, a, x, c.cap - d - 1);
    InstallerIdle(c, n, d, a, x, c.cap - d - 1, c.cap + 1);
    NotHunted(c, n, d, a, x, s.head);
    TailPast(c, s'.tail, d);
    var b';
    s', b' := TakeOne(c, n, s', a);
  }

  lemma InstallerOut(c: Config, n: nat, d: nat, a: Tid, x: Id, own: Pc)
    requires a < n
    ensures var pcs := Hunt(c, n, d, a, x, 0, c.cap + 1); pcs[a := own][a := Idle] == pcs
  {
    hide HuntPos, Role;
  }

  /** From the second block's last slot on everything is claimed and not published; before it nothing
      is pending. */
  lemma NotHunted(c: Config, n: nat, d: nat, a: Tid, x: Id, p: Pos)
    requires d < c.cap && Before(p, Pos(d + 1, c.cap - 1))
    ensures var pcs := Hunt(c, n, d, a, x, c.cap - d - 1, c.cap + 1);
      NobodyOwns(pcs, p) && NobodyReads(c, pcs) && NobodyReceives(pcs)
  {
    HuntOwns(c, n, d, a, x, c.cap - d - 1, c.cap + 1, p);
  }

  lemma TailPast(c: Config, tail: Pos, d: nat)
    requires d < c.cap && TailAfter(c, tail, d, c.cap + 1)
    ensures tail == Pos(d + 2, d + 1)
  {
  }

  /** The installer of lap `d + 2` stops between its stores, with that block; everything before its own
      value is taken. */
  lemma BlockAgain(c: Config, n: nat, s: State, d: nat, a: Tid, b: Id) returns (s': State)
    requires Reachable(c, n, s) && Lagged(c, s, n, d, a, b) && RolesOk(c, n, d, a) && Roomy(c, d)
    ensures Reachable(c, n, s')
    ensures var x, y, z := s.tailBlock, s.serves[d + 1], NextInstaller(c, d, a);
      z < n && Of(s') == Sketch(Pos(d + 2, d + 1), Pos(d + 1, c.cap - 1), y, s.serves + [x], None, [], [],
                                Hunt(c, n, d, a, x, c.cap - d, c.cap + 1)
                                  [z := Installing(Msg(Pos(d + 1, c.cap - 1), 0), y, LinkNext(x))])
  {
    hide Reachable, Step, Inv, Hunt, HuntPos, TailAfter, Role, NobodyOwns, NobodyReads, NobodyReceives, NextClaim,
      Nth;
    var x, y, z, f := s.tailBlock, s.serves[d + 1], NextInstaller(c, d, a), c.cap - d - 1;
    s' := BlockBack(c, n, s, d, a, b);
    TailPast(c, s'.tail, d);
    RoleOfNth(a, f);
    HunterOfLap(c, d, x, f);
    HuntShrinks(c, n, d, a, x, f, c.cap + 1);
    s' := Reinstall(c, n, s', z, Msg(Pos(d + 1, c.cap - 1), 0), x);
    assert s'.pcs == Hunt(c, n, d, a, x, f + 1, c.cap + 1)[z := s'.pcs[z]];
    InstallerIdle(c, n, d, a, x, f + 1, c.cap + 1);
    OthersOwn(c, n, s'.pcs, d, a, x, z);
    s' := TakeMany(c, n, s', a, c.cap - 1);
  }

  lemma OthersOwn(c: Config, n: nat, pcs: seq<Pc>, d: nat, a: Tid, x: Id, z: Tid)
    requires d < c.cap && z < n == |pcs| && pcs[z].Installing? && pcs[z].m.p == Pos(d + 1, c.cap - 1)
    requires pcs == Hunt(c, n, d, a, x, c.cap - d, c.cap + 1)[z := pcs[z]]
    ensures NobodyReads(c, pcs) && NobodyReceives(pcs)
    ensures forall p :: Before(p, Pos(d + 1, c.cap - 1)) ==> NobodyOwns(pcs, p)
  {
    hide Hunt;
    var hunt, end := Hunt(c, n, d, a, x, c.cap - d, c.cap + 1), Pos(d + 1, c.cap - 1);
    forall p | Before(p, end) ensures NobodyOwns(hunt, p) {
      HuntOwns(c, n, d, a, x, c.cap - d, c.cap + 1, p);
    }
    HuntOwns(c, n, d, a, x, c.cap - d, c.cap + 1, Pos(0, 0));
  }

  /** The first `e` of lap `d + 2` find the block they have in hand, and publish. */
  lemma {:induction false} EarlyPublish(c: Config, n: nat, s: State, d: nat, a: Tid, x: Id, z: Tid, e: nat)
      returns (s': State)
    requires Reachable(c, n, s) && RolesOk(c, n, d, a) && |s.serves| == d + 3 && s.serves[d + 2] == x
    requires z == NextInstaller(c, d, a) && z < n == |s.pcs| && e < c.cap && e <= d + 1
    requires s.pcs == Hunt(c, n, d, a, x, c.cap - d, c.cap + 1)[z := s.pcs[z]]
    ensures Reachable(c, n, s')
    ensures Of(s') == Of(s).(pcs := Hunt(c, n, d, a, x, c.cap - d + e, c.cap + 1)[z := s.pcs[z]])
    decreases e
  {
    hide Reachable, Step, Inv, Hunt, HuntPos;
    if e == 0 {
      s' := s;
    } else {
      s' := EarlyPublish(c, n, s, d, a, x, z, e - 1);
      var f := c.cap - d + e - 1;
      var t, m := Nth(a, f), Msg(Pos(d + 2, e - 1), 0);
      RoleOfNth(a, f);
      HuntShrinks(c, n, d, a, x, f, c.cap + 1);
      HunterOfLap(c, d, x, f);
      s' := FindNewest(c, n, s', t, m);
      s' := PublishNow(c, n, s', t, m, x);
    }
  }

  /** Lap `d + 2` has its block, `tail.block` is still that of lap `d + 1`, and slot `d` of lap `d + 2`
      has been found, by thread `l`; thread `z` is between its stores. */
  predicate FoundEarly(c: Config, s: State, n: nat, d: nat, z: Tid, l: Tid) {
    && z < n && l < n && z != l && |s.serves| == d + 3
    && s.pcs == AllIdle(n)[z := Installing(Msg(Pos(d + 1, c.cap - 1), 0), s.serves[d + 1], LinkNext(s.serves[d + 2]))]
                          [l := Found(c, Msg(Pos(d + 2, d), 0), s.serves[d + 2])]
    && s.head == Pos(d + 1, c.cap - 1) && s.tail == Pos(d + 2, d + 1)
    && s.tailBlock == s.serves[d + 1] && s.spare.None? && s.ready == [] && s.retired == []
  }

  /** One stage. */
  lemma Stage(c: Config, n: nat, s: State, d: nat, a: Tid, b: Id) returns (s': State, z: Tid, l: Tid)
    requires Reachable(c, n, s) && Lagged(c, s, n, d, a, b) && RolesOk(c, n, d, a) && Roomy(c, d)
    ensures Reachable(c, n, s') && FoundEarly(c, s', n, d, z, l)
  {
    hide Reachable, Step, Inv, Hunt, HuntPos, NextClaim, Nth, Role, Found;
    var x, y := s.tailBlock, s.serves[d + 1];
    z, l := NextInstaller(c, d, a), Nth(a, c.cap);
    var m := Msg(Pos(d + 2, d), 0);
    s' := BlockAgain(c, n, s, d, a, b);
    RoleOfNth(a, c.cap);
    RoleOfNth(a, c.cap - d - 1);
    s' := EarlyPublish(c, n, s', d, a, x, z, d);
    HuntShrinks(c, n, d, a, x, c.cap, c.cap + 1);
    HuntOver(c, n, d, a, x, c.cap + 1);
    HunterOfLap(c, d, x, c.cap);
    s' := FindNewest(c, n, s', l, m);
    assert s'.pcs == AllIdle(n)[z := s'.pcs[z]][l := Found(c, m, x)];
  }

  /** What was found early is published: the next stage. */
  lemma NextStage(c: Config, n: nat, s: State, d: nat, z: Tid, l: Tid) returns (s': State, b: Id)
    requires Reachable(c, n, s) && FoundEarly(c, s, n, d, z, l) && d + 1 < c.cap
    ensures Reachable(c, n, s') && Lagged(c, s', n, d + 1, z, b)
  {
    hide Reachable, Step, Inv;
    b := s.serves[d + 1];
    s' := PublishNow(c, n, s, l, Msg(Pos(d + 2, d), 0), s.serves[d + 2]);
    assert s'.pcs == AllIdle(n)[z := s.pcs[z]];
  }

  lemma {:induction false} Stages(c: Config, g: nat, n: nat, d: nat) returns (s: State, a: Tid, b: Id)
    requires g < c.cap && !Few(c, g, n) && d <= g
    ensures Reachable(c, n, s) && Lagged(c, s, n, d, a, b)
    decreases d
  {
    hide Reachable, FoundEarly, Lagged;
    if d == 0 {
      a := 1;
      s, b := FirstStage(c, n);
    } else {
      s, a, b := Stages(c, g, n, d - 1);
      StageThreads(c, s, n, d - 1, a, b);
      var z, l;
      s, z, l := Stage(c, n, s, d - 1, a, b);
      s, b := NextStage(c, n, s, d - 1, z, l);
      a := z;
    }
  }

  lemma StageThreads(c: Config, s: State, n: nat, d: nat, a: Tid, b: Id)
    requires Lagged(c, s, n, d, a, b)
    ensures a < n
  {
  }

  /** A claim at offset `g` is found early, for every block capacity and every number of threads that
      is not too few. */
  lemma Early(c: Config, g: nat, n: nat) returns (s: State, z: Tid, l: Tid)
    requires g < c.cap && !Few(c, g, n)
    ensures Reachable(c, n, s) && FoundEarly(c, s, n, g, z, l) && !Covered(c, g, s)
  {
    hide Reachable, FoundEarly, Lagged, Covered;
    var a, b;
    s, a, b := Stages(c, g, n, g);
    StageThreads(c, s, n, g, a, b);
    s, z, l := Stage(c, n, s, g, a, b);
    Uncovered(c, n, s, g, z, l);
  }

  lemma Uncovered(c: Config, n: nat, s: State, g: nat, z: Tid, l: Tid)
    requires Reachable(c, n, s) && g < c.cap && FoundEarly(c, s, n, g, z, l)
    ensures !Covered(c, g, s)
  {
    hide Reachable, Inv, NothingEarly, Found;
    ReachableInv(c, n, s);
    var p := Pos(g + 2, g);
    FinderOwns(c, s, l, Msg(p, 0), s.serves[g + 2]);
    InstallerKnows(c, s, z, s.pcs[z].m, s.pcs[z].b, s.pcs[z].install);
    WriterPos(c, s, Pos(g + 1, c.cap - 1));
    QueueOwnership.StateChain(c, s);
    forall k | 0 <= k < |s.serves| && s.serves[k] == s.tailBlock && |s.serves| <= k + 2
      ensures !NothingEarly(c, g, s, k)
    {
      assert k == g + 1;
      NotLooking(c, g, s, k, p);
    }
  }

  lemma NotLooking(c: Config, g: nat, s: State, k: nat, p: Pos)
    requires g <= p.off < c.cap && Before(p, s.tail) && p.lap > k && !Looking(s.writer, s.pcs, p)
    ensures !NothingEarly(c, g, s, k)
  {
  }

  lemma FinderOwns(c: Config, s: State, t: Tid, m: Msg, b: Id)
    requires Inv(c, s) && t < |s.pcs| && s.pcs[t] == Found(c, m, b)
    ensures m.p in s.writer && s.writer[m.p] == t && !s.pcs[t].Finding?
  {
    hide SharedOk;
    Knows(c, s, t);
  }

  // ---- When it can happen -----------------------------------------------------------------------

  /** Nothing is found early from offset `g` on, in any state of any run of `n` threads. */
  ghost predicate AlwaysCovered(c: Config, g: nat, n: nat) {
    forall run: seq<State>, acts: seq<Act>, j: nat ::
      IsRun(c, run, acts) && |run[0].pcs| == n && j < |run| ==> Covered(c, g, run[j])
  }

  /** A claim at offset `g` or beyond can be found early if and only if enough pushes can be in
      flight: by the number of threads, and by the capacity. */
  lemma EarlyExactly(c: Config, g: nat, n: nat)
    requires g < c.cap
    ensures AlwaysCovered(c, g, n) <==> Few(c, g, n)
  {
    hide Step, Covered, Few, FoundEarly;
    if Few(c, g, n) {
      forall run: seq<State>, acts: seq<Act>, j: nat | IsRun(c, run, acts) && |run[0].pcs| == n && j < |run|
        ensures Covered(c, g, run[j])
      {
        CurrentIfFew(c, g, run, acts, j);
      }
    } else {
      var s, z, l := Early(c, g, n);
      var run: seq<State>, acts: seq<Act> :| IsRun(c, run, acts) && |run[0].pcs| == n && run[|acts|] == s;
      assert !Covered(c, g, run[|acts|]);
    }
  }

  /** Nothing at all is found early in any run of `n` threads, and `tail.block` is current throughout,
      if and only if no more than a lap's worth of pushes can be in flight. */
  lemma CurrentExactly(c: Config, n: nat)
    ensures AlwaysCovered(c, 0, n) <==> n <= c.cap + 1 || (c.capacity.Some? && c.capacity.value <= c.cap + 1)
  {
    hide AlwaysCovered;
    EarlyExactly(c, 0, n);
  }
}
