/**
  Interference: what a step of one thread leaves intact for every other thread.
*/
module QueueRely {
  import opened Basics
  import opened Positions
  import opened QueueModel
  import opened QueueInvariant

  function OwnerOf(pl: Place): Option<Tid> {
    match pl
    case Finishing(u, _) => Some(u)
    case Wiping(u) => Some(u)
    case Held(u) => Some(u)
    case _ => None
  }

  predicate Others(place: map<Id, Place>, b: Id, t: Tid) {
    b in place && OwnerOf(place[b]).Some? && OwnerOf(place[b]).value != t
  }

  /** Indices only grow, and laps are installed by the owner of the previous lap's last slot. */
  ghost predicate GrowsBy(c: Config, s: State, s': State, t: Tid) {
    && AtMost(s.head, s'.head) && AtMost(s.tail, s'.tail) && s'.head.off <= c.cap
    && s.serves <= s'.serves && s.log <= s'.log && s.order <= s'.order
    && (|s'.serves| > |s.serves| > 0 ==>
          && |s'.serves| == |s.serves| + 1
          && Pos(|s.serves| - 1, c.cap - 1) in s.writer && s.writer[Pos(|s.serves| - 1, c.cap - 1)] == t)
    && (forall p :: p in s.got ==> p in s'.got)
    && (forall p: Pos :: Published(c, s.tail, s.writer, p) ==> Published(c, s'.tail, s'.writer, p))
  }

  /** The claims, reads and blocks of other threads are untouched. */
  ghost predicate KeepsOthers(c: Config, s: State, s': State, t: Tid) {
    && (forall p :: p in s.writer && s.writer[p] != t ==> p in s'.writer && s'.writer[p] == s.writer[p])
    && (forall p :: p in s.reader && s.reader[p] != t ==> p in s'.reader && s'.reader[p] == s.reader[p])
    && (forall b :: Others(s.place, b, t) ==> b in s'.place && s'.place[b] == s.place[b])
    && (forall b :: Others(s.place, b, t) ==> (b in s'.nextOf <==> b in s.nextOf))
    && (forall b :: Others(s.place, b, t) && b in s.prevOf ==> b in s'.prevOf && s'.prevOf[b] == s.prevOf[b])
    && (forall b, i :: Others(s.place, b, t) && s.place[b].Finishing? && Slot(b, i) in s.marked ==>
          Slot(b, i) in s'.marked)
    && (forall b, i :: Others(s.place, b, t) && s.place[b].Wiping? && Slot(b, i) !in s.marked ==>
          Slot(b, i) !in s'.marked)
  }

  /** What another producer has written or linked stays. */
  ghost predicate KeepsWrites(c: Config, s: State, s': State, t: Tid) {
    && (forall p :: p in s.writer && s.writer[p] != t && p.lap < |s.serves| ==>
          var x := Slot(s.serves[p.lap], p.off);
          x in s.value ==> x in s'.value && s'.value[x] == s.value[x])
    && (forall p :: p in s.writer && s.writer[p] != t && p.off + 1 == c.cap && p.lap < |s.serves| ==>
          var b := s.serves[p.lap];
          b in s.nextOf ==> b in s'.nextOf && s'.nextOf[b] == s.nextOf[b])
  }

  /** A transition of the head, and the head of an exclusive queue, belong to one thread; the exclusive
      receiver does not change hands during a receive. */
  ghost predicate KeepsHead(c: Config, s: State, s': State, t: Tid) {
    && ((s.moving.Some? && s.moving.value != t) || (c.exclusive && t != s.holder) ==>
          s'.moving == s.moving && s'.head == s.head && s'.headLap == s.headLap)
    && (InReceive(s.holder, s.pcs) ==> s'.holder == s.holder)
  }

  ghost predicate Rely(c: Config, s: State, s': State, t: Tid) {
    GrowsBy(c, s, s', t) && KeepsOthers(c, s, s', t) && KeepsWrites(c, s, s', t) && KeepsHead(c, s, s', t)
  }

  lemma ClaimStable(c: Config, s: State, s': State, t: Tid, u: Tid, m: Msg)
    requires GrowsBy(c, s, s', t) && KeepsOthers(c, s, s', t) && u != t && |s.serves| > 0
    requires ClaimOk(c, s, u, m)
    ensures ClaimOk(c, s', u, m)
    ensures Uninstalled(c, s, m) ==> Uninstalled(c, s', m)
  {
  }

  lemma RankHeadStable(c: Config, s: State, s': State, t: Tid)
    requires GrowsBy(c, s, s', t) && s.head.off <= c.cap
    ensures Rank(c.cap, s.head) <= Rank(c.cap, s'.head)
  {
    RankMonotone(c.cap, s.head, s'.head);
  }

  lemma FindingStable(c: Config, s: State, s': State, t: Tid, m: Msg, pc: FindPc)
    requires GrowsBy(c, s, s', t) && FindingOk(c, s, m, pc)
    ensures FindingOk(c, s', m, pc)
  {
    hide Published;
  }

  lemma InstallingStable(c: Config, s: State, s': State, t: Tid, u: Tid, m: Msg, b: Id, pc: InstallPc)
    requires Rely(c, s, s', t) && u != t && ClaimOk(c, s, u, m) && InstallingOk(c, s, u, m, b, pc)
    requires Uninstalled(c, s, m) ==> Uninstalled(c, s', m)
    ensures InstallingOk(c, s', u, m, b, pc)
  {
    hide Published, KeepsHead;
  }

  lemma WritingStable(c: Config, s: State, s': State, t: Tid, u: Tid, m: Msg, b: Id, pc: WritePc)
    requires Rely(c, s, s', t) && u != t && ClaimOk(c, s, u, m) && WritingOk(c, s, m, b, pc)
    ensures WritingOk(c, s', m, b, pc)
  {
    hide Published, KeepsHead;
  }

  lemma ClaimedThreadStable(c: Config, s: State, s': State, t: Tid, u: Tid, pc: Pc)
    requires Rely(c, s, s', t) && u != t && |s.serves| > 0
    requires ThreadOk(c, s, u, pc) && ClaimOf(pc).Some?
    requires ClaimOk(c, s', u, ClaimOf(pc).value)
    requires Uninstalled(c, s, ClaimOf(pc).value) ==> Uninstalled(c, s', ClaimOf(pc).value)
    ensures ThreadOk(c, s', u, pc)
  {
    hide GrowsBy, KeepsOthers, KeepsWrites, KeepsHead, FindingOk, InstallingOk, WritingOk, Uninstalled, ClaimOk;
    match pc
    case Finding(m, at) => FindingStable(c, s, s', t, m, at);
    case Installing(m, b, at) => InstallingStable(c, s, s', t, u, m, b, at);
    case Writing(m, b, at) => WritingStable(c, s, s', t, u, m, b, at);
  }

  lemma SoloStable(c: Config, s: State, s': State, t: Tid, u: Tid, pc: SoloPc)
    requires Rely(c, s, s', t) && u != t && BatchingOk(c, s, u, pc) && InReceive(u, s.pcs)
    ensures BatchingOk(c, s', u, pc)
  {
  }

  lemma TakingStable(c: Config, s: State, s': State, t: Tid, pc: TakePc)
    requires Rely(c, s, s', t) && TakingOk(c, s, pc)
    ensures TakingOk(c, s', pc)
  {
  }

  lemma LeavingStable(c: Config, s: State, s': State, t: Tid, u: Tid, pc: LeavePc)
    requires Rely(c, s, s', t) && u != t && LeavingOk(c, s, u, pc) && InReceive(u, s.pcs)
    ensures LeavingOk(c, s', u, pc)
  {
  }

  lemma ClaimingStable(c: Config, s: State, s': State, t: Tid, pc: ClaimPc)
    requires Rely(c, s, s', t) && s.head.off <= c.cap && ClaimingOk(c, s, pc)
    ensures ClaimingOk(c, s', pc)
  {
    RankHeadStable(c, s, s', t);
  }

  lemma ReadingStable(c: Config, s: State, s': State, t: Tid, u: Tid, p: Pos, b: Id, pc: ReadPc)
    requires Rely(c, s, s', t) && u != t && ReadingOk(c, s, u, p, b, pc)
    ensures ReadingOk(c, s', u, p, b, pc)
  {
    hide Published, KeepsWrites;
  }

  lemma MovingStable(c: Config, s: State, s': State, t: Tid, u: Tid, p: Pos, b: Id, pc: MovePc)
    requires Rely(c, s, s', t) && u != t && MovingThreadOk(c, s, u, p, b, pc)
    ensures MovingThreadOk(c, s', u, p, b, pc)
  {
    hide Published, KeepsWrites;
  }

  /** What a thread knows survives the steps of the others. */
  lemma ThreadStable(c: Config, s: State, s': State, t: Tid, u: Tid, pc: Pc)
    requires Rely(c, s, s', t) && u != t && s.head.off <= c.cap && |s.serves| > 0
    requires u < |s.pcs| && s.pcs[u] == pc && ThreadOk(c, s, u, pc)
    ensures ThreadOk(c, s', u, pc)
  {
    hide GrowsBy, KeepsOthers, KeepsWrites, KeepsHead, ClaimOk, FindingOk, InstallingOk, WritingOk, ClaimingOk,
      TakingOk, ReadingOk, MovingThreadOk, LeavingOk, BatchingOk, Uninstalled;
    if ClaimOf(pc).Some? {
      ClaimStable(c, s, s', t, u, ClaimOf(pc).value);
      ClaimedThreadStable(c, s, s', t, u, pc);
    } else {
      match pc
      case Claiming(_, at) => ClaimingStable(c, s, s', t, at);
      case Taking(at) => TakingStable(c, s, s', t, at);
      case Leaving(at) => LeavingStable(c, s, s', t, u, at);
      case Reading(p, b, at) => ReadingStable(c, s, s', t, u, p, b, at);
      case Moving(p, b, at) => MovingStable(c, s, s', t, u, p, b, at);
      case Batching(at) => SoloStable(c, s, s', t, u, at);
      case _ =>
    }
  }

  /** A step that respects the others and leaves its own thread consistent keeps every thread
      consistent. */
  lemma ThreadsStable(c: Config, s: State, s': State, t: Tid)
    requires Rely(c, s, s', t) && s.head.off <= c.cap && |s.serves| > 0
    requires t < |s.pcs| && |s'.pcs| == |s.pcs| && s'.pcs == s.pcs[t := s'.pcs[t]]
    requires ThreadsOk(c, s) && ThreadOk(c, s', t, s'.pcs[t])
    ensures ThreadsOk(c, s')
  {
    forall u | 0 <= u < |s'.pcs| ensures ThreadOk(c, s', u, s'.pcs[u]) {
      if u != t {
        assert s'.pcs[u] == s.pcs[u];
        ThreadStable(c, s, s', t, u, s.pcs[u]);
      }
    }
  }
}
