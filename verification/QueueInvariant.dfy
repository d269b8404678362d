/**
  The invariant of the block queue.

  Each clause is a predicate over the fields it is about.  `ThreadOk` says what a thread knows
  at each program point.
*/
module QueueInvariant {
  import opened Basics
  import opened Positions
  import opened QueueModel

  /** The head is at most one ahead of the tail, and only past a sentinel the tail sits on. */
  predicate HeadTailOk(c: Config, head: Pos, tail: Pos, cached: Pos) {
    && head.off <= c.cap && tail.off <= c.cap && cached.off <= c.cap
    && (AtMost(head, tail) || (tail.off == c.cap && head == Pos(tail.lap + 1, 0)))
    && AtMost(cached, head)
  }

  /** Every claim is recorded once; a bounded queue never holds more than its capacity. */
  predicate CountsOk(c: Config, head: Pos, tail: Pos, log: seq<Claimed>) {
    && |log| == Rank(c.cap, tail)
    && (c.capacity.Some? ==> Rank(c.cap, tail) <= Rank(c.cap, head) + c.capacity.value)
  }

  ghost predicate WritersOk(c: Config, head: Pos, tail: Pos, headLap: nat, writer: map<Pos, Tid>, pcs: seq<Pc>) {
    forall p :: p in writer ==>
      && p.off < c.cap && AtMost(head, p) && Before(p, tail) && headLap <= p.lap
      && writer[p] < |pcs| && ClaimOf(pcs[writer[p]]).Some? && ClaimOf(pcs[writer[p]]).value.p == p
  }

  /** The lap whose values a block outside the pools may still be read for. */
  function LapOf(pl: Place): Option<nat> {
    match pl
    case Live(k) => Some(k)
    case Finishing(_, k) => Some(k)
    case Retired(k) => Some(k)
    case _ => None
  }

  ghost predicate ReadersOk(c: Config, head: Pos, serves: seq<Id>, place: map<Id, Place>,
                            reader: map<Pos, Tid>, pcs: seq<Pc>) {
    && (c.exclusive ==> reader == map[])
    && forall p :: p in reader ==>
         && p.off < c.cap && Before(p, head) && p.lap < |serves|
         && serves[p.lap] in place && LapOf(place[serves[p.lap]]) == Some(p.lap)
         && reader[p] < |pcs| && pcs[reader[p]].Reading? && pcs[reader[p]].p == p
  }

  /** The blocks serving the laps from the head's on, and no others, are live. */
  ghost predicate LiveOk(headBlock: Id, headLap: nat, serves: seq<Id>, place: map<Id, Place>) {
    && headLap < |serves| && headBlock == serves[headLap]
    && (forall k :: 0 <= k < |serves| ==> serves[k] in place)
    && (forall k :: headLap <= k < |serves| ==> place[serves[k]] == Live(k))
    && (forall b :: b in place && place[b].Live? ==>
          headLap <= place[b].lap < |serves| && serves[place[b].lap] == b)
    && (forall b :: b in place && LapOf(place[b]).Some? ==>
          LapOf(place[b]).value < |serves| && serves[LapOf(place[b]).value] == b)
  }

  predicate IsClean(pl: Place) {
    pl.Held? || pl.InSpare? || pl.InReady?
  }

  /** A start always names a lap its block was installed for; a live block's start is its lap. */
  ghost predicate StartOk(start: map<Id, nat>, serves: seq<Id>, place: map<Id, Place>) {
    && (forall b :: b in start ==> b in place && start[b] < |serves| && serves[start[b]] == b)
    && (forall b :: b in place && place[b].Live? ==> b in start && start[b] == place[b].lap)
    && (forall b :: b in place && IsClean(place[b]) ==> b !in start)
  }

  /** The live chain is linked both ways, and a block's last value is published after its
      next block. */
  ghost predicate LinksOk(c: Config, headLap: nat, serves: seq<Id>, nextOf: map<Id, Id>, prevOf: map<Id, Id>,
                          tail: Pos, writer: map<Pos, Tid>) {
    && (forall k :: 0 < k < |serves| ==> serves[k] in prevOf)
    && (forall k :: headLap < k < |serves| ==> prevOf[serves[k]] == serves[k - 1])
    && (forall k :: headLap <= k < |serves| && serves[k] in nextOf ==>
          k + 1 < |serves| && nextOf[serves[k]] == serves[k + 1])
    && (forall k :: headLap <= k < |serves| && Published(c, tail, writer, Pos(k, c.cap - 1)) ==>
          serves[k] in nextOf)
    && (|serves| >= 2 ==> Before(Pos(|serves| - 2, c.cap - 1), tail))
  }

  /** A slot of a block in use is marked read exactly when its value was taken and its reader
      is done; blocks in the pools carry no marks. */
  ghost predicate MarksOk(c: Config, head: Pos, marked: set<Slot>, place: map<Id, Place>, reader: map<Pos, Tid>) {
    && (c.exclusive ==> marked == {})
    && (forall x :: x in marked ==> x.block in place && x.off < c.cap - 1)
    && (!c.exclusive ==>
          forall b, i :: b in place && LapOf(place[b]).Some? && 0 <= i < c.cap - 1 ==>
            (Slot(b, i) in marked <==>
               Before(Pos(LapOf(place[b]).value, i), head) && Pos(LapOf(place[b]).value, i) !in reader))
    && (forall x :: x in marked ==> !IsClean(place[x.block]))
  }

  /** A state word names a lap only if that lap's value was published there. */
  ghost predicate TagsOk(c: Config, tail: Pos, writer: map<Pos, Tid>, serves: seq<Id>, tag: map<Slot, nat>) {
    forall x :: x in tag ==>
      tag[x] < |serves| && serves[tag[x]] == x.block && Published(c, tail, writer, Pos(tag[x], x.off))
  }

  /** The value of `p` must still be in its slot: published, and not yet taken or being read. */
  predicate Unread(c: Config, head: Pos, tail: Pos, writer: map<Pos, Tid>, reader: map<Pos, Tid>, p: Pos) {
    p in reader || (Published(c, tail, writer, p) && AtMost(head, p))
  }

  ghost predicate ContentOk(c: Config, head: Pos, tail: Pos, writer: map<Pos, Tid>, reader: map<Pos, Tid>,
                            serves: seq<Id>, tag: map<Slot, nat>, value: map<Slot, Value>, log: seq<Claimed>) {
    && (forall p :: Published(c, tail, writer, p) ==> p.lap < |serves|)
    && (forall p :: Unread(c, head, tail, writer, reader, p) ==>
         && p.lap < |serves| && Rank(c.cap, p) < |log|
         && Slot(serves[p.lap], p.off) in tag && tag[Slot(serves[p.lap], p.off)] == p.lap
         && Slot(serves[p.lap], p.off) in value
         && value[Slot(serves[p.lap], p.off)] == log[Rank(c.cap, p)].v)
  }

  ghost predicate PoolOk(spare: Option<Id>, ready: seq<Id>, retired: seq<Id>, blocks: nat, place: map<Id, Place>) {
    && (forall b: Id :: b in place <==> b < blocks)
    && (spare.Some? ==> spare.value in place && place[spare.value] == InSpare)
    && (forall b :: b in place && place[b] == InSpare ==> spare == Some(b))
    && (forall i :: 0 <= i < |ready| ==> ready[i] in place && place[ready[i]] == InReady)
    && (forall b :: b in place && place[b] == InReady ==> b in ready)
    && (forall i, j :: 0 <= i < j < |ready| ==> ready[i] != ready[j])
    && (forall i :: 0 <= i < |retired| ==> retired[i] in place && place[retired[i]].Retired?)
    && (forall b :: b in place && place[b].Retired? ==> b in retired)
    && (forall i, j :: 0 <= i < j < |retired| ==> retired[i] != retired[j])
  }

  /** The head has passed the value positions in order, each once. */
  ghost predicate OrderOk(c: Config, head: Pos, order: seq<Pos>) {
    && |order| == Rank(c.cap, head)
    && forall i :: 0 <= i < |order| ==>
         order[i].off < c.cap && Rank(c.cap, order[i]) == i && Before(order[i], head)
  }

  /** Whatever was copied out is what was pushed there; what the head has passed and is not
      yet copied is in the hands of a reader. */
  ghost predicate GotOk(c: Config, head: Pos, reader: map<Pos, Tid>, pcs: seq<Pc>, got: map<Pos, Value>,
          log: seq<Claimed>) {
    && (forall p :: p in got ==>
          p.off < c.cap && Rank(c.cap, p) < |log| && got[p] == log[Rank(c.cap, p)].v)
    && (forall p: Pos :: p.off < c.cap && Before(p, head) && p !in got ==>
          p in reader && reader[p] < |pcs| && pcs[reader[p]].Reading? && pcs[reader[p]].read.Copy?)
  }

  /** The consumer that took a block's last value, until the head is in the next block. */
  predicate IsMoving(c: Config, pc: Pc) {
    match pc
    case Reading(p, _, _) => p.off + 1 == c.cap
    case Moving(_, _, _) => true
    case Batching(SoloAdvance(_, _, _, last)) => last
    case _ => false
  }

  predicate MovingOk(c: Config, head: Pos, headLap: nat, moving: Option<Tid>, pcs: seq<Pc>) {
    && (moving.None? ==> head.off < c.cap && headLap == head.lap)
    && (moving.Some? ==> moving.value < |pcs| && IsMoving(c, pcs[moving.value]))
  }

  // ---- What a thread knows ----------------------------------------------------------------------

  predicate Owns(place: map<Id, Place>, b: Id, pl: Place) {
    b in place && place[b] == pl
  }

  /** Block `b` is the one installed for lap `k`. */
  predicate Serves(serves: seq<Id>, k: nat, b: Id) {
    k < |serves| && serves[k] == b
  }

  ghost predicate ClaimOk(c: Config, s: State, t: Tid, m: Msg) {
    && m.p in s.writer && s.writer[m.p] == t
    && Rank(c.cap, m.p) < |s.log| && s.log[Rank(c.cap, m.p)] == Claimed(t, m.v)
  }

  /** The owner of a block's last slot has not installed the next block yet. */
  ghost predicate Uninstalled(c: Config, s: State, m: Msg) {
    m.p.off + 1 == c.cap ==> |s.serves| <= m.p.lap + 1
  }

  predicate Linked(s: State, m: Msg, b: Id) {
    m.p.lap + 1 < |s.serves| && b in s.nextOf && s.nextOf[b] == s.serves[m.p.lap + 1]
  }

  ghost predicate Prefix(c: Config, s: State, h: Pos, count: nat) {
    forall i :: h.off <= i < h.off + count ==>
      Published(c, s.tail, s.writer, Pos(h.lap, i)) && Pos(h.lap, i) in s.got
  }

  ghost predicate SoloOk(c: Config, s: State, h: Pos, b: Id, count: nat) {
    && s.moving.None? && h == s.head && Serves(s.serves, h.lap, b)
    && h.off + count <= c.cap && Prefix(c, s, h, count)
  }

  predicate MoverOk(c: Config, s: State, t: Tid, p: Pos) {
    !c.exclusive && s.moving == Some(t) && p.off + 1 == c.cap && s.head == Pos(p.lap, c.cap)
  }

  ghost predicate ClaimingOk(c: Config, s: State, pc: ClaimPc) {
    match pc
    case Claim => c.capacity.None?
    case ClaimCas(t0) => c.capacity.None? && t0.off <= c.cap && AtMost(t0, s.tail)
    case BoundLoad => c.capacity.Some?
    case BoundLook(t0) => c.capacity.Some? && t0.off <= c.cap && AtMost(t0, s.tail)
    case BoundHead(t0) => c.capacity.Some? && t0.off < c.cap && AtMost(t0, s.tail)
    case BoundStore(t0, h) =>
      && c.capacity.Some? && t0.off < c.cap && AtMost(t0, s.tail) && AtMost(h, s.head) && h.off <= c.cap
      && Rank(c.cap, t0) < Rank(c.cap, s.head) + c.capacity.value
    case BoundCas(t0) =>
      && c.capacity.Some? && t0.off < c.cap && AtMost(t0, s.tail)
      && Rank(c.cap, t0) < Rank(c.cap, s.head) + c.capacity.value
  }

  ghost predicate FindingOk(c: Config, s: State, m: Msg, pc: FindPc) {
    match pc
    case CheckSlow(b, bound) => bound.Some? ==> m.p.lap <= bound.value && Serves(s.serves, bound.value, b)
    case WalkPrev(b, seen) => m.p.lap < seen && Serves(s.serves, seen, b)
    case _ => true
  }

  /** Up to `SetStart` the next lap is not installed; after it, it is, by this thread. */
  ghost predicate InstallingOk(c: Config, s: State, t: Tid, m: Msg, b: Id, pc: InstallPc) {
    && m.p.off + 1 == c.cap && Serves(s.serves, m.p.lap, b)
    && match pc
       case TakeSpare => Uninstalled(c, s, m)
       case TakePool => Uninstalled(c, s, m)
       case WipeTaken(n, j) =>
         Uninstalled(c, s, m) && Owns(s.place, n, Wiping(t)) && forall i :: 0 <= i < j ==> Slot(n, i) !in s.marked
       case SetPrev(n) => Uninstalled(c, s, m) && Owns(s.place, n, Held(t))
       case ClearNext(n) => Uninstalled(c, s, m) && Owns(s.place, n, Held(t)) && n in s.prevOf && s.prevOf[n] == b
       case SetStart(n) =>
         Uninstalled(c, s, m) && Owns(s.place, n, Held(t)) && n in s.prevOf && s.prevOf[n] == b && n !in s.nextOf
       case LinkNext(n) => Serves(s.serves, m.p.lap + 1, n)
       case MoveTail(n) => Serves(s.serves, m.p.lap + 1, n) && Linked(s, m, b)
  }

  ghost predicate WritingOk(c: Config, s: State, m: Msg, b: Id, pc: WritePc) {
    && Serves(s.serves, m.p.lap, b) && (m.p.off + 1 == c.cap ==> Linked(s, m, b))
    && (pc.Publish? ==> Slot(b, m.p.off) in s.value && s.value[Slot(b, m.p.off)] == m.v)
  }

  ghost predicate TakingOk(c: Config, s: State, pc: TakePc) {
    match pc
    case LoadHead => true
    case LoadBlock(h) => h.off <= c.cap && AtMost(h, s.head)
    case Look(h, b) =>
      h.off <= c.cap && AtMost(h, s.head) && (h == s.head && h.off < c.cap ==> Serves(s.serves, h.lap, b))
    case Recheck(h, unwritten) => h.off <= c.cap && AtMost(h, s.head) && (h == s.head ==> unwritten)
    case CasHead(h, b) => AtMost(h, s.head) && Published(c, s.tail, s.writer, h) && Serves(s.serves, h.lap, b)
  }

  ghost predicate ReadingOk(c: Config, s: State, t: Tid, p: Pos, b: Id, pc: ReadPc) {
    && p in s.reader && s.reader[p] == t && Serves(s.serves, p.lap, b)
    && (p.off + 1 == c.cap ==> pc.Copy? && MoverOk(c, s, t, p) && s.headLap == p.lap)
    && (pc.Mark? ==> p in s.got)
  }

  ghost predicate MovingThreadOk(c: Config, s: State, t: Tid, p: Pos, b: Id, pc: MovePc) {
    && MoverOk(c, s, t, p)
    && match pc
       case LoadNext => s.headLap == p.lap && Serves(s.serves, p.lap, b)
       case MoveHeadBlock(n) =>
         s.headLap == p.lap && Serves(s.serves, p.lap, b) && Serves(s.serves, p.lap + 1, n)
       case SwapHead => s.headLap == p.lap + 1 && Owns(s.place, b, Finishing(t, p.lap))
  }

  ghost predicate LeavingOk(c: Config, s: State, t: Tid, pc: LeavePc) {
    && (c.exclusive ==> t == s.holder)
    && match pc
       case Scan(k, b, j) =>
         && !c.exclusive && Owns(s.place, b, Finishing(t, k)) && Before(Pos(k, c.cap), s.head)
         && j <= c.cap - 1 && forall i :: 0 <= i < j ==> Slot(b, i) in s.marked
       case Retire(k, b) => !c.exclusive && Owns(s.place, b, Finishing(t, k)) && Before(Pos(k, c.cap), s.head)
       case Wipe(b, j) => Owns(s.place, b, Wiping(t)) && forall i :: 0 <= i < j ==> Slot(b, i) !in s.marked
       case Recycle(b) => Owns(s.place, b, Held(t))
       case PushReady(b) => Owns(s.place, b, Held(t))
  }

  ghost predicate BatchingOk(c: Config, s: State, t: Tid, pc: SoloPc) {
    && c.exclusive && t == s.holder
    && match pc
       case SoloHead(limit) => s.moving.None? && limit > 0
       case SoloBlock(limit, h) => s.moving.None? && limit > 0 && h == s.head
       case SoloLook(h, b, limit, count) => SoloOk(c, s, h, b, count) && count <= limit && limit > 0
       case SoloCopy(h, b, limit, count) =>
         && SoloOk(c, s, h, b, count) && h.off + count < c.cap && count < limit
         && Published(c, s.tail, s.writer, Pos(h.lap, h.off + count))
       case SoloNext(h, b, count) => SoloOk(c, s, h, b, count) && h.off + count == c.cap && count > 0
       case SoloMoveBlock(h, b, count, n) =>
         SoloOk(c, s, h, b, count) && h.off + count == c.cap && count > 0 && Serves(s.serves, h.lap + 1, n)
       case SoloAdvance(h, b, count, last) =>
         && h == s.head && h.off + count <= c.cap && count > 0 && Prefix(c, s, h, count)
         && if last then h.off + count == c.cap && s.moving == Some(t) && s.headLap == h.lap + 1
                         && Owns(s.place, b, Finishing(t, h.lap))
            else h.off + count < c.cap && s.moving.None?
       case SoloPool(b) =>
         b in s.place && s.place[b].Finishing? && s.place[b].owner == t && Before(Pos(s.place[b].lap, c.cap), s.head)
  }

  /** What thread `t` knows at program point `pc`; no thread has crashed. */
  ghost predicate ThreadOk(c: Config, s: State, t: Tid, pc: Pc) {
    match pc
    case Idle => true
    case Crashed => false
    case ReportFull(_) => true
    case ReportNone(unwritten) => unwritten
    case ReportBusy => true
    case Claiming(_, at) => ClaimingOk(c, s, at)
    case Finding(m, at) => ClaimOk(c, s, t, m) && Uninstalled(c, s, m) && FindingOk(c, s, m, at)
    case Installing(m, b, at) => ClaimOk(c, s, t, m) && InstallingOk(c, s, t, m, b, at)
    case Writing(m, b, at) => ClaimOk(c, s, t, m) && WritingOk(c, s, m, b, at)
    case Taking(at) => !c.exclusive && TakingOk(c, s, at)
    case Reading(p, b, at) => !c.exclusive && ReadingOk(c, s, t, p, b, at)
    case Moving(p, b, at) => MovingThreadOk(c, s, t, p, b, at)
    case Leaving(at) => LeavingOk(c, s, t, at)
    case Batching(at) => BatchingOk(c, s, t, at)
  }

  ghost predicate ThreadsOk(c: Config, s: State) {
    forall t :: 0 <= t < |s.pcs| ==> ThreadOk(c, s, t, s.pcs[t])
  }

  /** The indices, blocks, slots and pools. */
  ghost predicate MemoryOk(c: Config, s: State) {
    && HeadTailOk(c, s.head, s.tail, s.cached)
    && CountsOk(c, s.head, s.tail, s.log)
    && LiveOk(s.headBlock, s.headLap, s.serves, s.place)
    && StartOk(s.start, s.serves, s.place)
    && LinksOk(c, s.headLap, s.serves, s.nextOf, s.prevOf, s.tail, s.writer)
    && MarksOk(c, s.head, s.marked, s.place, s.reader)
    && TagsOk(c, s.tail, s.writer, s.serves, s.tag)
    && ContentOk(c, s.head, s.tail, s.writer, s.reader, s.serves, s.tag, s.value, s.log)
    && PoolOk(s.spare, s.ready, s.retired, s.blocks, s.place)
    && OrderOk(c, s.head, s.order)
  }

  /** Every position in flight is in the hands of the thread recorded for it. */
  ghost predicate DutyOk(c: Config, s: State) {
    && WritersOk(c, s.head, s.tail, s.headLap, s.writer, s.pcs)
    && ReadersOk(c, s.head, s.serves, s.place, s.reader, s.pcs)
    && GotOk(c, s.head, s.reader, s.pcs, s.got, s.log)
    && MovingOk(c, s.head, s.headLap, s.moving, s.pcs)
  }

  ghost predicate SharedOk(c: Config, s: State) {
    MemoryOk(c, s) && DutyOk(c, s)
  }

  ghost predicate Inv(c: Config, s: State) {
    SharedOk(c, s) && ThreadsOk(c, s)
  }

  lemma InitialInv(c: Config, s: State)
    requires Initial(c, s)
    ensures Inv(c, s)
  {
    InitialBlocks(c, s);
    InitialLinks(c, s);
    InitialPool(c, s);
    InitialCounts(c, s);
  }

  lemma InitialBlocks(c: Config, s: State)
    requires Initial(c, s)
    ensures LiveOk(s.headBlock, s.headLap, s.serves, s.place)
    ensures StartOk(s.start, s.serves, s.place)
  {
  }

  lemma InitialLinks(c: Config, s: State)
    requires Initial(c, s)
    ensures LinksOk(c, s.headLap, s.serves, s.nextOf, s.prevOf, s.tail, s.writer)
  {
  }

  lemma InitialPool(c: Config, s: State)
    requires Initial(c, s)
    ensures PoolOk(s.spare, s.ready, s.retired, s.blocks, s.place)
  {
  }

  lemma InitialCounts(c: Config, s: State)
    requires Initial(c, s)
    ensures HeadTailOk(c, s.head, s.tail, s.cached) && CountsOk(c, s.head, s.tail, s.log)
    ensures MarksOk(c, s.head, s.marked, s.place, s.reader)
    ensures ContentOk(c, s.head, s.tail, s.writer, s.reader, s.serves, s.tag, s.value, s.log)
    ensures OrderOk(c, s.head, s.order) && GotOk(c, s.head, s.reader, s.pcs, s.got, s.log)
  {
  }
}
