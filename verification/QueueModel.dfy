/**
  The block queue as a machine of atomic steps.

  Every atomic operation of a push or a pop (and every lock-protected section of the block
  pool) is one step of one thread, so the runs of this machine are the sequentially consistent
  interleavings of any number of producers and consumers.  A field that every block has is a
  map from block identities; a block without an entry holds the null link, or the pooled
  marker in the case of `start`.  Slots are addressed by a block and an offset.

  The fields after `pcs` are history: no step of a thread depends on them.
*/
module QueueModel {
  import opened Basics
  import opened Positions

  /** `capacity` bounds the number of stored values; `exclusive` selects the single-consumer receive
      path, on which one thread at a time receives. */
  datatype Config = Config(cap: BlockCap, capacity: Option<nat>, exclusive: bool)

  datatype Slot = Slot(block: Id, off: nat)

  /** Who is entitled to a block: the live chain, a pool, or one thread. */
  datatype Place =
    | Live(lap: nat)
    | Finishing(owner: Tid, lap: nat)  // taken off the chain, its readers not yet checked
    | Retired(lap: nat)                // waiting for its readers
    | Wiping(owner: Tid)               // readers are done, marks being cleared
    | Held(owner: Tid)                 // clean, in the hands of one thread
    | InSpare
    | InReady

  /** A push past its claim: the position it owns and the value it will write there. */
  datatype Msg = Msg(p: Pos, v: Value)

  // Program points, by the part of the protocol they belong to.

  /** Claiming a position: by fetch-and-add or compare-exchange, or against a capacity. */
  datatype ClaimPc =
    | Claim
    | ClaimCas(t: Pos)
    | BoundLoad
    | BoundLook(t: Pos)
    | BoundHead(t: Pos)
    | BoundStore(t: Pos, h: Pos)
    | BoundCas(t: Pos)

  /** Finding the block of the claimed position. */
  datatype FindPc =
    | FindFast
    | CheckFast(b: Id)
    | FindSlow
    | CheckSlow(b: Id, bound: Option<nat>)
    | WalkPrev(b: Id, seen: nat)

  /** Installing the next block, by the producer of a block's last slot. */
  datatype InstallPc =
    | TakeSpare
    | TakePool
    | WipeTaken(n: Id, j: nat)
    | SetPrev(n: Id)
    | ClearNext(n: Id)
    | SetStart(n: Id)
    | LinkNext(n: Id)
    | MoveTail(n: Id)

  datatype WritePc = Write | Publish

  /** Looking for a written value at the head. */
  datatype TakePc =
    | LoadHead
    | LoadBlock(h: Pos)
    | Look(h: Pos, b: Id)
    | Recheck(h: Pos, unwritten: bool)
    | CasHead(h: Pos, b: Id)

  datatype ReadPc = Copy | Mark

  /** The block transition of the consumer that took a block's last value. */
  datatype MovePc = LoadNext | MoveHeadBlock(n: Id) | SwapHead

  /** Disposing of the block left behind. */
  datatype LeavePc =
    | Scan(k: nat, b: Id, j: nat)
    | Retire(k: nat, b: Id)
    | Wipe(b: Id, j: nat)
    | Recycle(b: Id)
    | PushReady(b: Id)

  /** The exclusive receive path. */
  datatype SoloPc =
    | SoloHead(limit: nat)
    | SoloBlock(limit: nat, h: Pos)
    | SoloLook(h: Pos, b: Id, limit: nat, count: nat)
    | SoloCopy(h: Pos, b: Id, limit: nat, count: nat)
    | SoloNext(h: Pos, b: Id, count: nat)
    | SoloMoveBlock(h: Pos, b: Id, count: nat, n: Id)
    | SoloAdvance(h: Pos, b: Id, count: nat, last: bool)
    | SoloPool(b: Id)

  datatype Pc =
    | Idle
    | Crashed
    | ReportFull(v: Value)
    | ReportNone(unwritten: bool)  // no written value at the head
    | ReportBusy                   // the head is in a transition
    | Claiming(v: Value, claim: ClaimPc)
    | Finding(m: Msg, find: FindPc)
    | Installing(m: Msg, b: Id, install: InstallPc)
    | Writing(m: Msg, b: Id, write: WritePc)
    | Taking(take: TakePc)
    | Reading(p: Pos, b: Id, read: ReadPc)
    | Moving(p: Pos, b: Id, move: MovePc)
    | Leaving(leave: LeavePc)
    | Batching(solo: SoloPc)

  /** What a step leaves to chance: the caller's next operation, the claim protocol, a weak
      compare-exchange failing by itself, giving up a bounded spin, the retired block found. */
  datatype Choice =
    | Go
    | StartPush(v: Value)
    | StartPop
    | StartBatch(limit: nat)
    | UseCas
    | Fail
    | Pick(i: nat)

  datatype State = State(
    head: Pos,
    tail: Pos,
    cached: Pos,
    headBlock: Id,
    tailBlock: Id,
    start: map<Id, nat>,
    nextOf: map<Id, Id>,
    prevOf: map<Id, Id>,
    marked: set<Slot>,
    tag: map<Slot, nat>,
    value: map<Slot, Value>,
    spare: Option<Id>,
    ready: seq<Id>,
    retired: seq<Id>,
    blocks: nat,
    pcs: seq<Pc>,
    holder: Tid,              // on an exclusive queue, the thread that has the receiver
    // history
    serves: seq<Id>,          // the block installed for each lap
    headLap: nat,             // the lap of headBlock
    place: map<Id, Place>,
    writer: map<Pos, Tid>,    // claimed and not yet published, by whom
    reader: map<Pos, Tid>,    // taken from the head and not yet marked read, by whom
    moving: Option<Tid>,      // the consumer in the middle of a block transition
    log: seq<Claimed>,        // values in claim order
    order: seq<Pos>,          // positions in the order the head passed them
    got: map<Pos, Value>)     // what was copied out of each position

  predicate Initial(c: Config, s: State) {
    s == State(Pos(0, 0), Pos(0, 0), Pos(0, 0), 0, 0, map[0 := 0], map[], map[], {}, map[], map[],
               None, [], [], 1, s.pcs, 0,
               [0], 0, map[0 := Live(0)], map[], map[], None, [], [], map[])
    && forall t :: 0 <= t < |s.pcs| ==> s.pcs[t] == Idle
  }

  /** What one step does to the shared state, and where its thread goes next. */
  datatype Outcome = Outcome(after: State, pc: Pc)

  function Apply(o: Outcome, t: Tid): State {
    Goto(o.after, t, o.pc)
  }

  /** Thread `t` moves on to `pc`. */
  function Goto(s: State, t: Tid, pc: Pc): State {
    if t < |s.pcs| then s.(pcs := s.pcs[t := pc]) else s
  }

  /** What a producer has claimed and not yet published. */
  function ClaimOf(pc: Pc): Option<Msg> {
    match pc
    case Finding(m, _) => Some(m)
    case Installing(m, _, _) => Some(m)
    case Writing(m, _, _) => Some(m)
    case _ => None
  }

  /** The value of position `p` is claimed, written and published. */
  predicate Published(c: Config, tail: Pos, writer: map<Pos, Tid>, p: Pos) {
    p.off < c.cap && Before(p, tail) && p !in writer
  }

  /** The published values of the `count` positions from `h` on, within one lap. */
  function Range(h: Pos, count: nat): seq<Pos> {
    if count == 0 then [] else Range(h, count - 1) + [Pos(h.lap, h.off + count - 1)]
  }

  /** Every reader of `b` other than the last slot's has set its mark. */
  predicate ReadersDone(c: Config, s: State, b: Id) {
    forall i :: 0 <= i < c.cap - 1 ==> Slot(b, i) in s.marked
  }

  function SwapRemove(xs: seq<Id>, i: nat): seq<Id>
    requires i < |xs|
  {
    xs[i := xs[|xs| - 1]][..|xs| - 1]
  }

  /** A successful claim of the tail position. */
  function TailTaken(c: Config, s: State, t: Tid, v: Value): State {
    s.(tail := Next(c.cap, s.tail), writer := s.writer[s.tail := t], log := s.log + [Claimed(t, v)])
  }

  function SkipSentinel(c: Config, s: State): State {
    s.(tail := Next(c.cap, s.tail))
  }

  /** The thread that has the exclusive receiver is inside a receive. */
  predicate InReceive(holder: Tid, pcs: seq<Pc>) {
    holder < |pcs| && (pcs[holder].Batching? || pcs[holder].Leaving?)
  }

  /** A thread between operations picks its next one; a finished verdict is returned.  The exclusive
      receiver goes from thread to thread, but not during a receive. */
  function StepCall(c: Config, s: State, t: Tid, ch: Choice): Outcome
    requires t < |s.pcs|
  {
    match s.pcs[t]
    case Idle =>
      (match ch
       case StartPush(v) => Outcome(s, Claiming(v, if c.capacity.None? then Claim else BoundLoad))
       case StartPop => if c.exclusive then Outcome(s, Idle) else Outcome(s, Taking(LoadHead))
       case StartBatch(limit) =>
         if c.exclusive && limit > 0 && !InReceive(s.holder, s.pcs) then
           Outcome(s.(holder := t), Batching(SoloHead(limit)))
         else Outcome(s, Idle)
       case _ => Outcome(s, Idle))
    case ReportFull(_) => Outcome(s, Idle)
    case ReportNone(_) => Outcome(s, Idle)
    case ReportBusy => Outcome(s, Idle)
    case pc => Outcome(s, pc)
  }

  function StepClaim(c: Config, s: State, t: Tid, ch: Choice, v: Value, pc: ClaimPc): Outcome {
    match pc
    case Claim =>
      if ch.UseCas? then Outcome(s, Claiming(v, ClaimCas(s.tail)))
      else if IsSentinel(c.cap, s.tail) then Outcome(SkipSentinel(c, s), Claiming(v, Claim))
      else Outcome(TailTaken(c, s, t, v), Finding(Msg(s.tail, v), FindFast))
    case ClaimCas(t0) =>
      if ch.Fail? || s.tail != t0 then Outcome(s, Claiming(v, ClaimCas(s.tail)))
      else if IsSentinel(c.cap, t0) then Outcome(SkipSentinel(c, s), Claiming(v, ClaimCas(Next(c.cap, t0))))
      else Outcome(TailTaken(c, s, t, v), Finding(Msg(s.tail, v), FindFast))
    case BoundLoad => Outcome(s, Claiming(v, BoundLook(s.tail)))
    case BoundLook(t0) =>
      if IsSentinel(c.cap, t0) then
        if ch.Fail? || s.tail != t0 then Outcome(s, Claiming(v, BoundLook(s.tail)))
        else Outcome(SkipSentinel(c, s), Claiming(v, BoundLook(Next(c.cap, t0))))
      else if c.capacity.Some? && Items(c.cap, s.cached, t0) >= c.capacity.value then
        Outcome(s, Claiming(v, BoundHead(t0)))
      else Outcome(s, Claiming(v, BoundCas(t0)))
    case BoundHead(t0) =>
      if c.capacity.Some? && Items(c.cap, s.head, t0) >= c.capacity.value then Outcome(s, ReportFull(v))
      else Outcome(s, Claiming(v, BoundStore(t0, s.head)))
    case BoundStore(t0, h) => Outcome(s.(cached := h), Claiming(v, BoundCas(t0)))
    case BoundCas(t0) =>
      if ch.Fail? || s.tail != t0 then Outcome(s, Claiming(v, BoundLook(s.tail)))
      else Outcome(TailTaken(c, s, t, v), Finding(Msg(s.tail, v), FindFast))
  }

  /** The block of a claim is found: the last slot goes on to install the next block. */
  function Found(c: Config, m: Msg, b: Id): Pc {
    if m.p.off + 1 == c.cap then Installing(m, b, TakeSpare) else Writing(m, b, Write)
  }

  predicate StartIs(s: State, b: Id, lap: nat) {
    b in s.start && s.start[b] == lap
  }

  /** The walk to the block of a claim.  The bound of CheckSlow is history: the lap the visited
      block is known to serve, when that is not before the claim's own lap. */
  function StepFind(c: Config, s: State, t: Tid, m: Msg, pc: FindPc): Outcome {
    match pc
    case FindFast => Outcome(s, Finding(m, CheckFast(s.tailBlock)))
    case CheckFast(b) =>
      if StartIs(s, b, m.p.lap) then Outcome(s, Found(c, m, b)) else Outcome(s, Finding(m, FindSlow))
    case FindSlow =>
      var b := s.tailBlock;
      Outcome(s, Finding(m, CheckSlow(b, if b in s.start && s.start[b] >= m.p.lap then Some(s.start[b]) else None)))
    case CheckSlow(b, _) =>
      if StartIs(s, b, m.p.lap) then Outcome(s, Found(c, m, b))
      else if b in s.start && s.start[b] > m.p.lap then Outcome(s, Finding(m, WalkPrev(b, s.start[b])))
      else Outcome(s, Finding(m, FindSlow))
    case WalkPrev(b, seen) =>
      if b in s.prevOf && seen > 0 then Outcome(s, Finding(m, CheckSlow(s.prevOf[b], Some(seen - 1))))
      else Outcome(s, Crashed)
  }

  /** The new block's start is stored: from here on it serves lap `k`. */
  function Started(s: State, k: nat, n: Id): State {
    s.(start := s.start[n := k], serves := s.serves + [n], place := s.place[n := Live(k)])
  }

  function StepInstall(c: Config, s: State, t: Tid, ch: Choice, m: Msg, b: Id, pc: InstallPc): Outcome {
    match pc
    case TakeSpare =>
      if s.spare.Some? then
        var n := s.spare.value;
        Outcome(s.(spare := None, place := s.place[n := Held(t)]), Installing(m, b, SetPrev(n)))
      else Outcome(s, Installing(m, b, TakePool))
    case TakePool =>
      if |s.ready| > 0 then
        var n := s.ready[|s.ready| - 1];
        Outcome(s.(ready := s.ready[..|s.ready| - 1], place := s.place[n := Held(t)]), Installing(m, b, SetPrev(n)))
      else if ch.Pick? && ch.i < |s.retired| && ReadersDone(c, s, s.retired[ch.i]) then
        var n := s.retired[ch.i];
        Outcome(s.(retired := SwapRemove(s.retired, ch.i), place := s.place[n := Wiping(t)]),
                Installing(m, b, WipeTaken(n, 0)))
      else
        var n := s.blocks;
        Outcome(s.(blocks := n + 1, place := s.place[n := Held(t)]), Installing(m, b, SetPrev(n)))
    case WipeTaken(n, j) =>
      if j < c.cap then Outcome(s.(marked := s.marked - {Slot(n, j)}), Installing(m, b, WipeTaken(n, j + 1)))
      else Outcome(s.(start := s.start - {n}, place := s.place[n := Held(t)]), Installing(m, b, SetPrev(n)))
    case SetPrev(n) => Outcome(s.(prevOf := s.prevOf[n := b]), Installing(m, b, ClearNext(n)))
    case ClearNext(n) => Outcome(s.(nextOf := s.nextOf - {n}), Installing(m, b, SetStart(n)))
    case SetStart(n) =>
      Outcome(Started(s, m.p.lap + 1, n), Installing(m, b, LinkNext(n)))
    case LinkNext(n) => Outcome(s.(nextOf := s.nextOf[b := n]), Installing(m, b, MoveTail(n)))
    case MoveTail(n) => Outcome(s.(tailBlock := n), Writing(m, b, Write))
  }

  function StepWrite(c: Config, s: State, t: Tid, m: Msg, b: Id, pc: WritePc): Outcome {
    match pc
    case Write => Outcome(s.(value := s.value[Slot(b, m.p.off) := m.v]), Writing(m, b, Publish))
    case Publish => Outcome(s.(tag := s.tag[Slot(b, m.p.off) := m.p.lap], writer := s.writer - {m.p}), Idle)
  }

  /** A successful claim of the head position; the block's last value starts a transition. */
  function Taken(c: Config, s: State, t: Tid, h: Pos): State {
    s.(head := Next(c.cap, h), reader := s.reader[h := t], order := s.order + [h],
       moving := if h.off + 1 == c.cap then Some(t) else s.moving)
  }

  function StepTake(c: Config, s: State, t: Tid, ch: Choice, pc: TakePc): Outcome {
    match pc
    case LoadHead => Outcome(s, Taking(LoadBlock(s.head)))
    case LoadBlock(h) => Outcome(s, Taking(Look(h, s.headBlock)))
    case Look(h, b) =>
      if IsSentinel(c.cap, h) then Outcome(s, if ch.Fail? then ReportBusy else Taking(LoadHead))
      else if Slot(b, h.off) in s.tag && s.tag[Slot(b, h.off)] == h.lap then Outcome(s, Taking(CasHead(h, b)))
      else Outcome(s, Taking(Recheck(h, !Published(c, s.tail, s.writer, s.head))))
    case Recheck(h, unwritten) =>
      if s.head == h then Outcome(s, ReportNone(unwritten)) else Outcome(s, Taking(LoadBlock(s.head)))
    case CasHead(h, b) =>
      if ch.Fail? || s.head != h then Outcome(s, Taking(LoadBlock(s.head)))
      else
        Outcome(Taken(c, s, t, h), Reading(h, b, Copy))
  }

  /** A value is out of its slot; a block's last one has no mark to wait for. */
  function CopiedOut(c: Config, s: State, p: Pos, v: Value): State {
    s.(got := s.got[p := v], reader := if p.off + 1 == c.cap then s.reader - {p} else s.reader)
  }

  function StepRead(c: Config, s: State, t: Tid, p: Pos, b: Id, pc: ReadPc): Outcome {
    match pc
    case Copy =>
      if Slot(b, p.off) !in s.value then Outcome(s, Crashed)
      else
        Outcome(CopiedOut(c, s, p, s.value[Slot(b, p.off)]),
                if p.off + 1 == c.cap then Moving(p, b, LoadNext) else Reading(p, b, Mark))
    case Mark => Outcome(s.(marked := s.marked + {Slot(b, p.off)}, reader := s.reader - {p}), Idle)
  }

  /** The head block moves on; the block of lap `k` leaves the chain with thread `t`. */
  function HeadBlockMoved(s: State, t: Tid, k: nat, b: Id, n: Id): State {
    s.(headBlock := n, headLap := s.headLap + 1, moving := Some(t), place := s.place[b := Finishing(t, k)])
  }

  function StepMove(c: Config, s: State, t: Tid, p: Pos, b: Id, pc: MovePc): Outcome {
    match pc
    case LoadNext =>
      if b in s.nextOf then Outcome(s, Moving(p, b, MoveHeadBlock(s.nextOf[b]))) else Outcome(s, Crashed)
    case MoveHeadBlock(n) =>
      Outcome(HeadBlockMoved(s, t, p.lap, b, n), Moving(p, b, SwapHead))
    case SwapHead =>
      Outcome(s.(head := Next(c.cap, Next(c.cap, p)), moving := None), Leaving(Scan(p.lap, b, 0)))
  }

  function StepLeave(c: Config, s: State, t: Tid, pc: LeavePc): Outcome {
    match pc
    case Scan(k, b, j) =>
      if j >= c.cap - 1 then Outcome(s.(place := s.place[b := Wiping(t)]), Leaving(Wipe(b, 0)))
      else if Slot(b, j) in s.marked then Outcome(s, Leaving(Scan(k, b, j + 1)))
      else Outcome(s, Leaving(Retire(k, b)))
    case Retire(k, b) => Outcome(s.(retired := s.retired + [b], place := s.place[b := Retired(k)]), Idle)
    case Wipe(b, j) =>
      if j < c.cap then Outcome(s.(marked := s.marked - {Slot(b, j)}), Leaving(Wipe(b, j + 1)))
      else Outcome(s.(start := s.start - {b}, place := s.place[b := Held(t)]), Leaving(Recycle(b)))
    case Recycle(b) =>
      if s.spare.None? then Outcome(s.(spare := Some(b), place := s.place[b := InSpare]), Idle)
      else Outcome(s, Leaving(PushReady(b)))
    case PushReady(b) => Outcome(s.(ready := s.ready + [b], place := s.place[b := InReady]), Idle)
  }

  /** One head update for a whole batch. */
  function Advanced(s: State, h: Pos, count: nat, last: bool): State {
    s.(head := if last then Pos(h.lap + 1, 0) else Pos(h.lap, h.off + count),
       order := s.order + Range(h, count), moving := None)
  }

  /** The exclusive path; a single receive is a batch of one. */
  function StepSolo(c: Config, s: State, t: Tid, pc: SoloPc): Outcome {
    match pc
    case SoloHead(limit) => Outcome(s, Batching(SoloBlock(limit, s.head)))
    case SoloBlock(limit, h) => Outcome(s, Batching(SoloLook(h, s.headBlock, limit, 0)))
    case SoloLook(h, b, limit, count) =>
      var slot := Slot(b, h.off + count);
      if count < limit && h.off + count < c.cap && slot in s.tag && s.tag[slot] == h.lap then
        Outcome(s, Batching(SoloCopy(h, b, limit, count)))
      else if count == 0 then Outcome(s, ReportNone(!Published(c, s.tail, s.writer, s.head)))
      else if h.off + count == c.cap then Outcome(s, Batching(SoloNext(h, b, count)))
      else Outcome(s, Batching(SoloAdvance(h, b, count, false)))
    case SoloCopy(h, b, limit, count) =>
      if Slot(b, h.off + count) !in s.value then Outcome(s, Crashed)
      else
        Outcome(s.(got := s.got[Pos(h.lap, h.off + count) := s.value[Slot(b, h.off + count)]]),
                Batching(SoloLook(h, b, limit, count + 1)))
    case SoloNext(h, b, count) =>
      if b in s.nextOf then Outcome(s, Batching(SoloMoveBlock(h, b, count, s.nextOf[b]))) else Outcome(s, Crashed)
    case SoloMoveBlock(h, b, count, n) =>
      Outcome(HeadBlockMoved(s, t, h.lap, b, n), Batching(SoloAdvance(h, b, count, true)))
    case SoloAdvance(h, b, count, last) =>
      Outcome(Advanced(s, h, count, last), if last then Batching(SoloPool(b)) else Idle)
    case SoloPool(b) => Outcome(s.(start := s.start - {b}, place := s.place[b := Held(t)]), Leaving(Recycle(b)))
  }

  function StepOf(c: Config, s: State, t: Tid, ch: Choice): Outcome
    requires t < |s.pcs|
  {
    match s.pcs[t]
    case Claiming(v, pc) => StepClaim(c, s, t, ch, v, pc)
    case Finding(m, pc) => StepFind(c, s, t, m, pc)
    case Installing(m, b, pc) => StepInstall(c, s, t, ch, m, b, pc)
    case Writing(m, b, pc) => StepWrite(c, s, t, m, b, pc)
    case Taking(pc) => StepTake(c, s, t, ch, pc)
    case Reading(p, b, pc) => StepRead(c, s, t, p, b, pc)
    case Moving(p, b, pc) => StepMove(c, s, t, p, b, pc)
    case Leaving(pc) => StepLeave(c, s, t, pc)
    case Batching(pc) => StepSolo(c, s, t, pc)
    case _ => StepCall(c, s, t, ch)
  }

  /** One step of thread `t`: its effect on the shared state, and the thread's move. */
  function Step(c: Config, s: State, t: Tid, ch: Choice): State
    requires t < |s.pcs|
  {
    Apply(StepOf(c, s, t, ch), t)
  }

  /** Which thread moves, and how chance falls. */
  datatype Act = Act(t: Tid, ch: Choice)

  /** A finite run: any number of threads, every interleaving. */
  predicate IsRun(c: Config, run: seq<State>, acts: seq<Act>) {
    && |run| == |acts| + 1 && Initial(c, run[0])
    && forall i :: 0 <= i < |acts| ==>
         acts[i].t < |run[i].pcs| && run[i + 1] == Step(c, run[i], acts[i].t, acts[i].ch)
  }
}
