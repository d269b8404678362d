# rapidfire: a verified model of the channel

rapidfire is a bounded or unbounded async channel. Values live in fixed-size blocks chained by
`next` and `prev` links; producers and consumers claim absolute positions, and finished blocks are
recycled and never freed while the queue lives. On top sit FIFO lists of parked futures, and a
faster receive path for channels with exactly one receiver. This project models that protocol and
proves what it promises.

Three models, each in the form its part of the program has:

* **The block queue as a machine of atomic steps** (`QueueModel`). Every atomic operation of a push
  or a pop, and every lock-protected section of the block pool, is one step of one thread; a run is
  any interleaving of any number of threads. `QueueInvariant` is the invariant, `QueueRely` what one
  thread's step leaves alone for the others, `QueueSteps*` the proof that every step keeps it.
  `QueueTheorems`, `QueueSafety`, `QueueOnce`, `QueueWalk`, `QueueOwnership` and `QueueDrop` read the
  results off it, `TailBlock`, `TailBlockLate` and `TailBlockLookup` settle how far behind
  `tail.block` may be and when a lookup ends, and `QueueRefinement` shows that the whole is a simple
  queue (`SimpleQueues`). `QueueCalls` and `QueueReceives` say what one push and one receive have done
  when they return, `QueueProgress` that they do.
* **The channel as a machine of atomic steps over that simple queue** (`ChannelModel`): the two
  attempts of a poll, registering, parking, the samples of the waiting counters, notifications,
  wake-ups, cancellation and closing. `ChannelInvariant` and `ChannelSteps` are its invariant and the
  proof that every step keeps it, `ChannelTheorems` what follows for every run, `ChannelCalls` and
  `ChannelProgress` what one send and one receive have done when they return, and that they do,
  `ChannelOrder` and `ChannelWakeups` who is woken. `WaiterLock` is the waiter list one atomic action at
  a time under its lock, and justifies treating each critical section as one step.
* **Classes that change their state in place**: the waiter list (`Waiters`), the exclusive receiver
  (`SoloReceivers`) and its queue (`SoloQueues`), with blocks as linked objects, arrays of slots, a
  head and a tail index, a spare and a ready list. `SoloSpec` says on values what the receiver does.

A position is a lap and an offset; `Positions` ties these pairs to the index words of the program.
The block capacity is a parameter (at least 2; the program uses 3 or 63), so are the capacity, the
number of threads and the values.

## What is proved

* **No value is lost, duplicated or reordered.** Ordered by the head's passing, the values taken are
  the values pushed at those positions, in claim order, each once (`FifoExactlyOnce`), and each is
  copied out once (`CopiedOnce`), whichever mix of claim protocols the producers use, for several
  consumers and for the exclusive one.
* **A claimed value stays put.** From the head's passing a value until its reader lets go, no other
  thread's step touches its cell or puts its block to another use (`ClaimedSlotUntouched`).
* **Stale snapshots are harmless** (`StaleBlockHarmless`, `NoneIsExact`), **the block lookup returns
  no block but the one live block of its lap** (`FoundIsTheLiveBlock`), **the capacity is never
  exceeded and a full verdict is exact** (`CapacityHolds`, `FullIsExact`).
* **A block lookup ends if and only if few pushes can be in flight** (`LookupsEndExactly`, below).
* **Every block is in exactly one place**, and dropping a quiescent queue drops the values left in
  it in order and releases every block once (`EveryBlockOnce`, `DropQueue`).
* **No stranded sender, no lost wake-up, drain before Closed, hand-off** for the channel
  (`NoStrandedSender`, `NoLostWakeup`, `DrainBeforeClosed`, `LaterClaimsHeard`), with the counting
  argument behind the first stated for every moment of every run (`FreeSlotsCovered`).
* **Each operation does what it was called for.** Between a push's call and its return its thread adds to the log
  exactly the value it was called with, published, or that value is refused and it adds nothing
  (`PushReturns`); a pop copies out exactly the position it moved the head over, or nothing
  (`PopReturns`); an exclusive receive takes as much as it may and can (`BatchReturns`). So for the
  channel's sends and receives, whatever the waits in between (`SendReturns`, `RecvReturns`). A verdict
  of empty-handedness is exact in both its forms (`NoneIsExact`, `BusyIsExact`).
* **Operations make progress.** Claiming and taking are lock-free (`ClaimLockFree`, `TakeLockFree`),
  and what follows them, and every exclusive receive, ends within a bound of its own steps whatever the
  others do (`OperationEnds`). A send on an open channel with room claims, a receive on an open empty
  one goes to sleep (`SendGoesThrough`, `ReceiveSleeps`).
* **A closed channel refuses and says so.** A send that has not found the channel open before it was
  closed adds nothing (`ClosedRefuses`); a receive from a closed and drained channel reports Closed
  within 5 own steps and does not wait (`ClosedReported`).
* **First come, first woken.** The lists stay in the order of registration through any cancellation,
  and no notification passes over whoever registered earlier (`WithoutOrder`, `FirstComeFirstWoken`);
  each notification turns into a wake-up, and a task counts as woken exactly if it was
  (`NotifyGrants`, `WokenIsExact`).
* **A batch is so many single receives** (`BatchIsSingles`), and `recv_many` delivers exactly the
  front of what is stored (`RecvMany`).

### `tail.block` may be late, and may be left behind

`install_next` stores the new block's start before it moves `tail.block` (`src/queue.rs:764-773`).
The comments there and at `src/queue.rs:25-33` and `src/queue.rs:970-973` reason as if whoever finds
the block had found it through `tail.block`. That is not always so: a producer holding an old pointer
to a block that is recycled and installed again for the producer's own lap finds it between the two
stores. It may publish in a lap `tail.block` has not reached; and if it owns that lap's last slot, its
own installation overtakes the one that is pending, whose store then moves `tail.block` *back*. Once
nobody is left between the two stores, no push of the newest lap ever finds its block again, although
the block is installed and live: a lookup fails to end, in every continuation.

With `cap` values per block, `n` threads, and `g` the slot of its lap that a claim holds, for several
consumers and for the exclusive one alike:

* `EarlyExactly`: no claim of slot `g` or a later one is found early, in any run, if and only if
  `n <= cap + 1` or the capacity is at most `cap + 1 + g`. `CurrentExactly` is the case `g = 0`.
* `LookupsEndExactly`: every lookup ends, within a bound of its own steps once the installer of its
  lap has made both stores, if and only if `n <= cap + 1` or the capacity is at most `2 * cap`. The
  same condition decides whether `tail.block` is the newest block whenever nobody is between the
  stores; where it fails there is a run after which a lookup goes on for ever (`MovedBack`,
  `SpinsForever`).

With blocks of 63 values that takes 65 threads pushing at once and room for 127 values; with blocks of
3 values, 5 threads and room for 7. The run is built in stages: in each, one slot more of a lap is
found early than in the stage before, and the thread whose push has just ended receives what was
pushed. On an exclusive queue the receiver is handed on to it: `mpsc::Receiver` may move from thread
to thread, as long as no two receives overlap (`SoloAlone`). No safety result depends on any of this:
the invariant holds in those runs as in all others, and nothing is lost, duplicated, reordered or
overwritten; but the pushes concerned do not return, and nothing from their positions on is received.

### Other differences between the code and its comments

The waiter list's stated invariant, that the counter equals the list's length while the lock is held
(`src/lib.rs:207-208`), holds when the lock is free; inside a critical section the two differ for a
moment (`WaiterLock`). The code is followed.

## Model

| member | source | states |
|---|---|---|
| Positions.ItemsBetweenCounts | src/queue.rs:127-133 | the count the queue computes on index words is the number of words of the range that are not sentinels, for every pair of words |
| Positions.ItemsBetweenIsItems | src/queue.rs:127-133 | on positions the count is the difference of their ranks among value positions |
| Positions.WordNext | src/queue.rs:113-116 | moving to the next position is adding one to the word |
| Positions.WordOrder | src/queue.rs:113-116 | positions are ordered as their words are |
| Positions.WrittenTagNamesLap | src/queue.rs:118-123 | a state word names one lap, and none is the initial zero |
| QueueTheorems.StepKeepsInv | src/queue.rs:536-995 | every atomic step of every thread keeps the invariant of blocks, links, laps, marks, pools and both indices |
| QueueTheorems.RunInv | src/queue.rs:536-995 | the invariant holds in every state of every run |
| QueueRely.ThreadStable | src/queue.rs:536-995 | what a thread knows at its program point survives every step of every other thread |
| QueueTheorems.FifoExactlyOnce | src/queue.rs:784-852 | the positions the head has passed are the first value positions in order, each once; what was copied out of them is what was claimed there; what is not copied yet is in a reader's hands |
| QueueSafety.ReaderKeepsBlock | src/queue.rs:969-995 | the block of a value taken and not yet marked read is not in a pool, its slot not marked, its value in place, for any number of readers |
| QueueSafety.ClaimedSlotUntouched | src/queue.rs:969-995 | between any two states of a run in which a taken value is with its reader, the same block serves its lap and its cell holds the same value |
| QueueSafety.HistoryGrows | src/queue.rs:580-675 | claims, deliveries and installed laps are only added at the end, so per-producer order is claim order |
| QueueSafety.CapacityHolds | src/queue.rs:632-675 | the values between head and tail never exceed the capacity, however old the cached head, counted on words and on positions |
| QueueSafety.FullIsExact | src/queue.rs:646-660 | a push turns to the full verdict only when the count equals the capacity at the moment it reads the real head |
| QueueSafety.StaleBlockHarmless | src/queue.rs:822-836 | when the head's compare-exchange can succeed, the block loaded earlier is the head's block and its slot holds what was pushed at the head |
| QueueOnce.CopiedOnce | src/queue.rs:832-846 | a step copies out at most one value, the one its thread was about to copy, and one nobody has copied before |
| QueueSafety.NoneIsExact | src/queue.rs:809-816 | when a pop reports no value, then at the very step at which this pop last read a slot state the true head was a value position, the slot read was that head's, and it was unwritten |
| QueueCalls.PushReturns | src/queue.rs:536-576 | between the call of a push with v and its return, its thread has added to the log exactly one entry, v, and that position is published; or the push was refused with that same v and its thread has added nothing; whatever the others did |
| QueueCalls.AllocatesLast | src/queue.rs:477-508 | a push goes on with a block that is new only if the pool has none ready and it has itself found no spare |
| QueueReceives.PopReturns | src/queue.rs:784-852 | between the call of a pop and its return, its own steps have moved the head over exactly one position and copied out that position and no other, with the value pushed there; or it has reported nothing to take and has moved and copied nothing |
| QueueReceives.BusyIsExact | src/queue.rs:791-801 | a pop gives up without having read a slot only if this very pop has read a head that was on a sentinel at that moment, with another thread's block transition under way |
| QueueReceives.BusyNeedsTransition | src/queue.rs:791-801 | a pop during which the head stays on value positions never gives up so |
| QueueReceives.RetiredIsExact | src/queue.rs:986-994 | a block taken off the chain is retired instead of recycled only if its consumer has itself found a slot not yet marked read |
| QueueReceives.BatchReturns | src/queue.rs:914-960 | between the call of an exclusive receive and its return, its own steps have moved the head over 1 to limit positions and copied out exactly those, in order, and stopped only at the limit, the end of the block, or a slot found unpublished; or it has reported nothing to take and has moved and copied nothing |
| QueueProgress.OperationEnds | src/queue.rs:760-995 | a push that has found its block, a pop that has taken its value and every exclusive receive return within a bound of their own steps, whatever the others do |
| QueueProgress.ClaimLockFree | src/queue.rs:580-675 | within 13 own steps in its claim loop a push has claimed or been refused, or some push has claimed meanwhile, whichever claim protocols are in use |
| QueueProgress.TakeLockFree | src/queue.rs:784-852 | with no block transition under way at its start, within 6 own steps in its loop a pop has taken the head's value or seen it unwritten, or some pop has taken a value meanwhile |
| QueueWalk.NeverCrashes | src/queue.rs:735-745 | no thread ever follows a null link or reads an uninitialised slot |
| QueueWalk.FoundIsTheLiveBlock | src/queue.rs:686-752 | the block a lookup returns is live, has the start of the claim's lap, and is the only block that has |
| QueueWalk.WalkShrinks | src/queue.rs:699-752 | each step of a walk from a block at or ahead of the target finds the target or gets strictly closer |
| QueueWalk.WalkEnds | src/queue.rs:733-745 | whatever the other threads do, such a walk has found its block within its measure of its own steps, in every run (whether a lookup comes to such a block is LookupsEndExactly) |
| QueueOwnership.ChainShape | src/queue.rs:760-774 | from the head's block to the newest, blocks are distinct, have consecutive starts, point back and on to their neighbours, a last value is published only after the next block is linked, and the head is at most one ahead of the tail, past a sentinel |
| QueueOwnership.SoloAlone | src/queue.rs:855-860 | receives on an exclusive queue never overlap, although the receiver may be handed from thread to thread between them |
| QueueOwnership.SoloHeadRests | src/queue.rs:862-868 | between receives on an exclusive queue the head is on a value position and the head block serves it, whoever has the receiver |
| QueueOwnership.SoloRecycleSafe | src/queue.rs:898-905 | when the exclusive consumer recycles a block without looking at marks, all its values are copied out and no claim is left in its lap or before |
| QueueOwnership.EveryBlockOnce | src/queue.rs:477-528 | every block ever allocated has one place, and is in the live chain, the spare, the ready list, the retired list or a given thread's hands if and only if that is its place; no list holds a block twice |
| QueueDrop.DropQueue | src/queue.rs:1043-1086 | dropping a quiescent reachable queue drops exactly the values claimed and never taken, in order, and releases every allocated block exactly once |
| QueueDrop.DropValues | src/queue.rs:1051-1066 | the walk from head to tail drops the values from the head's rank on |
| QueueDrop.ReleaseBlocks | src/queue.rs:1068-1085 | the chain, the spare and the pooled blocks are released in that order |
| QueueRefinement.StepRefines | src/queue.rs:536-995 | every step is a push below the capacity, the publication of a pending claim, a take of published values next in line, or nothing, on a simple queue |
| QueueRefinement.RunRefines | src/queue.rs:536-995 | every run of the block queue, with several consumers or the exclusive one, is a run of the simple queue |
| TailBlock.TailBlockCurrent | src/queue.rs:760-774 | while at most a lap's worth of pushes is in flight, tail.block serves one of the last two laps and no claim beyond its lap has found its block |
| TailBlock.CurrentIfFew | src/queue.rs:760-774 | so it is for the claims at offset g or beyond, in every run with few threads or little room |
| TailBlockLate.Early | src/queue.rs:764-773 | otherwise there is a run in which the claim of slot g finds its block while tail.block is a lap behind it, for every block capacity, every such g and every number of threads that is not too few |
| TailBlockLate.EarlyExactly | src/queue.rs:760-774 | no claim at offset g or beyond is found early, in any run of n threads, if and only if n and the capacity are that small |
| TailBlockLate.CurrentExactly | src/queue.rs:760-774 | tail.block is current in all runs of n threads if and only if n <= cap + 1 or the capacity is at most cap + 1 |
| TailBlockLookup.LookupEnds | src/queue.rs:686-752 | where no installation can be overtaken, a lookup whose lap is installed, by an installer that has made both stores, has found its block within its measure of its own steps, whatever the others do |
| TailBlockLookup.MovedBack | src/queue.rs:772-773 | otherwise there is a run that leaves tail.block behind the newest block with nobody left to move it, and a push looking for the newest block |
| TailBlockLookup.SpinsForever | src/queue.rs:699-752 | from such a state on that push is still looking, in every continuation |
| TailBlockLookup.LookupsEndExactly | src/queue.rs:686-774 | every lookup of every run of n threads ends within its bound, if and only if n <= cap + 1 or the capacity is at most 2 * cap; and if and only if tail.block is the newest block whenever nobody is between the stores; and if and only if no run leaves a lookup that no continuation ends |
| Waiters.WaiterList.Register | src/lib.rs:227-254 | a registration still listed has its waker refreshed in place, any other is appended under its own or a fresh number |
| Waiters.WithoutOrder | src/lib.rs:276-279 | when one registration leaves, the others are all there and stand in the order they stood in before |
| Waiters.WaiterList.Unregister | src/lib.rs:265-285 | a listed registration leaves, and the others keep their order; for one that is gone the front entry is notified if the wake-up is to be forwarded |
| Waiters.WaiterList.NotifyOne | src/lib.rs:289-303 | the front entry, if any, leaves and is woken |
| Waiters.WaiterList.NotifyAll | src/lib.rs:307-316 | the list empties and every entry is woken in order |
| Waiters.WaiterList.NotifyMany | src/lib.rs:320-339 | the first entries up to the limit leave and are woken in order |
| Waiters.ManyIsOneByOne | src/lib.rs:320-339 | notifying n at once leaves the list and wakes the tasks that n single notifications do |
| Waiters.CancelConserves | src/lib.rs:740-744 | one cancellation loses a wake-up only if nobody is waiting |
| Waiters.ChainConserves | src/lib.rs:822-826 | along any chain of cancellations, while anyone is still waiting every wake-up is still held by some pending future |
| WaiterLock.FreeLockSound | src/lib.rs:207-254 | whenever the lock is free the counter is the list's length, ids are distinct, and every entry is a registration its task still holds |
| WaiterLock.EarlyExitSafe | src/lib.rs:265-273 | a task that leaves early on a zero counter leaves no entry, or one that the close holding the lock is draining |
| WaiterLock.SeenWhole | src/lib.rs:227-339 | seen through the counter, every action under the lock is one operation on the whole list, at the moment the counter changes |
| ChannelSteps.StepKeepsInv | src/lib.rs:372-446 | every step of every task keeps the invariant of lists, claims, wake-ups, snapshots and closing |
| ChannelSteps.RunInv | src/lib.rs:752-886 | the invariant holds in every state of every run of the channel |
| ChannelCalls.ClosedByClose | src/lib.rs:372-381 | in every run the channel is closed exactly if some task has called close: from that step on, and for good |
| ChannelCalls.ClosedRefuses | src/lib.rs:384-394 | from any moment at which the channel is closed on, a task that is not just past finding it open adds nothing to the queue, whether it has not begun its send, is parked, registers or is about to ask |
| ChannelCalls.SendReturns | src/lib.rs:752-797 | between the call of try_send or send with v and its return, through any number of polls, its task has added exactly one entry, v, and it is published; or it has added nothing, and has itself found the channel closed, or not waited and found it full, or dropped the future |
| ChannelCalls.RecvReturns | src/lib.rs:828-886 | between the call of a receive and its return, its own steps have moved the head over at least one value and at most one, or the batch's limit; or over none, and it was about to report Closed, or did not wait and found the channel open with nothing ready, or was a batch that found nothing ready, or was dropped |
| ChannelProgress.OperationEnds | src/lib.rs:752-886 | an operation whose value is claimed or taken, or that has given up or was dropped, returns within a bound of its own steps; each of the two rounds of a close ends in one own step more than it has tasks to wake |
| ChannelProgress.SendSettles | src/lib.rs:752-797 | within 6 own steps a poll of a send, or try_send, has claimed with room there, or parked with none there, or ended with an excuse |
| ChannelProgress.SendGoesThrough | src/lib.rs:384-404 | a send begun or polled on a channel that is open and has room all the while claims within 6 own steps |
| ChannelProgress.ClosedReported | src/lib.rs:407-446 | a receive begun or polled on a closed channel with everything taken is about to report Closed within 5 own steps unless something is claimed meanwhile, and on the way does not register, wait or try again |
| ChannelProgress.ClosedReportedLate | src/lib.rs:853-884 | a receive already under way then, whatever it is at, is about to report Closed within 7 own steps, or has parked |
| ChannelProgress.ReceiveSleeps | src/lib.rs:828-886 | on an open channel with everything taken a receive has parked, or try_recv returned, within 9 own steps unless something is claimed or the channel closed meanwhile |
| ChannelOrder.AlwaysInOrder | src/lib.rs:227-254 | in every state of every run the numbers of both lists increase from front to back, and all were given out |
| ChannelOrder.FirstComeFirstWoken | src/lib.rs:265-339 | no step takes an entry out of a list and leaves one registered earlier in it, but for the entry's own task giving it up |
| ChannelWakeups.NotifyGrants | src/lib.rs:287-339 | each notification, by a send, a receive, a cancellation or a close, takes the longest waiting out, as many as it is for or all there are, has them woken in that order, and adds that many outstanding wake-ups |
| ChannelWakeups.WokenIsExact | src/lib.rs:300-302 | a task counts as woken exactly if some step has woken it since it last began or polled a future |
| ChannelTheorems.NoStrandedSender | src/lib.rs:752-797 | in an open bounded channel with no operation in flight and no woken send unpolled, a non-empty sender list means the queue is exactly full |
| ChannelTheorems.FreeSlotsCovered | src/lib.rs:752-797 | at every moment of an open bounded channel, while a sender sleeps beyond the notifications due, the free slots are at most the outstanding wake-ups |
| ChannelTheorems.CancelKeepsWakeups | src/lib.rs:740-744 | every step of dropping a send or a receive, from the drop on, leaves the queue and the other side's list unchanged and the number of outstanding wake-ups of its side the same, unless the one passed on finds nobody waiting; else that one goes to the longest waiter |
| ChannelTheorems.NoLostWakeup | src/mpsc.rs:206-250 | if the exclusive receiver's future is parked and not woken and no send or close is in flight, the channel is open and holds no claimed value |
| ChannelTheorems.SleepsWhenDrained | src/lib.rs:860-884 | a parked receiver that did not wake itself has everything below its snapshot taken |
| ChannelTheorems.LaterClaimsHeard | src/lib.rs:849-884 | every claim after a parked receiver's snapshot, while its entry stays listed, has not sampled yet or found the list non-empty and has notified or is about to |
| ChannelTheorems.DrainBeforeClosed | src/lib.rs:424-446 | a receive decides on Closed only at a moment when everything claimed is taken, so everything claimed while the channel was open was taken before |
| ChannelTheorems.CloseWakesAll | src/lib.rs:372-381 | once a close has run to its end every parked future is woken or about to be |
| ChannelTheorems.EntriesAreLive | src/lib.rs:207-285 | every entry of either list is the one registration its task's future still holds, and no task or number is listed twice |
| ChannelTheorems.UsesQueue | src/lib.rs:384-432 | the channel changes its queue only by the simple queue's operations, within their preconditions |
| SoloSpec.BatchIsSingles | src/mpsc.rs:132-147 | a batch leaves what as many single receives leave, each with its own notification: values, head, chain, pool, sender list and wake-ups in order |
| SoloSpec.SinglesExact | src/mpsc.rs:109-130 | a series of receives delivers the values of consecutive positions from the old head, stops only at its limit or at an unwritten position, and leaves the head just after them |
| SoloSpec.SinglesAdd | src/mpsc.rs:121-129 | two series in a row are one series of their combined length |
| SoloReceivers.Receiver.MoveHead | src/queue.rs:876-896 | the head moves over values of its block, into the next block past the last one, and the old block goes to the pool |
| SoloReceivers.Receiver.PopSingle | src/queue.rs:862-896 | the head's value if its slot is written, one step of the head, and whether senders wait |
| SoloReceivers.Receiver.PopSingleBatch | src/queue.rs:914-960 | the written run of the head's block up to the limit goes to the buffer's end with one head update |
| SoloReceivers.StateWhenEmpty | src/lib.rs:438-446 | an attempt that found nothing says Empty exactly if the channel is open, and Closed exactly if it is closed and no value position is left between head and tail |
| SoloReceivers.Receiver.TryRecvNonblocking | src/mpsc.rs:65-79 | one receive and its notification, as specified on values; with nothing at the head, that verdict |
| SoloReceivers.Receiver.TryRecvManyReady | src/mpsc.rs:132-147 | one batch and its notification, as specified on values |
| SoloReceivers.Recv.Poll | src/mpsc.rs:206-250 | a poll gives up its registration and takes one value; with nothing there it is over exactly if the channel is closed and drained, and else parks under a new entry at the end of the list, waking itself exactly if claimed values are still to be published |
| SoloReceivers.Recv.Cancel | src/mpsc.rs:197-201 | a dropped future takes its entry out, or wakes the longest waiter if the entry was gone, and leaves the queue alone |
| SoloReceivers.Receiver.PollMany | src/mpsc.rs:118-129 | a poll of the wait for the first value takes what a series of single receives would; with nothing there it takes nothing, and fails or parks as that poll does |
| SoloReceivers.Receiver.RecvMany | src/mpsc.rs:109-130 | recv_many up to its first wait does what a series of up to limit single receives does, keeps the buffer's contents in front, returns at once for a limit of zero, fails exactly if the channel is closed and drained before anything is taken, and else comes back with the parked future |
| SoloQueues.Queue.Push | src/queue.rs:536-576 | a value is appended, or refused exactly when the stored values reach the capacity |
| SoloQueues.Queue.Claim | src/queue.rs:632-675 | the capacity check against the cached and then the real head refuses exactly at the capacity; the sentinel under the tail is skipped |
| SoloQueues.Queue.TakeBlock | src/queue.rs:477-508 | a block for the chain is the spare, the last ready one or a new one, leaves the pool, and carries no state word of a lap to come |
| SoloQueues.Queue.InstallNext | src/queue.rs:760-774 | the new block is linked behind the last one with the next lap's start and becomes tail.block |
| SoloQueues.Queue.TryRecv | src/mpsc.rs:83-94 | a receive takes the oldest value stored; if there is none it says Closed or Empty as the channel is closed or open, and is never busy |
| SoloQueues.Queue.RecvMany | src/mpsc.rs:109-130 | min(limit, stored) values, the oldest first, go to the buffer's end; with none stored it takes nothing, and fails if the channel is closed, or parks without waking itself otherwise |
| SoloQueues.SinglesDeliver | src/mpsc.rs:109-130 | a series of receives delivers the front of the contents, as much as the limit allows, and the rest stays |

## Left out

- Memory orderings, release sequences and fences: steps are sequentially consistent.
- The alternative publish and mark variants behind cfg flags, cache padding, pointer layout, allocation failure.
- Backoff, spinning and yielding: a bounded wait is a choice to try again or to give up; the contention hint that selects fetch-and-add or compare-exchange is a choice of the step, so both are covered in any mix.
- Wrap-around of index words: positions are unbounded.
- Executors and wakers: waking sets a flag that the next poll clears; futures are polled or dropped, not leaked.
- Freedom from stranded waiters for several receivers: not claimed, since a receive that leaves by waking itself stays registered (src/lib.rs:880-882) and its next poll drops that registration without forwarding (src/lib.rs:835).
- The race of a send that saw the channel open during a close (src/lib.rs:385-391): the send may succeed; nothing is claimed about when its value is received.
- Error types, formatting, handle counts (a last handle dropped is a close), len, debug output.
- The concurrent queue and channel are on values, not objects: an interleaving needs the whole state in hand at every step; the classes model the operations run one after another.
- The walk of the block lookup in `SoloQueues`: run one after another, pushes always find the tail's block at once; the walk is in the step machine.
- The scan of the retired list under the pool's lock is one step, and may miss a block whose readers are done.
- The samples of the waiting counters are steps of the channel, not of the block queue.
- The classes run one operation after another: what other threads do between the two attempts of `SoloReceivers.Recv.Poll`, to the queue, the closed flag or the list, is in the machine of the channel; the flag and the tail the receiver reads are parameters.
- Fairness: the bounds count an operation's own steps, those of the claim and take loops without compare-exchanges that fail by themselves; that a thread, an installer between its stores among them, takes steps at all is up to the scheduler.
- The two loads of a slot state at the start of a batch are one step.
- A receive attempt of the channel model may find nothing at any time; in the block queue `NoneIsExact` and `BusyIsExact` say exactly when it does.
- That the cached head is stored after a look at the real one (src/queue.rs:660): it saves reads and changes no answer.
- Freeing memory: destruction returns the list of blocks released and the list of values dropped.
