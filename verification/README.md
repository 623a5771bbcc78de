# Verified model of the KKNet2 reactor

A Dafny model of the parts of KKNet2 where state, order and lifetime interact, with proofs over all
inputs and all runs.  `dafny verify dfyconfig.toml` checks the whole project.

- **Buffer.** `KBuffer` is a byte queue in a doubly linked chain of 1024-byte blocks, with two
  cursors, four counters, growth on demand and rotation of consumed blocks.  `Chain.dfy` has the
  blocks and the loops over them, `KBuffer.dfy` the class; each method does to the heap what the
  function of the same name in `BufferSpec.dfy` does on values.  `ByteQueue.dfy` proves that whole
  runs refine a plain queue of bytes, for buffers fed by `write` and for buffers fed by `readFd`,
  that mixing the two does not work, and the line round trip of `getLine`.
- **Timers.** `TimerSpec.dfy`, `TimerRuns.dfy` and `TimerTheorems.dfy`: two indexes over timers that
  are allocated and freed by hand, at addresses that may be reused, with callbacks that are
  arbitrary lists of add and cancel commands.  Ownership, firing discipline, arming and, in
  `TimerCallbacks.dfy`, exactly which timers a wakeup and a run leave scheduled are proved over all
  runs; `TimerLife.dfy` follows one timer from its allocation through its first firing.
  `TimerQueue.dfy` is the class, `OrderedSet.dfy` its ordered set.
- **Blocking queue.** `BlockingQueue.dfy`: a monitor with two condition variables, any number of
  threads and spurious wakeups; first in, first out from the calls of `put` to those of `take`, no
  lost wakeup, no deadlock.
- **Connection output.** `Connection.dfy`: direct sends, the output buffer, write events and
  shutdown; the class works over a real `KBuffer`.
- **Descriptor ownership.** `Server.dfy` and `PollSelect.dfy`: the server's map, the pollers and
  task lists of any number of event loops, references held by user code, and a kernel that hands
  descriptor numbers out again.
- **Event loop, idle wheel, connector.** `Eventloop.dfy`, `TimeWheel.dfy`, `ClientConnector.dfy`.

Where a function on values and a class method have the same name, the method's contract says that it
takes the heap from a state with one value to a state with the function's value; what that value is
good for is stated by the lemmas in the table.

Results about the code that its comments do not tell:

- `move_head` is sound if and only if the read cursor's block does not lie after the write cursor's
  (`BufferSpec.MoveHeadSoundIff`).  A buffer filled by `readFd` to exactly the end of a block that is
  not the last, then drained, is outside that condition, and a later direct `write` that rotates
  corrupts the counters (`ByteQueue.BoundaryStopBreaks`); so does a drain after a write that was
  rejected when consumed blocks had been put behind a write cursor at the very end
  (`ByteQueue.LateRejectionBreaks`).
- A send whose remainder the output buffer rejects leaves the connection writing with nothing to
  write, for ever (`ConnectionSpec.SendWedgesIff`, `ConnectionSpec.WedgedForever`), and a first send
  can be such a one (`ConnectionSpec.WedgeReachable`).
- `PollSelect` stays fit for `wait` if and only if no event operation names an absent descriptor
  (`PollSpec.NoNullEventIff`); a connection closed again after `connectDestroyed` does so
  (`ServerSpec.SecondCloseLeavesNull`, reached by `ServerSpec.NullEntryReachable`).
- A connector that begins an attempt while another is under way loses the first socket, and only
  then (`ConnectorSpec.StepAccountedIff`); one that gets an attempt under way ahead of a queued
  `resetChannel` loses the handler the poll points to, and only then
  (`ConnectorSpec.StepKeepsHandlerIff`, `ConnectorSpec.LateResetKillsHandler`).

## Model

| member | source | states |
|---|---|---|
| `BufferSpec.BlockOrder` | src/reactor/KBuffer.cpp:224-248 | in a sound buffer the read block is at most one past the write block, only at a shared block boundary with nothing to read, and never so in normal form |
| `BufferSpec.MoveHeadKeeps` | src/reactor/KBuffer.cpp:233-248 | rotating consumed blocks to the tail keeps the readable bytes and the invariant, only permutes the chain, and makes writable exactly what was reclaimable |
| `BufferSpec.MoveHeadSoundIff` | src/reactor/KBuffer.cpp:233-248 | `move_head` leaves a sound buffer if and only if the read block does not lie after the write block |
| `BufferSpec.DoWriteKeeps` | src/reactor/KBuffer.cpp:183-231 | appends exactly the given bytes, keeps the accounting and restores normal form |
| `BufferSpec.MakeSpaceKeeps` | src/reactor/KBuffer.cpp:284-314 | adds at least the requested space, changes no readable byte, and stays within the capacity bound 2 * MAX_BLOCK_SIZE - BLOCK_SIZE |
| `BufferSpec.BlocksForBound` | src/reactor/KBuffer.cpp:286-307 | the number of new blocks covers the size and wastes less than one block |
| `BufferSpec.WriteGrownKeeps` | src/reactor/KBuffer.cpp:165-178 | after rotation: either rejects without further change or grows and appends everything |
| `BufferSpec.WriteKeeps` | src/reactor/KBuffer.cpp:147-181 | the returned count is all or nothing, all exactly when the bytes fit into what can be reclaimed or the buffer may grow for them; the queue gains exactly that many bytes; an early rejection changes nothing; normal form is lost only by a late rejection |
| `BufferSpec.RetrieveKeeps` | src/reactor/KBuffer.cpp:315-359 | drops exactly the first min(size, readable) bytes and leaves the write side alone |
| `BufferSpec.FilledKeeps` | src/reactor/KBuffer.cpp:89-97 | the overflow branch of `readFd` restores normal form before it writes |
| `BufferSpec.FillKeeps` | src/reactor/KBuffer.cpp:61-88 | a read that fits into the free space appends exactly the delivered bytes, in the write block, at a block boundary or blocks further on |
| `BufferSpec.OverflowKeeps` | src/reactor/KBuffer.cpp:89-100 | a read into the overflow area appends what fitted into the chain and then what the write accepts |
| `BufferSpec.ReadFdKeeps` | src/reactor/KBuffer.cpp:25-103 | from every sound state the queue gains exactly the first `ret` delivered bytes; fewer than delivered only when the buffer can neither reclaim nor grow |
| `BufferSpec.FirstNewline` | src/reactor/KBuffer.cpp:263-278 | the index is that of the first newline, or the end |
| `ByteQueue.StepRefinesQueue` | src/reactor/KBuffer.cpp:25-282 | each operation, called as `write` needs, does and answers what a byte queue may |
| `ByteQueue.RunRefinesQueue` | src/reactor/KBuffer.cpp:25-282 | so does every permitted run, operation by operation |
| `ByteQueue.NormalStep` | src/reactor/KBuffer.cpp:147-248 | a write-fed buffer stays in normal form, which is all that later writes need |
| `BufferSpec.WriteNormalIff` | src/reactor/KBuffer.cpp:147-181 | a write loses normal form exactly when it is rejected after consumed blocks were put behind a write cursor at the very end |
| `ByteQueue.WriteFedPermitted` | src/reactor/KBuffer.cpp:147-181 | every write-fed run in which no write loses normal form is permitted, late rejections included |
| `ByteQueue.WriteFedRefinesQueue` | src/reactor/KBuffer.cpp:105-248 | every such run refines a byte queue; used + readable + writable = buflen = the bytes of all blocks, within the bound, and the cursors stay in order |
| `ByteQueue.ReadFdFedPermitted` | src/reactor/KBuffer.cpp:25-103 | every run of `readFd`, `peek`, `read`, `retrieve` and `getLine` is permitted, even with the read cursor one block past the write cursor |
| `ByteQueue.ReadFdFedRefinesQueue` | src/reactor/KBuffer.cpp:25-103 | every such run refines a byte queue, with the same accounting and bound |
| `ByteQueue.EmptyIsNormal` | src/reactor/KBuffer.cpp:6-11 | a new buffer is in normal form and holds nothing, so both disciplines may start there |
| `ByteQueue.BoundaryStopBreaks` | src/reactor/KBuffer.cpp:66-81 | the two disciplines do not mix: from every sound buffer with a spare block, `readFd` stopping at the block end and a full drain leave a buffer in which every write that rotates is outside the contract of `move_head` |
| `ByteQueue.GrowthLeavesSpareBlock` | src/reactor/KBuffer.cpp:165-178 | when a growing write leaves such a spare block |
| `ByteQueue.SpareBlockReachable` | src/reactor/KBuffer.cpp:284-314 | such a buffer is reached from an empty one by two accepted writes |
| `ByteQueue.LateRejectionBreaks` | src/reactor/KBuffer.cpp:167-171 | nor is the excluded rejection harmless: from every normal buffer, it and a full drain leave the same outside the contract of `move_head` |
| `ByteQueue.LateRejectionReachable` | src/reactor/KBuffer.cpp:167-171 | it is reached from an empty buffer by writes and reads alone |
| `ByteQueue.NextLineIsFirst` | src/reactor/KBuffer.cpp:250-282 | `getLine` finds the shortest prefix that ends with a newline, and fails if and only if there is no newline |
| `ByteQueue.LinesConserveBytes` | src/reactor/KBuffer.cpp:250-282 | what came in equals what `getLine` handed out followed by what is left, over every run that consumes by `getLine` |
| `ByteQueue.OnlyLinesOut` | src/reactor/KBuffer.cpp:250-282 | and what it handed out are newline-terminated lines |
| `ByteQueue.LinesUnique` | src/reactor/KBuffer.cpp:250-282 | text splits into newline-terminated lines in one way only |
| `ByteQueue.LineRoundTrip` | src/reactor/KBuffer.cpp:250-282 | newline-joined lines, arriving in any fragmentation, come back unchanged, one by one and in order, with the rest left in the buffer |
| `BlockChains.CopyOut` | src/reactor/KBuffer.cpp:105-145 | the `peek` loop copies the bytes from the read cursor across block ends and never walks off the chain |
| `BlockChains.FindNewline` | src/reactor/KBuffer.cpp:250-278 | the `getLine` scan stops at the first newline of the readable bytes or at their end |
| `BlockChains.FillChain` | src/reactor/KBuffer.cpp:183-221 | the `do_write` loop overwrites exactly the bytes after the write cursor and says where it ends |
| `BlockChains.StepOver` | src/reactor/KBuffer.cpp:351-357 | the end of a block that has a next one becomes the start of that one, the canonical cursor of the position |
| `BlockChains.FreeSpace` | src/reactor/KBuffer.cpp:28-51 | the vector for `readv` is the free space from the write cursor to the tail, block by block |
| `BlockChains.Scatter` | src/reactor/KBuffer.cpp:53 | `readv` fills that vector in order and puts the rest into the extra area |
| `BlockChains.Rotate` | src/reactor/KBuffer.cpp:233-248 | the pointer updates leave `last` and `next` mirroring each other in the rotated order |
| `BlockChains.AppendBlock` | src/reactor/KBuffer.cpp:289-300 | a new zeroed block is linked behind the tail both ways |
| `BlockChains.GrowChain` | src/reactor/KBuffer.cpp:286-308 | the `makeSpace` loop appends exactly the blocks needed |
| `KBuffers.KBuffer.constructor` | src/reactor/KBuffer.cpp:6-11 | an empty, valid buffer |
| `KBuffers.KBuffer.Peek` | src/reactor/KBuffer.cpp:105-145 | copies out min(size, readable) bytes of the queue, changes nothing else |
| `KBuffers.KBuffer.Advance` | src/reactor/KBuffer.cpp:320-350 | the `retrieve` walk ends at the position size bytes on |
| `KBuffers.KBuffer.Retrieve` | src/reactor/KBuffer.cpp:315-359 | does to the heap what BufferSpec.Retrieve says |
| `KBuffers.KBuffer.Read` | src/reactor/KBuffer.h:49-53 | `peek` then `retrieve` |
| `KBuffers.KBuffer.GetLine` | src/reactor/KBuffer.cpp:250-282 | true exactly when a newline is readable, then the line is copied out and dropped; otherwise buffer and destination are unchanged |
| `KBuffers.KBuffer.DoWrite` | src/reactor/KBuffer.cpp:183-231 | does to the heap what BufferSpec.DoWrite says |
| `KBuffers.KBuffer.MoveHead` | src/reactor/KBuffer.cpp:233-248 | does to the heap what BufferSpec.MoveHead says, given the cursor order |
| `KBuffers.KBuffer.MakeSpace` | src/reactor/KBuffer.cpp:284-314 | does to the heap what BufferSpec.MakeSpace says |
| `KBuffers.KBuffer.WriteGrown` | src/reactor/KBuffer.cpp:165-178 | does to the heap what BufferSpec.WriteGrown says |
| `KBuffers.KBuffer.Write` | src/reactor/KBuffer.cpp:147-181 | new state and returned count are those of BufferSpec.Write; the unsigned subtractions never wrap round |
| `KBuffers.KBuffer.Landing` | src/reactor/KBuffer.cpp:72-81 | the division finds the block and offset of the position, a full block written as its own end |
| `KBuffers.KBuffer.Fill` | src/reactor/KBuffer.cpp:61-88 | the cursor of `readFd` within the free space |
| `KBuffers.KBuffer.Receive` | src/reactor/KBuffer.cpp:53-100 | both branches of `readFd` for delivered bytes |
| `KBuffers.KBuffer.FillUp` | src/reactor/KBuffer.cpp:91-97 | the cursor of the overflow branch |
| `KBuffers.KBuffer.Overflow` | src/reactor/KBuffer.cpp:89-100 | filled chain, then a write of the overflow area |
| `KBuffers.KBuffer.ReadFd` | src/reactor/KBuffer.cpp:25-103 | new state and returned count are those of BufferSpec.ReadFd; an error changes nothing |
| `OrderedSet.InsertMembers` | src/reactor/TimeEvent.cpp:202-203 | insert adds exactly the pair |
| `OrderedSet.InsertSorted` | src/reactor/TimeEvent.cpp:192-204 | insert keeps the order; the first pair is the new one exactly when it is the earliest |
| `OrderedSet.EraseMembers` | src/reactor/TimeEvent.cpp:117 | erase removes exactly the pair |
| `OrderedSet.EraseSorted` | src/reactor/TimeEvent.cpp:117 | erase keeps the order |
| `OrderedSet.ExpiredSplits` | src/reactor/TimeEvent.cpp:147-150 | the lower bound of (now, largest address) separates deadlines at most now from later ones |
| `TimerSpec.NewKeeps` | src/reactor/TimeEvent.cpp:88-93 | allocating a timer at any free address, reused or not, keeps the invariant; under which time and interval it is then scheduled is TimerLife.AddedIsScheduled |
| `TimerSpec.InsertKeeps` | src/reactor/TimeEvent.cpp:192-211 | insertion puts the timer into both indexes |
| `TimerSpec.AddKeeps` | src/reactor/TimeEvent.cpp:101-108 | the queued insertion keeps the invariant |
| `TimerSpec.CancelKeeps` | src/reactor/TimeEvent.cpp:110-126 | a cancel keeps the invariant |
| `TimerSpec.RunKeeps` | src/reactor/TimeEvent.cpp:88-126 | every command keeps the invariant, between wakeups and inside callbacks |
| `TimerSpec.GetExpiredKeeps` | src/reactor/TimeEvent.cpp:144-159 | exactly the timers with deadline at most now leave both indexes and form the batch, in order |
| `TimerSpec.ResetOneKeeps` | src/reactor/TimeEvent.cpp:165-179 | each timer of the batch is re-inserted or freed |
| `TimerSpec.RunBatch` | src/reactor/TimeEvent.cpp:135-138 | the batch stays live and owned through callbacks that re-enter the queue |
| `TimerSpec.ResetAll` | src/reactor/TimeEvent.cpp:161-179 | after `reset` nothing is left outside the indexes but pending timers |
| `TimerSpec.HandleRead` | src/reactor/TimeEvent.cpp:128-142 | a whole wakeup keeps the invariant |
| `TimerRuns.RunEvents` | src/reactor/TimeEvent.cpp:88-211 | so does every run of commands and wakeups |
| `TimerRuns.CommandSince` | src/reactor/TimeEvent.cpp:88-126 | a command fires nothing, changes no live timer and leaves the batch alone |
| `TimerRuns.BatchSince` | src/reactor/TimeEvent.cpp:135-138 | whatever callbacks do, a batch runs each of its timers once, in order, and leaves them as they were until `reset` |
| `TimerRuns.ResetSettles` | src/reactor/TimeEvent.cpp:161-179 | a timer of the batch is restarted one interval after now if it repeats and was not cancelled; otherwise it is freed for good; no other timer is touched |
| `TimerRuns.WakeupEffect` | src/reactor/TimeEvent.cpp:128-190 | what a wakeup fires, and that what is live after it is new, untouched, or restarted; which of these is TimerCallbacks.WakeupOutcome |
| `TimerRuns.FiringDiscipline` | src/reactor/TimeEvent.cpp:128-159 | a wakeup runs exactly the timers due, once each, in deadline order, and none that its callbacks added |
| `TimerTheorems.CancelExact` | src/reactor/TimeEvent.cpp:110-126 | a cancel removes exactly the timer it names; a stale id never removes another timer at the same address |
| `TimerTheorems.OwnershipOverRuns` | src/reactor/TimeEvent.cpp:88-211 | over every run: each timer is freed at most once, no freed timer is referred to, and the two indexes hold the same live timers |
| `TimerTheorems.OwnershipInCallbacks` | src/reactor/TimeEvent.cpp:128-142 | the same after any number of callbacks of a batch, whose timers are live, unchanged and in neither index |
| `TimerTheorems.CancelActiveKills` | src/reactor/TimeEvent.cpp:115-120 | cancelling a scheduled timer frees it, and no live timer has its sequence number |
| `TimerTheorems.DeadThroughWakeup` | src/reactor/TimeEvent.cpp:128-190 | a freed timer is neither run nor brought back by a wakeup |
| `TimerTheorems.DeadForever` | src/reactor/TimeEvent.cpp:88-211 | nor by any later run |
| `TimerTheorems.CancelledNeverRuns` | src/reactor/TimeEvent.cpp:110-190 | a timer cancelled while scheduled never runs again |
| `TimerTheorems.ScheduledThenCancelled` | src/reactor/TimeEvent.cpp:110-190 | a timer scheduled when a wakeup starts and cancelled by one of its callbacks is gone after it and never runs again |
| `TimerCallbacks.NotCancelledRunsItsCourse` | src/reactor/TimeEvent.cpp:128-190 | one that no callback cancels stays as it is if not due, is scheduled an interval from now if it repeats, and is gone if it was a due one-shot |
| `TimerCallbacks.WakeupOutcome` | src/reactor/TimeEvent.cpp:110-190 | a timer scheduled before a wakeup is scheduled after it if and only if no callback cancels that very timer and it is not due or repeats |
| `TimerCallbacks.CallbackOutcome` | src/reactor/TimeEvent.cpp:110-190 | a timer scheduled at any point inside a wakeup, also one that a callback added, is not run by it, and is scheduled after it if and only if no later command of it cancels it; otherwise it is gone |
| `TimerCallbacks.CancelledInCallback` | src/reactor/TimeEvent.cpp:110-190 | whatever inserted timer a callback cancels, of the batch, scheduled before, or added by the same wakeup: it is gone after the wakeup and never runs again |
| `TimerCallbacks.StepFate` | src/reactor/TimeEvent.cpp:88-190 | what one command or wakeup makes of a scheduled timer |
| `TimerCallbacks.NoTimerLost` | src/reactor/TimeEvent.cpp:88-211 | no timer is lost over any run: a repeating timer stays scheduled if and only if no cancel of it was executed, a one-shot if and only if moreover it did not fire |
| `TimerTheorems.HistoryAfterWakeup` | src/reactor/TimeEvent.cpp:128-190 | a wakeup keeps the spacing of firings |
| `TimerTheorems.FiringsSpaced` | src/reactor/TimeEvent.cpp:11-190 | over runs, a one-shot timer fires at most once and firings of a repeating timer are at least its interval apart |
| `TimerTheorems.CommandArms` | src/reactor/TimeEvent.cpp:34-126 | add and cancel keep the timerfd armed in time, if it was |
| `TimerTheorems.ArmedExactly` | src/reactor/TimeEvent.cpp:34-64 | arming is for the deadline, or for 100 microseconds from now if that is later |
| `TimerTheorems.CommandArmsExactly` | src/reactor/TimeEvent.cpp:101-126 | an insertion arms the timerfd for the new timer exactly when that becomes the earliest; no other command touches it |
| `TimerTheorems.HandlerArms` | src/reactor/TimeEvent.cpp:161-190 | a wakeup that leaves a valid earliest deadline arms for exactly that, or for 100 microseconds from now if that is later |
| `TimerTheorems.HandlerFd` | src/reactor/TimeEvent.cpp:128-190 | what a wakeup without commands leaves armed in every case, a deadline that is not valid included |
| `TimerTheorems.AlwaysArmed` | src/reactor/TimeEvent.cpp:34-211 | over runs with positive deadlines: outside the handler the timerfd is armed, or has expired unread, no later than max(earliest deadline, arming time + 100 microseconds) |
| `TimerTheorems.NewQueueIsSound` | src/reactor/TimeEvent.cpp:66-75 | a new queue meets what these theorems ask of the start |
| `TimerLife.RunWaits` | src/reactor/TimeEvent.cpp:88-126 | a timer whose insertion is still queued stays as it was allocated, through any run of commands and wakeups |
| `TimerLife.AddedIsScheduled` | src/reactor/TimeEvent.cpp:88-108 | a timer allocated at any free address is, once its queued insertion has run, active under the next sequence number and scheduled for the time and interval it was given, whatever commands and wakeups came in between |
| `TimerLife.AddedByCallback` | src/reactor/TimeEvent.cpp:88-190 | a timer that a callback allocates and inserts is not run by that wakeup, and is scheduled after it under the time and interval it was given if and only if no later command of the wakeup cancels it |
| `TimerLife.DueIsFired` | src/reactor/TimeEvent.cpp:128-159 | a wakeup runs every timer scheduled when it starts whose deadline is reached, for that deadline |
| `TimerLife.LifeOfTimer` | src/reactor/TimeEvent.cpp:88-190 | from `new Timer` on, unless cancelled: a wakeup before its time leaves it scheduled as asked; the first wakeup that reads the time or later runs it for that deadline, and schedules it for now + interval if and only if the interval is positive |
| `TimerQueues.TimerQueue.constructor` | src/reactor/TimeEvent.cpp:66-75 | empty indexes, flag down |
| `TimerQueues.TimerQueue.NewTimer` | src/reactor/TimeEvent.h:13-18 | new state as specified, under the next sequence number; TimerLife.AddedIsScheduled is about that state |
| `TimerQueues.TimerQueue.Insert` | src/reactor/TimeEvent.cpp:192-211 | new state as specified, and whether the earliest deadline changed |
| `TimerQueues.TimerQueue.AddTimerInLoop` | src/reactor/TimeEvent.cpp:101-108 | new state as specified |
| `TimerQueues.TimerQueue.CancelInLoop` | src/reactor/TimeEvent.cpp:110-126 | new state as specified; frees only a live timer |
| `TimerQueues.TimerQueue.GetExpired` | src/reactor/TimeEvent.cpp:144-159 | new state and batch as specified |
| `TimerQueues.TimerQueue.RunScript` | src/reactor/TimeEvent.cpp:135-138 | runs any list of commands inside a callback |
| `TimerQueues.TimerQueue.HandleRead` | src/reactor/TimeEvent.cpp:128-142 | new state as specified, sound again |
| `TimerQueues.TimerQueue.Reset` | src/reactor/TimeEvent.cpp:161-190 | new state as specified, sound again |
| `TimerQueues.TimerQueue.Restart` | src/reactor/TimeEvent.cpp:11-21 | new time as specified |
| `BlockingQueues.LockingKept` | src/util/BlockingQueue.h:13-41 | exactly the thread inside holds the mutex |
| `BlockingQueues.ItemsKept` | src/util/BlockingQueue.h:28-41 | no step other than a notify loses an item: an unsignalled waiting consumer implies as many consumers on their way as there are items |
| `BlockingQueues.SlotsKept` | src/util/BlockingQueue.h:13-27 | the same for free slots and producers |
| `BlockingQueues.CountsKept` | src/util/BlockingQueue.h:13-41 | nor does a notify |
| `BlockingQueues.RunKeepsInv` | src/util/BlockingQueue.h:13-41 | the invariant holds in every run of any number of threads, with spurious wakeups |
| `BlockingQueues.NoLostWakeup` | src/util/BlockingQueue.h:13-41 | with the mutex free, an unsignalled waiting consumer implies size <= signalled consumers, an unsignalled waiting producer implies free slots <= signalled producers; the queue is never above the maximum |
| `BlockingQueues.NeverBothStuck` | src/util/BlockingQueue.h:13-41 | no deadlock: with all threads outside or waiting, consumers wait only for an empty queue and producers only for a full one, never both |
| `BlockingQueues.SomeoneCanMove` | src/util/BlockingQueue.h:13-41 | while a thread is on its way, some thread can move without a new call or a spurious wakeup |
| `BlockingQueues.WaitsIff` | src/util/BlockingQueue.h:16-22 | a producer waits exactly when a positive maximum is reached; zero and, below 2^63 items, a negative maximum are no limit |
| `BlockingQueues.OneReturnPerCall` | src/util/BlockingQueue.h:13-41 | each call locks the mutex anew once and returns once |
| `BlockingQueues.StepConserves` | src/util/BlockingQueue.h:13-41 | every step: what was on its way out or queued, then what the step inserts, is what the step returns from `take`, then what is on its way out or queued |
| `BlockingQueues.StepInserts` | src/util/BlockingQueue.h:13-27 | every step: what a thread is to insert, then what it gives to `put`, is what it inserts, then what it is still to insert |
| `BlockingQueues.FirstInFirstOut` | src/util/BlockingQueue.h:13-41 | over every run, read off the calls alone: what was inserted is what the calls of `take` returned, in order, then the item on its way out, then the queue; and what each thread inserted is what it gave to its own calls of `put`, each once and in order, but for the one it still waits to insert |
| `ConnectionSpec.SendAccepts` | src/reactor/Connection.cpp:139-173 | a send is accepted whole unless the socket fails for good or the buffer rejects the rest; a send while writing is dropped |
| `ConnectionSpec.SendKeepsInv` | src/reactor/Connection.cpp:139-173 | a send keeps the output invariant |
| `ConnectionSpec.DrainSettles` | src/reactor/Connection.cpp:176-198 | writing stops exactly when the last buffered byte goes out; then everything accepted is on the wire and a pending shutdown is carried out, and not before |
| `ConnectionSpec.HandleWriteKeepsInv` | src/reactor/Connection.cpp:176-198 | a write event keeps the output invariant, whatever prefix it offers; how far it gets is WriteTakes |
| `ConnectionSpec.WriteTakes` | src/reactor/Connection.cpp:176-198 | a write event puts exactly the bytes that the socket took, off the front of the buffer, onto the wire, and keeps the rest buffered; when not writing it does nothing |
| `ConnectionSpec.StepKeepsInv` | src/reactor/Connection.cpp:29-198 | every event keeps it |
| `ConnectionSpec.Run` | src/reactor/Connection.cpp:29-198 | so does every run |
| `ConnectionSpec.StreamSafety` | src/reactor/Connection.cpp:99-198 | safety over every run: wire followed by buffer is what was accepted; buffered bytes imply writing; shutdownWrite never comes before all accepted bytes are out; what moves is WireGrows |
| `ConnectionSpec.StepGrowsWire` | src/reactor/Connection.cpp:139-198 | every event extends the wire by as many bytes as the socket reports taking at it, and takes back nothing accepted |
| `ConnectionSpec.WireGrows` | src/reactor/Connection.cpp:139-198 | so over every run the wire grows by exactly what the socket reported taking |
| `ConnectionSpec.ShutdownOfConnected` | src/reactor/Connection.cpp:99-114 | a shutdown of a connection in use issues exactly one shutdownWrite if it is idle, at once or by the queued task, and none while it is writing; it touches nothing else |
| `ConnectionSpec.PhaseChanges` | src/reactor/Connection.cpp:29-123 | completion makes a connection usable; only then do shutdown and forced closing begin anything; a close ends one that was begun; a disconnected connection sends nothing |
| `ConnectionSpec.ShutdownAtDrain` | src/reactor/Connection.cpp:99-198 | a shutdown asked for while writing is carried out by the write event that takes the last byte, once, and by nothing before it |
| `ConnectionSpec.SendWedgesIff` | src/reactor/Connection.cpp:167-172 | a send leaves the connection writing with nothing to write exactly when the buffer rejects what the socket left over |
| `ConnectionSpec.WedgeReachable` | src/reactor/Connection.cpp:167-172 | a new connection gets there with its first send |
| `ConnectionSpec.WedgedForever` | src/reactor/Connection.cpp:148-198 | and then it accepts and sends nothing ever after |
| `Connections.Connection.constructor` | src/reactor/Connection.cpp:12-22 | a connection with an empty buffer |
| `Connections.Connection.SendInLoop` | src/reactor/Connection.cpp:139-173 | does over a KBuffer on the heap what ConnectionSpec.SendInLoop says |
| `Connections.Connection.HandleWrite` | src/reactor/Connection.cpp:176-198 | does over a KBuffer on the heap what ConnectionSpec.HandleWrite says, of which WriteTakes and DrainSettles are the meaning |
| `Connections.Connection.ShutdownInLoop` | src/reactor/Connection.cpp:108-114 | shuts down unless writing |
| `TimeWheelSpec.PushKeepsInv` | src/reactor/TimeWheel.h:53-56 | a push keeps the window invariant; that it takes effect is SlidingWindow |
| `TimeWheelSpec.OnTimeKeepsInv` | src/reactor/TimeWheel.h:57-65 | a tick keeps it |
| `TimeWheelSpec.DestroyedIsLastPushed` | src/reactor/TimeWheel.h:8-20 | a tick destroys exactly the entries last pushed n ticks before |
| `TimeWheelSpec.ShutIsReleased` | src/reactor/TimeWheel.h:57-65 | what a tick shuts down are the entries that some set held before it and none holds after it |
| `TimeWheelSpec.HistoryOfRun` | src/reactor/TimeWheel.h:53-65 | the recorded history is what the events push between one tick and the next |
| `TimeWheelSpec.SlidingWindow` | src/reactor/TimeWheel.h:39-65 | over every sequence of pushes and ticks, read off that sequence alone: after u ticks an entry is held iff it was pushed at some tick s with s <= u < s + n; tick t shuts down exactly the entries last pushed at tick t - n |
| `TimeWheels.TimeWheel.constructor` | src/reactor/TimeWheel.h:39-52 | builds a ring of max(num, 1) empty sets |
| `TimeWheels.TimeWheel.Push` | src/reactor/TimeWheel.h:53-56 | new ring as specified: the entry is in the current set, the others are unchanged; what that is good for is SlidingWindow |
| `TimeWheels.TimeWheel.OnTime` | src/reactor/TimeWheel.h:57-65 | moves on round the ring and empties the set it arrives at |
| `Eventloops.OrderKept` | src/reactor/Eventloop.cpp:88-116 | every step keeps executed, in flight and waiting tasks in the order of queueing |
| `Eventloops.WakeupKept` | src/reactor/Eventloop.cpp:88-96 | every step keeps the eventfd readable while the loop may poll over a task of its own thread |
| `Eventloops.TasksInOrder` | src/reactor/Eventloop.cpp:48-116 | under every interleaving: executed ++ in flight ++ waiting is the order of queueing, each task runs at most once, and the loop never sleeps on a task its own thread queued since `loop()` began |
| `Eventloops.BatchIsFixed` | src/reactor/Eventloop.cpp:106-116 | one `runTasks` runs only what it found at the swap |
| `Eventloops.RoundRunsAll` | src/reactor/Eventloop.cpp:64-70 | what waits when the poll returns, or when the handlers are done, is all run before the next poll |
| `Eventloops.RoundCompletes` | src/reactor/Eventloop.cpp:48-74 | the loop comes round: from any poll, its own steps alone lead to the next poll, with every waiting task run, in order |
| `Eventloops.WakeupLasts` | src/reactor/Eventloop.cpp:88-96 | once the eventfd is readable it stays so until the loop drains it |
| `Eventloops.QueueingWakes` | src/reactor/Eventloop.cpp:88-96 | queueing by another thread, or by the loop thread while it runs tasks, makes it readable |
| `Eventloops.QueueingAdds` | src/reactor/Eventloop.cpp:88-103 | every queueing adds its one task at the end; only these steps wake, only the drain ends it |
| `Eventloops.EarlyTaskMaySleep` | src/reactor/Eventloop.cpp:88-96 | a task queued before `loop()` gets no wakeup |
| `ConnectorSpec.StepBacksOff` | src/reactor/ClientConnector.cpp:65-102 | every step keeps the delay the next in the doubling sequence |
| `ConnectorSpec.RetriesBackOff` | src/reactor/ClientConnector.cpp:65-102 | in every run the k-th retry since construction or restart waits min(500 * 2^k, 30000) ms |
| `ConnectorSpec.InitialBacksOff` | src/reactor/ClientConnector.cpp:10-14 | a new connector is where these runs start |
| `ConnectorSpec.InitialAccounted` | src/reactor/ClientConnector.cpp:10-14 | and where those of the sockets start |
| `ConnectorSpec.StepAccountedIff` | src/reactor/ClientConnector.cpp:27-63 | a step loses a socket if and only if it begins an attempt while another is under way |
| `ConnectorSpec.SocketLostReachable` | src/reactor/ClientConnector.cpp:21-63 | a new connector gets there with its second `start` |
| `ConnectorSpec.ConnectAccountedIff` | src/reactor/ClientConnector.cpp:39-63 | `connect` keeps every socket accounted for if and only if no attempt is under way |
| `ConnectorSpec.ChannelLeavesPoll` | src/reactor/ClientConnector.cpp:104-108 | after `removeAndResetChannel` nothing is in the poll, the reset is due, and both closing the socket and handing it over settle it |
| `ConnectorSpec.StepExclusive` | src/reactor/ClientConnector.cpp:21-102 | without a start or restart while something is outstanding, at most one of attempt, retry and queued start is outstanding, and no attempt begins during another |
| `ConnectorSpec.EverySocketSettledOnce` | src/reactor/ClientConnector.cpp:39-164 | then in every run each socket but that of the attempt under way was closed or handed over exactly once, never both, after it left the poll |
| `ConnectorSpec.HandedOverIff` | src/reactor/ClientConnector.cpp:115-139 | a socket is handed over exactly when its attempt succeeds and the connector still wants it |
| `ConnectorSpec.RetriedIff` | src/reactor/ClientConnector.cpp:39-102 | a retry is scheduled exactly when an attempt fails and the connector still wants it |
| `ConnectorSpec.StoppedIsQuiet` | src/reactor/ClientConnector.cpp:151-164 | while the connector is not wanted and nobody starts it, no socket is created or handed over and no retry scheduled; that `stop` gets there is StopQuiets |
| `ConnectorSpec.StopQuiets` | src/reactor/ClientConnector.cpp:151-164 | from every state, after `stop` and until the next start or restart, no socket is created or handed over and no retry scheduled or carried out |
| `ConnectorSpec.StopEndsAttempt` | src/reactor/ClientConnector.cpp:157-165 | the queued stop takes an attempt under way out of the poll and closes its socket, and touches nothing else |
| `ConnectorSpec.StartAsks` | src/reactor/ClientConnector.cpp:21-71 | `start` from the loop thread and `restart` begin an attempt on a new socket; `start` from another thread queues one |
| `ConnectorSpec.StartIsCarriedOut` | src/reactor/ClientConnector.cpp:21-63 | unless stopped, a queued start stays until it is run, and running it begins an attempt on a new socket |
| `ConnectorSpec.QueuedRunsOnce` | src/reactor/ClientConnector.cpp:21-164 | every queued start, stop or reset and every scheduled retry is run at most once, and is added only by what asks for it |
| `ConnectorSpec.FailedGivesUp` | src/reactor/ClientConnector.cpp:59-62 | an attempt that fails for good leaves its socket closed, nothing watched or scheduled for it, and everything else alone |
| `ConnectorSpec.StepKeepsHandlerIff` | src/reactor/ClientConnector.cpp:73-113 | a step keeps the handler that the poll points to alive if and only if it does not get an attempt under way ahead of a queued `resetChannel` |
| `ConnectorSpec.HandlerOutlivesPoll` | src/reactor/ClientConnector.cpp:73-113 | so in every disciplined run without such a step the handler that the poll points to is alive |
| `ConnectorSpec.LateResetKillsHandler` | src/reactor/ClientConnector.cpp:104-113 | every such step is fatal: the reset then runs, destroys the handler of the new attempt, and leaves it in the poll |
| `ConnectorSpec.LateResetReachable` | src/reactor/ClientConnector.cpp:104-164 | a new connector gets there by start, stop and start |
| `ClientConnectors.ClientConnector.constructor` | src/reactor/ClientConnector.cpp:10-14 | idle, delay 500 ms, no socket lost |
| `ClientConnectors.ClientConnector.Connect` | src/reactor/ClientConnector.cpp:39-63 | new state as specified for each class of errno; no socket is lost if and only if no attempt was under way |
| `ClientConnectors.ClientConnector.StartInLoop` | src/reactor/ClientConnector.cpp:27-37 | connects only if wanted, with the same condition |
| `ClientConnectors.ClientConnector.Restart` | src/reactor/ClientConnector.cpp:65-71 | resets state and delay, then starts, with the same condition |
| `ClientConnectors.ClientConnector.BeginConnecting` | src/reactor/ClientConnector.cpp:73-85 | registers the handler |
| `ClientConnectors.ClientConnector.Retry` | src/reactor/ClientConnector.cpp:87-102 | closes, schedules, doubles the delay |
| `ClientConnectors.ClientConnector.RemoveAndResetChannel` | src/reactor/ClientConnector.cpp:104-108 | in an attempt: empties the poll, makes the reset due, and readies the socket for being closed or handed over |
| `ClientConnectors.ClientConnector.HandleWrite` | src/reactor/ClientConnector.cpp:115-139 | new state as specified; keeps every socket accounted for and the back-off |
| `ClientConnectors.ClientConnector.HandleError` | src/reactor/ClientConnector.cpp:141-149 | new state as specified; the same |
| `ClientConnectors.ClientConnector.StopInLoop` | src/reactor/ClientConnector.cpp:157-164 | new state as specified; the same |
| `PollSpec.AddFdWatches` | src/reactor/PollSelect.cpp:55-63 | registers the handler, alone under its descriptor |
| `PollSpec.FlagEventWatchesSame` | src/reactor/PollSelect.cpp:65-95 | setting and deleting events changes no registration |
| `PollSpec.DeleteFdUnwatches` | src/reactor/PollSelect.cpp:97-111 | removes exactly that registration |
| `PollSpec.EventsChange` | src/reactor/PollSelect.cpp:55-95 | a new registration wants no event; setting or deleting an event changes that one wish of that one descriptor |
| `PollSpec.NeverReady` | src/reactor/PollSelect.cpp:16-51 | a descriptor is ready exactly when it is reported for something it wants, hence never after all its events were deleted |
| `PollSpec.SelectSeesAll` | src/reactor/PollSelect.cpp:29-111 | in every run all watched descriptors are at most `maxfd_` |
| `PollSpec.MaxfdMoves` | src/reactor/PollSelect.cpp:55-111 | `maxfd_` rises to a larger new descriptor, falls by one when its own is deleted, and stays otherwise |
| `PollSpec.NoNullEventIff` | src/reactor/PollSelect.cpp:65-111 | the table stays free of null entries, which `wait` would follow, exactly when no absent descriptor is looked up |
| `PollSelects.PollSelect.constructor` | src/reactor/PollSelect.h:11 | an empty table |
| `PollSelects.PollSelect.AddFd` | src/reactor/PollSelect.cpp:55-63 | new table as specified |
| `PollSelects.PollSelect.Lookup` | src/reactor/PollSelect.cpp:65-71 | looking up an absent descriptor inserts a null entry and changes nothing else |
| `PollSelects.PollSelect.FlagEvent` | src/reactor/PollSelect.cpp:65-95 | new table as specified, and whether the descriptor was watched |
| `PollSelects.PollSelect.DeleteFd` | src/reactor/PollSelect.cpp:97-111 | new table as specified, and whether the descriptor was watched |
| `PollSelects.PollSelect.Wait` | src/reactor/PollSelect.cpp:18-53 | lists the handlers of exactly the ready descriptors, once each, in ascending order |
| `ServerSpec.EntryIsOwn` | src/reactor/Server.cpp:53-60 | the entry under a live connection's descriptor is its own, so removal never evicts another connection |
| `ServerSpec.RemoveInLoopKeeps` | src/reactor/Server.cpp:53-60 | removal keeps the ownership invariant |
| `ServerSpec.AcceptEvictsNone` | src/reactor/Server.cpp:31-46 | a descriptor the kernel hands out is neither in the map nor watched by any loop |
| `ServerSpec.AcceptRegisters` | src/reactor/Server.cpp:31-46 | a new connection is in the map and watched, or about to be, in its loop |
| `ServerSpec.CompletionWatches` | src/reactor/Connection.cpp:29-43 | `completeConnect` leaves the descriptor watched, for reading only, for this connection |
| `ServerSpec.SwitchSwitches` | src/reactor/Connection.cpp:39-61 | enabling or disabling an event of a watched connection changes that one wish |
| `ServerSpec.AcceptKeeps` | src/reactor/Server.cpp:31-46 | accepting keeps the invariant |
| `ServerSpec.CompleteKeeps` | src/reactor/Connection.cpp:29-43 | completing keeps the invariant |
| `ServerSpec.HandleCloseKeeps` | src/reactor/Connection.cpp:85-92 | closing keeps the invariant, however often it happens |
| `ServerSpec.CloseRemoves` | src/reactor/Server.cpp:48-60 | a close in any loop takes the connection out of the map and queues `connectDestroyed` in its loop, or queues the removal in the acceptor's loop; and its descriptor is never ready again |
| `ServerSpec.RemovalIsExact` | src/reactor/Server.cpp:53-60 | running that removal takes the connection, and no other, out of the map and queues `connectDestroyed` |
| `ServerSpec.DestroyUnwatches` | src/reactor/Connection.cpp:94-97 | running `connectDestroyed` unwatches the descriptor |
| `ServerSpec.DestroyedKeeps` | src/reactor/Connection.cpp:94-97 | `connectDestroyed` keeps the invariant and removes the connection from its poll |
| `ServerSpec.WatchIsOwn` | src/reactor/Connection.cpp:45-62 | operations on a live connection's descriptor never touch another connection's registration, in any loop |
| `ServerSpec.WatchedAlive` | src/reactor/Connection.cpp:29-37 | the connection behind a watched descriptor is alive |
| `ServerSpec.ReadyAlive` | src/reactor/Eventloop.cpp:52-62 | so is the connection behind every handler a loop is about to run |
| `ServerSpec.NextTaskKnown` | src/reactor/Eventloop.cpp:106-116 | every queued task may run: it belongs to a known connection |
| `ServerSpec.WaitCollects` | src/reactor/PollSelect.cpp:29-51 | a poll collects the handlers of exactly the ready descriptors |
| `ServerSpec.TasksMove` | src/reactor/Eventloop.cpp:98-116 | tasks are queued at the end, taken all together, run one after the other and dropped at the end; user code holds what it was handed until it lets go |
| `ServerSpec.InitialInv` | src/reactor/Server.cpp:6-10 | a server without connections meets the invariant |
| `ServerSpec.StepKeepsInv` | src/reactor/Server.cpp:31-60 | every step keeps the invariant, and references come only from references |
| `ServerSpec.DescriptorsOwned` | src/reactor/Server.cpp:31-60 | in every run: live connections have distinct descriptors; watched and about-to-run connection handlers belong to live connections of that loop; connections in the map are watched; removal erases its own entry only |
| `ServerSpec.ClosedOnce` | src/reactor/Connection.cpp:24-27 | a connection without references never gets one again, so its descriptor is closed once, and no poll watches it then |
| `ServerSpec.SecondCloseLeavesNull` | src/reactor/Connection.cpp:85-97 | a close or destroy leaves no null entry exactly when the descriptor is still watched |
| `ServerSpec.NullEntryReachable` | src/reactor/Connection.cpp:85-97 | a new server gets a null entry with one connection that the peer and the close callback both close |
| `Servers.Server.constructor` | src/reactor/Server.cpp:6-10 | no connections |
| `Servers.Server.NewConnection` | src/reactor/Server.cpp:31-46 | new state as specified; the map has the new connection under its descriptor |
| `Servers.Server.CompleteConnect` | src/reactor/Connection.cpp:29-37 | the descriptor becomes watched for this connection, in its loop and nowhere else, and ownership stays intact if the connection was only waiting for this |
| `Servers.Server.RemoveConnection` | src/reactor/Server.cpp:48-51 | runs or queues the removal, by thread |
| `Servers.Server.RemoveConnectionInLoop` | src/reactor/Server.cpp:53-60 | the connection is out of the map and every other entry stays |

## Left out

- KBuffers.KBuffer.Write: requires the cursors in the order that `move_head` needs; a caller in either usage discipline always has them so, and the exact condition is `BufferSpec.MoveHeadSoundIff`.
- KBuffers.KBuffer.GetLine: requires a non-empty buffer, since the source reads through the read pointer before any test, and room for the line in the destination.
- KBuffers.KBuffer.ReadFd: the fixed size of the iovec array and the system's iovec limit are not modelled; the cast at src/reactor/KBuffer.cpp:83 is read as the block `pos` places after the old write block; the missing return value after an error is taken to be negative.
- KBuffers.KBuffer.Peek: `peekAllAsString` and `readAllAsString` (src/reactor/KBuffer.h:62-77), which cut at a zero byte, are not modelled; in the connection a write event offers some prefix of the buffered bytes.
- ConnectionSpec.StreamSafety: no claim that every send is delivered; "accepted" is what `sendInLoop` writes or buffers, and sends while writing are dropped. `writing_` is taken to start as false.
- Connections.Connection.SendInLoop: payloads are passed by value; the lifetime of the pointer given to `send` is not modelled.
- BlockingQueues.NoLostWakeup: threads are a transition system on values, because a Dafny method cannot block; the maximum is fixed during a run.
- Eventloops.TasksInOrder: a transition system on values for the same reason, so the update in place of `tasks_` is not shown by a class; no claim of a prompt wakeup for tasks of other threads, since the wakeup precedes the insertion and only the poll timeout bounds the delay.
- ServerSpec.DescriptorsOwned: event loops are threads of a transition system; a step is atomic, which is what single-threaded loops and their task mutex give. The acceptor's, the timer's and the wakeup descriptors are not modelled. Runs end before the server is destroyed. A `wait` on a table with a null entry, which the source would follow, is a step here that ignores it.
- Servers.Server.NewConnection: requires a descriptor that no live connection has, which the kernel guarantees because only `~Connection` closes one.
- PollSelects.PollSelect.Wait: requires a table without null entries, which the source follows; `maxfd_` is taken to start at -1.
- TimerTheorems.CancelledNeverRuns: times are integer microseconds on one clock, intervals too.
- TimerCallbacks.CancelledInCallback: is about inserted timers; a cancel that reaches the loop before the queued add it refers to finds no timer, as in the source.
- TimerSpec.NewKeeps: the unsynchronised counter `Timer::num_` is taken as one loop's own.
- TimeWheelSpec.SlidingWindow: entries are held by the wheel alone; the current node is taken to start as the head after `setMaxNum`; the destructor, which walks a ring, is not modelled.
- ConnectorSpec.EverySocketSettledOnce: sockets are identified by their creation, so that a reused descriptor number is a different socket; failure to create one is not modelled.
- Several closes of one connection: allowed, as in the source; no claim that close happens once.
- Destructors of `KBuffer`, `TimerQueue` and `Server`, memory exhaustion, and integer widths of sizes that stay far below them.
- `Acceptor`, `Client`, `EventloopPool`, `Socket`, `Thread`, `Timestamp` formatting and `NFile`: plumbing without state worth a proof; `getNextEvent` never advances its round-robin counter, so there is no fairness to state.
