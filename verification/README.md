# Verified models of four Linux device drivers

The repository carries the example drivers of *Linux Device Drivers* next to its own stubs. This
project models the ones with real protocols and proves what they rely on.

- **shortprint** (`ShortPrint*.dfy`): the output side of a printer port. Writers, serialised by a
  semaphore, fill a one-page ring without a lock; a work item drains it under a spin lock; a flag, a
  timer, its handler and printer interrupts decide who moves next. `ShortPrint` is the step machine,
  `ShortPrintSafety` its invariant, `ShortPrintRuns` the theorems over all runs, `ShortPrintSleeper`
  when a sleeping writer is left behind, `ShortPrintTornRead` a run in which one is,
  `ShortPrintTimer` when adding the timer can find it pending, and `ShortPrintPort` the driver's routines on its
  fields, each access a step.
- **scull and scullp** (`Geometry`, `Spine`, `Scull*`, `Scullp*`; the parameters are in `ScullIoctl`): a sparse byte store made of a list
  of arrays of blocks, linked in place on the heap. The store refines a plain map from offsets to
  bytes. Ghost fields name what is linked where, and the allocator's live set says what is owned. In
  scullp a page fault finds pages by repeated subtraction, and a mapped device is not trimmed.
- **scullpipe** (`Pipe*`): a blocking ring buffer for any number of processes. A process sleeps by
  putting itself on the wait queue, testing, one read of a pointer after the other, and then sleeping
  unless it has been woken.
- **access-controlled scull** (`SingleOpen`, `UidDevice`, `CloneList`): the open protocols.
- **snull** (`Snull*`): two network devices that pass packets between linked pools and queues, with
  the frames' addresses and checksum rewritten on the way (`SnullHeader`). `SnullLists` has the lists
  on the heap, `SnullSections` the machine whose steps are the handlers' sections, `SnullSafety`,
  `SnullRuns`, `SnullLosses` and `SnullFailures` its theorems, `SnullHandlers` the same sections in
  place, and `SnullCalls` and `SnullCallRuns` whole calls with their counters.

For each protocol there is a pure machine (`State`, `Event`, `Enabled`, `Step`), an invariant that
every step keeps, and theorems about every reachable state. The classes do the same steps in place:
their methods are proved equal to the machine's steps, and whole calls are loops over those steps
with any number of steps of the other processes in between. An unbounded wait is a loop with an
arbitrary but finite patience, after which a signal arrives.

Page size, ring capacity, quantum, array size, pool size and process count are arbitrary; the page
of shortprint is even and has at least four bytes. Memory allocation and user copies succeed or fail
at will; a failing user copy moves nothing.

Some claims about the code are false as one might first state them. For these the project gives an
input and the exact condition:

- "A printer writer is woken before the ring drains." It is, in every run, exactly if two bytes or
  more are stored while it sleeps, or one that the wake test is about to see (`StrandedExactly`); otherwise it
  can sleep for ever (`StrandedForEver`). Only a space test whose two readings of the tail differ puts a
  writer to sleep outside that condition (`WholeTestIsGuarded`, `TornReadLosesWakeup`).
- "A pipe does not deadlock." It can exactly if its buffer has one byte, or an open comes while a writer
  sleeps, or is about to on what it has read, and no reader is about to wake it (`DeadlockExactly`,
  `DeadlockAfterOpen`), at every size (`EverySizeDeadlocks`).
- "A snull transmit queue is stopped exactly on an empty pool." A release whose test comes late starts
  it on an empty pool exactly if the packet has nothing behind it by then (`QueueStartsOnEmptyExactly`,
  `DelayedWake`); no section leaves it stopped beside a packet for good (`Interleave`).
- "A waiting frame is being polled." A poll that ends leaves it without one exactly if it has come in
  since the test and no sender is about to look at the interrupts (`PollIsLostExactly`, `PollAcross`,
  `MissedPoll`). The next frame brings a poll; the wait lasts through every run exactly if no packet of
  the sender is left to bring one (`LossLasts`, `LastsExactly`).
  With whole calls as steps neither of the last two happens (`SnullTx`, `SnullPoll`).
- "A single-open device that nobody holds can be opened." It refuses exactly while a failed opener has
  not put the counter back (`OpenSucceedsExactly`).
- "A failing ioctl changes nothing." It changes a parameter exactly if a privileged caller's memory faults
  (`FailureCanStore`).
- "add_timer is not called on a pending timer." Both of its callers can do that
  (`HandlerFindsTimerPending`, `WriterFindsTimerPending`): the timeout handler exactly if it still waits
  for the lock or has it while the timer is pending (`HandlerMeetsPendingExactly`); the writer that starts
  the output exactly if the timer is pending beside the inactive output, or somebody who was on the way
  when it stopped can still arm it (`StartMeetsPendingExactly`).

## Model

| member | source | states |
|---|---|---|
| ShortPrintSafety.OutSpaceIsContiguousFreeSpace | projet/module/examples_ldd/shortprint/shortprint.c:119-126 | With the tail standing still the result is exactly the free space (one cell stays unused), cut off at the end of the page; so it is never negative, and zero only on a full ring. |
| ShortPrintSafety.TornSpaceIsSafe | projet/module/examples_ldd/shortprint/shortprint.c:119-126 | If the consumer moves the tail between the two readings of it, a positive result is still free and contiguous, zero means a full ring, and the result is negative exactly if the tail wrapped in between. |
| ShortPrintSafety.ManyFreeMeans | projet/module/examples_ldd/shortprint/shortprint.c:345-348 | The wake test holds exactly if the ring is not empty and fewer than half a page is stored; on an empty ring it reads zero. |
| ShortPrintSafety.StepKeepsInv | projet/module/examples_ldd/shortprint/shortprint.c:271-400 | Each access of the writer, the work item, the timeout handler and the interrupt handler keeps the whole invariant: stream, locks, granted space, pusher and sleeper clauses. |
| ShortPrintRuns.OutputIsNeverForgotten | projet/module/examples_ldd/shortprint/shortprint.c:302-310 | In every reachable state with bytes in the ring, output is active or the writer has moved the head and has not finished its start-if-inactive section. |
| ShortPrintRuns.ActiveOutputIsPushed | projet/module/examples_ldd/shortprint/shortprint.c:253-265 | While output is active, the timer is armed, or the timeout handler is under way, or the work item is queued or running, through every race of firing, re-arming, deleting and queueing; the one exception is the writer itself, holding the lock, between setting the flag and arming the timer. |
| ShortPrintRuns.PrinterStreamIsExact | projet/module/examples_ldd/shortprint/shortprint.c:281-316 | Bytes strobed, followed by the ring, are the bytes of the finished writes in order, each in one piece, and then those of the write in progress. |
| ShortPrintRuns.GrantedSpaceStaysFree | projet/module/examples_ldd/shortprint/shortprint.c:286-304 | The space a writer has been granted stays free until it moves the head, whatever the consumer does meanwhile and although the writer takes no lock. |
| ShortPrintRuns.SpaceTestDecides | projet/module/examples_ldd/shortprint/shortprint.c:288-293 | With space the writer goes on whatever signals are pending; without, it joins the queue, and from there sleeps, or gives up on a signal. |
| ShortPrintRuns.PassIsMaximal | projet/module/examples_ldd/shortprint/shortprint.c:295-302 | One pass moves all the space it was granted or all that is left; a copy that faults ends the call with nothing stored. |
| ShortPrintRuns.LoopEndsWithAll | projet/module/examples_ldd/shortprint/shortprint.c:286-316 | Beside a fault and a signal, a call ends exactly when its last byte is written. |
| ShortPrintRuns.SleeperHoldsHalfPage | projet/module/examples_ldd/shortprint/shortprint.c:286-293 | A writer that sleeps because the test found zero (which is every sleeper when the test is one step, by OutSpaceIsContiguousFreeSpace) has at least half a page in the ring, outside the locked section of the work item. |
| ShortPrintRuns.OnlyTornTestSleepsBesideEmptyRing | projet/module/examples_ldd/shortprint/shortprint.c:345-348 | A writer asleep beside an empty ring has got there by a negative result of the space test, which only a tail that moved between its two readings can give. |
| ShortPrintSleeper.StrandedExactly | projet/module/examples_ldd/shortprint/shortprint.c:286-357 | For every page size: from a reachable state with a sleeping, unwoken writer there is a run of the others that empties the ring and leaves it asleep exactly if fewer than two bytes are stored and the wake test is not about to see the last one. |
| ShortPrintSleeper.StrandedForEver | projet/module/examples_ldd/shortprint/shortprint.c:286-357 | A writer left asleep beside an empty ring stays so, with nothing stored, through every further run of the others: only a signal ends it. |
| ShortPrintSleeper.WholeTestIsGuarded | projet/module/examples_ldd/shortprint/shortprint.c:119-126 | A writer that sleeps after a space test whose two readings agree is never in that case. |
| ShortPrintTimer.HandlerMeetsPendingExactly | projet/module/examples_ldd/shortprint/shortprint.c:383-393 | The handler's add, after its test: from every reachable state in which it waits for the lock some run of the others has the timer pending when it gets it; from one in which it holds the lock, no run does unless the timer is pending already. |
| ShortPrintTimer.StartMeetsPendingExactly | projet/module/examples_ldd/shortprint/shortprint.c:253-265 | The add at the start of output: from a reachable state with output inactive, the next writer that starts it can find the timer pending exactly if it is pending and not about to be deleted, or the handler is at its lock, or the work item is arming it, or will look at the ring once more and can find a byte (`Loose`). |
| ShortPrintTimer.HandlerRearmsOrInterrupts | projet/module/examples_ldd/shortprint/shortprint.c:383-396 | A handler that finds the printer busy arms the timer, lets go of the lock and queues nothing, whatever the others do in between; one that does not leaves the timer alone and goes on to the interrupt. |
| ShortPrintTimer.HandlerEnds | projet/module/examples_ldd/shortprint/shortprint.c:377-400 | In every run in which the timer does not fire again the handler ends, after six accesses at most. |
| ShortPrintTimer.TimeoutActsAsInterrupt | projet/module/examples_ldd/shortprint/shortprint.c:396-400 | The interrupt that a timeout stands in for has the effect of a real one: the work item is queued exactly if output is active. |
| ShortPrintTimer.HandlerFindsTimerPending | projet/module/examples_ldd/shortprint/shortprint.c:386-393 | A reachable state in which the handler, with the lock, is about to add a timer that the work item has already armed again. |
| ShortPrintTimer.WriterFindsTimerPending | projet/module/examples_ldd/shortprint/shortprint.c:253-265 | A reachable state in which a writer, starting the output, is about to add a timer that a late handler has armed. |
| ShortPrintRuns.CanAlwaysDrain | projet/module/examples_ldd/shortprint/shortprint.c:325-400 | From every state of the invariant there is a run of the engine's own steps, with every printer interrupt lost, that prints everything in the ring and goes inactive. |
| ShortPrintRuns.EveryRunDrains | projet/module/examples_ldd/shortprint/shortprint.c:325-357 | In every run from a reachable state that brings no new data, n completed work items leave at least n bytes fewer, or none; one item under way may not count; with more items than that and no start of output, the ring is empty and the output inactive. |
| ShortPrintTornRead.TornReadLosesWakeup | projet/module/examples_ldd/shortprint/shortprint.c:119-126 | A reachable state on a four-byte page in which the ring is empty, output is inactive, a writer with bytes left sleeps, and nothing but a signal changes anything: the space test is not atomic, and the wake test reads zero on an empty ring. |
| ShortPrintPort.Port.IncrOutBp | projet/module/examples_ldd/shortprint/shortprint.c:128-134 | The in-place advance of a pointer, by up to a page, stays in the page and is addition modulo its size. |
| ShortPrintPort.Port.ShortpDoWrite | projet/module/examples_ldd/shortprint/shortprint.c:231-247 | With the other threads in between, the routine sets the timer, sends exactly the byte that was at the tail when it started and advances the tail by one; output still active afterwards has the timer, its handler or a queued work item to push it on. |
| ShortPrintPort.Port.Do | projet/module/examples_ldd/shortprint/shortprint.c:271-400 | Every in-place access to the port's fields is the step of the machine, and the state stays reachable. |
| ShortPrintPort.Port.ShortpWrite | projet/module/examples_ldd/shortprint/shortprint.c:271-317 | A write, with everybody else's steps in between, puts a prefix of its data into the stream, in one piece and in order: all of it, unless the buffer cannot be read so far or a signal comes in a state without space; it does not begin only if the semaphore is taken. |
| ShortPrintPort.Port.ShortpDoWork | projet/module/examples_ldd/shortprint/shortprint.c:325-357 | The bottom half, with the other threads in between, ends idle; it strobes one more byte exactly if it finds the ring non-empty, and if it starts with bytes stored it does, and sends the first of them. |
| Geometry.Recompose | projet/module/examples_ldd/scull/main.c:349-352 | Item, slot and position are in range and make up the offset again. |
| Geometry.Coordinates | projet/module/examples_ldd/scull/main.c:349-352 | Every triple in range is the coordinates of exactly the offset it makes up. |
| Geometry.SameCell | projet/module/examples_ldd/scull/main.c:309-312 | Offsets with the same coordinates are equal, for every quantum and array size. |
| Geometry.WithinQuantum | projet/module/examples_ldd/scull/main.c:369-371 | The offsets up to the end of a quantum share its item and slot and follow each other in it. |
| Spine.PatchKeepsMatch | projet/module/examples_ldd/scull/main.c:369-382 | Bytes stored inside one quantum are bytes stored at consecutive offsets of the plain map: no other offset changes. |
| Scull.ScullDev.Follow | projet/module/examples_ldd/scull/main.c:262-286 | The walk returns item n, adding at the end no more empty items than needed; on failure it returns null, and what it has added stays linked and accounted for. |
| Scull.ScullDev.FreeSlots | projet/module/examples_ldd/scull/main.c:70-73 | The inner loop frees each quantum of an array that is there, once. |
| Scull.ScullDev.FreeAll | projet/module/examples_ldd/scull/main.c:69-78 | The trim loop frees exactly what the device has allocated; each object is live when it is freed. |
| Scull.ScullDev.ScullTrim | projet/module/examples_ldd/scull/main.c:63-84 | After a trim the device owns nothing and is empty, whatever the parameters were when its memory was allocated; this is where it takes over the current ones. |
| Scull.ScullDev.ScullWrite | projet/module/examples_ldd/scull/main.c:336-387 | A write stores a prefix of the buffer at the offset of the plain map, all of it or up to the end of the quantum, and updates the size; it fails exactly if an allocation is refused or the buffer is bad, and then contents and size stay as they were, whatever was allocated on the way. |
| Scull.ScullDev.ScullRead | projet/module/examples_ldd/scull/main.c:292-334 | A read gives all that is wanted below the size, or up to the end of the quantum, or nothing at a hole; the bytes are those last written, and neither contents nor size change though it may extend the list. |
| Scull.ScullDev.WrittenBytes | projet/module/examples_ldd/scull/main.c:314-327 | What a quantum holds at an offset that has been written is the byte of the plain map. |
| ScullIoctl.Params.ScullIoctl | projet/module/examples_ldd/scull/main.c:393-500 | The in-place command is the machine of parameters about which the next rows speak: its new values, its result and what it puts into the caller's memory. |
| ScullIoctl.StoredIsShown | projet/module/examples_ldd/scull/main.c:413-494 | After a privileged set, tell, shift or exchange of a value, every query of that parameter returns it, through every run of commands that only read, name the other parameter, lack the privilege or give a bad address. |
| ScullIoctl.ResetIsShown | projet/module/examples_ldd/scull/main.c:421-424 | After a reset, by anybody, both queries return the defaults. |
| ScullIoctl.ShiftIsQueryAndTell | projet/module/examples_ldd/scull/main.c:454-459 | A shift returns what a query would have returned just before, and stores what a tell would. |
| ScullIoctl.ExchangeIsGetAndSet | projet/module/examples_ldd/scull/main.c:445-452 | An exchange through good memory puts there what a get would, and stores what a set would. |
| ScullIoctl.Refusals | projet/module/examples_ldd/scull/main.c:413-494 | A command fails exactly for a bad address, a missing privilege or a faulting access, in this order; a bad address or a missing privilege changes nothing, and a failure puts nothing into the caller's memory. |
| ScullIoctl.FailureCanStore | projet/module/examples_ldd/scull/main.c:427-488 | A command that fails has nevertheless changed a parameter exactly if a privileged caller's address is in range and faults, on the read of a set or on either access of an exchange. |
| ScullRuns.Perform | projet/module/examples_ldd/scull/main.c:238-387 | One call refines the plain store and the parameters, a write fails for memory exactly if an allocation has been refused, and the live memory is what was live, less what the device owned, plus what it owns now. |
| ScullRuns.PerformAll | projet/module/examples_ldd/scull/main.c:238-494 | So does every run of opens, reads, writes and ioctls: all answers fit the plain store and the parameters, which are replayed without the device, and nothing leaks or is freed twice. |
| ScullRuns.ReplayExtends | projet/module/examples_ldd/scull/main.c:238-387 | Adding one call to a run that fits adds one step to the plain store. |
| ScullClient.WriteAll | projet/module/examples_ldd/scull/main.c:369-382 | Repeating the write takes all bytes, or a prefix exactly if one allocation is refused; it ends, for every geometry. |
| ScullClient.ReadAll | projet/module/examples_ldd/scull/main.c:320-329 | Repeating the read over a stretch that has been written ends and returns exactly its bytes. |
| ScullClient.RoundTrip | projet/module/examples_ldd/scull/main.c:292-387 | Writing and reading back is the identity, for every offset, buffer, quantum and array size, unless an allocation is refused. |
| ScullClient.SameContents | projet/module/examples_ldd/scull/main.c:336-387 | Two devices with different geometries and the same contents have the same contents after the same repeated write, which ends unfinished exactly if an allocation is refused. |
| ScullClient.SameContentsAll | projet/module/examples_ldd/scull/main.c:336-387 | So they have after any sequence of such writes, and then both hold what the plain store holds. |
| ScullClient.WriteBeside | projet/module/examples_ldd/scull/main.c:336-387 | A write on one device leaves contents and storage of another one alone, though they share the allocator. |
| ScullClient.ReadMore | projet/module/examples_ldd/scull/main.c:306-322 | A read inside a written stretch makes progress, and continues the bytes read so far. |
| Geometry.PageNumber | projet/module/examples_ldd/scullp/mmap.c:77-81 | The page number, taken apart by the array size, gives the item and slot of the division path. |
| Scullp.WalkIsDivision | projet/module/examples_ldd/scullp/mmap.c:77-82 | Where the repeated subtraction ends, the remaining number is the slot and the steps made are the item; it never walks past the item. |
| Scullp.ScullpDev.WalkPages | projet/module/examples_ldd/scullp/mmap.c:77-81 | The loop ends, at the item after as many steps as array sizes were subtracted, or behind the last item. |
| Scullp.ScullpDev.ScullpVmaNopage | projet/module/examples_ldd/scullp/mmap.c:60-93 | A page fault returns exactly the page that the read path indexes for the offset; null past the end and at a hole. |
| Scullp.ScullpDev.FaultAndRead | projet/module/examples_ldd/scullp/mmap.c:69-84 | A fault and a read of the same offset agree on what is a hole, and the bytes read are those of the mapped page. |
| Scullp.ScullpDev.ScullpRead | projet/module/examples_ldd/scullp/main.c:168-212 | A read gives all that was asked for, or goes up to the size or to the page edge, and gives nothing at a hole; an offset equal to the size goes through; every byte is the one last written there, or zero if none was. |
| Scullp.ScullpDev.ScullpWrite | projet/module/examples_ldd/scullp/main.c:216-268 | A write stores a prefix at the offset of the plain map, all of it or up to the page edge, clears a page that it allocates, and moves no page that was there. |
| Scullp.ScullpDev.ScullpTrim | projet/module/examples_ldd/scullp/main.c:482-510 | A trim is refused with no change while the device is mapped; otherwise it frees all that was allocated but not the device itself, and takes over order and array size. |
| Scullp.ScullpDev.ScullpMmap | projet/module/examples_ldd/scullp/mmap.c:104-118 | Mapping is refused at a non-zero order and counted otherwise. |
| ScullpRuns.RunWhileMapped | projet/module/examples_ldd/scullp/mmap.c:33-45 | In every run of calls, as long as a mapping is left, the order is zero, the size does not shrink, nothing is freed, a fault that found a page finds the same one, every answer fits the bytes replayed without the device, and the run stops only at the end of the calls or of the mappings. |
| PipeSafety.SpaceFreeIsFreeSpace | projet/module/examples_ldd/scull/pipe.c:181-186 | For every position of the two pointers the free space is the size less one less what is stored. |
| PipeSafety.BlockedMeans | projet/module/examples_ldd/scull/pipe.c:126-131 | A test that says wait is right, empty for a reader and full for a writer, even if it sees a pointer that has not wrapped yet. |
| PipeSafety.AmountFits | projet/module/examples_ldd/scull/pipe.c:138-141 | What one call moves is there to be read, or fits, without touching the end of the buffer or the other pointer; and it is all that was asked for, or all there is, or goes up to the end of the buffer. |
| PipeSafety.TestDecides | projet/module/examples_ldd/scull/pipe.c:122-136 | Inside the semaphore a reader goes on exactly if something is stored, and a writer exactly if something fits. |
| PipeSafety.StepKeepsInv | projet/module/examples_ldd/scull/pipe.c:118-226 | Every access of every process keeps exclusion, pointers, stream and the promises to those who sleep and to those in the middle of a test. |
| PipeSafety.OpenKeepsInv | projet/module/examples_ldd/scull/pipe.c:78-80 | So does an open while the pipe is in use, to any size, with the stream counted from it, and with the writers exempt that it leaves asleep or before the last read of their test. |
| PipeRuns.SemaphoreExcludes | projet/module/examples_ldd/scull/pipe.c:123-150 | In every run of calls and opens at most one process is inside, and the semaphore is free exactly when nobody is; so each path out of a call, those of the space wait included, gives it back exactly once. |
| PipeRuns.PipeIsFifo | projet/module/examples_ldd/scull/pipe.c:78-149 | In every run of calls and opens, bytes delivered since the last open, followed by the ring, are the bytes accepted since then; at most size less one are stored. |
| PipeRuns.SleepersAreOwedWakeups | projet/module/examples_ldd/scull/pipe.c:133-178 | With each read of the tests a step of its own: a reader asleep beside data is owed a wake-up by a writer that has moved its pointer and not issued it; and a writer beside space, by a reader, unless an open caught it asleep or before its last read and it has not been woken since. |
| PipeRuns.StuckMeansAllAsleep | projet/module/examples_ldd/scull/pipe.c:126-136 | When no process can take a step, the semaphore is free, and whoever is inside a call sleeps: readers on an empty buffer, writers on a full one or left asleep by an open. |
| PipeRuns.NonblockNeverWaits | projet/module/examples_ldd/scull/pipe.c:126-131 | In every run, a call that asks not to wait is never on a wait queue. |
| PipeRuns.SignalEndsOnly | projet/module/examples_ldd/scull/pipe.c:123-178 | A signal ends a call only at the semaphore, at a reader's test that finds nothing, or when a writer leaves the queue. |
| PipeRuns.WokenGoesOn | projet/module/examples_ldd/scull/pipe.c:132-178 | A woken process that finds the semaphore free and can go on gets to its copy by its own steps. |
| PipeRuns.DeadlockExactly | projet/module/examples_ldd/scull/pipe.c:78-186 | From any reachable state, readers and writers can end up all asleep on each other before the next open exactly if there are two processes, and the buffer has one byte, or it is empty and an open has left a writer, asleep or one misleading read before it, that no reader is about to wake. |
| PipeRuns.DeadlockAfterOpen | projet/module/examples_ldd/scull/pipe.c:78-80 | A stretch that starts with an open can deadlock exactly if there are two processes, and the size it sets is one byte, or a writer sleeps at the open, or has read an rp that looks full beside the new wp, and no reader is about to wake it. |
| PipeRuns.DeadlockOnlyWithOneByte | projet/module/examples_ldd/scull/pipe.c:181-186 | With no writer left behind by an open, a deadlock is possible exactly if the buffer has one byte. |
| PipeRuns.EverySizeDeadlocks | projet/module/examples_ldd/scull/pipe.c:78-80 | For every size from two bytes on, a reachable state after whose open, to whatever size, the pipe can deadlock. |
| PipeRuns.OpenKeepsWakeupsExactly | projet/module/examples_ldd/scull/pipe.c:78-80 | The reset by an open keeps the promise to sleepers, with no writer exempt, exactly if no writer sleeps, or a reader is about to wake it, or the new size is one byte. |
| PipeDevice.ScullPipe.ScullPRead | projet/module/examples_ldd/scull/pipe.c:118-155 | A read, with the other processes in between, hands out the next bytes of the stream in one piece: all that was asked for, or all there is, or those before the end of the buffer. Each error has its reason: a bad buffer, no data and a call that does not wait, or a wait that a signal ended. |
| PipeDevice.ScullPipe.ScullPWrite | projet/module/examples_ldd/scull/pipe.c:188-226 | A write puts a prefix of its data into the stream in one piece: all of it, or as much as fits, or what goes before the end of the buffer; or it returns an error for the same reasons. |
| PipeDevice.ScullPipe.WaitUntilReady | projet/module/examples_ldd/scull/pipe.c:159-178 | The retry loop leaves with the semaphore held and the pipe ready, or outside with the error, and then the pipe was not ready or somebody else had the semaphore. |
| PipeDevice.ScullPipe.Do | projet/module/examples_ldd/scull/pipe.c:118-226 | Every in-place access is the machine's step and keeps the state reachable. |
| PipeDevice.ScullPipe.ScullPOpen | projet/module/examples_ldd/scull/pipe.c:61-90 | An open allocates a missing buffer or fails with nothing changed, and counts the opener; on a pipe in use it sets the size that is configured now, within what was allocated, and is the reset of the machine, and every other call can go on from there. |
| PipeDevice.ScullPipe.ScullPRelease | projet/module/examples_ldd/scull/pipe.c:94-111 | A release uncounts, changes nothing else while handles are left, and frees the buffer with the last one. |
| SingleOpen.CounterIsExact | projet/module/examples_ldd/scull/access.c:52-72 | In every state of every run the counter is one less the holders less the failed openers that have not put it back; there are never two holders. |
| SingleOpen.QuietCounter | projet/module/examples_ldd/scull/access.c:52-72 | With no failed opener under way the counter is one exactly if nobody holds the device, and else zero. |
| SingleOpen.OpenSucceedsExactly | projet/module/examples_ldd/scull/access.c:56-59 | An open succeeds exactly if there is no holder and no failed opener is about to put the counter back. |
| SingleOpen.FreeDeviceRefuses | projet/module/examples_ldd/scull/access.c:56-59 | A reachable state in which nobody holds the device and an open is refused. |
| SingleOpen.SingleDevice.ScullSOpen | projet/module/examples_ldd/scull/access.c:52-66 | With the others in between, the open succeeds exactly if there is no holder and no failed opener pending when it takes the counter down; who gets the device is alone in having it. |
| SingleOpen.SingleDevice.ScullSRelease | projet/module/examples_ldd/scull/access.c:68-72 | A release gives the handle back in a reachable state. |
| UidDevice.StepKeepsInv | projet/module/examples_ldd/scull/access.c:162-207 | Every section under the lock and every step of a wait, each read of its test among them, keeps count, owner match and the promise to those who sleep or are about to. |
| UidDevice.CountIsHandles | projet/module/examples_ldd/scull/access.c:183-207 | The count is the number of open handles, and every holder matches the owner by uid or euid or is privileged. |
| UidDevice.OpenEntersExactly | projet/module/examples_ldd/scull/access.c:104-116 | In every reachable state, on both devices, an opener in its locked section becomes a holder exactly if nobody holds the device, or the owner is its uid or its euid, or it is privileged; the owner is the one before or, of a free device, the opener. |
| UidDevice.FallsAsleep | projet/module/examples_ldd/scull/access.c:176-181 | An opener that may wait, and to whom the device is not open, is asleep after six of its own steps, and nothing else has changed. |
| UidDevice.WokenGetsIn | projet/module/examples_ldd/scull/access.c:176-186 | A woken sleeper to whom the device is open gets it by its own steps. |
| UidDevice.OwnerIsFixed | projet/module/examples_ldd/scull/access.c:183-184 | The owner changes only when an opener finds no handle open, and then to that opener. |
| UidDevice.SleepersAreOwedWakeups | projet/module/examples_ldd/scull/access.c:162-207 | With the reads of count and owner as separate steps, a process asleep while the device is available to it is owed a wake-up by a process that has brought the count to zero. |
| UidDevice.StuckMeansTaken | projet/module/examples_ldd/scull/access.c:175-207 | When nothing moves, whoever is inside an open sleeps because of a handle of another user. |
| UidDevice.UidDevice.Open | projet/module/examples_ldd/scull/access.c:171-193 | Both opens, with the others in between: the call succeeds exactly if the device is open to the caller at its last test under the lock, with the handle counted and the owner as it must be; failure is the error of the device and of the flags. |
| UidDevice.UidDevice.Close | projet/module/examples_ldd/scull/access.c:195-207 | A close gives the handle back. If it was the last one of the device that makes others wait, everybody then on the wait queue is woken when it returns; in every other case the count and the handle are all that changes. |
| CloneList.LookupFinds | projet/module/examples_ldd/scull/access.c:246-253 | With distinct keys every item of the list is the one that its key finds. |
| CloneList.LookupApart | projet/module/examples_ldd/scull/access.c:246-253 | Two terminals never share a device. |
| CloneList.Clones.LookforDevice | projet/module/examples_ldd/scull/access.c:246-270 | The search returns the terminal's device, adds a new empty one in front exactly if there is none and memory is, and changes no other answer of the list. |
| CloneList.Clones.ScullCOpen | projet/module/examples_ldd/scull/access.c:272-296 | Without a terminal or memory the open fails with nothing changed; a terminal always gets the same device, and an open for writing trims that one only. |
| CloneList.Clones.Through | projet/module/examples_ldd/scull/access.c:217-220 | Any call through one terminal's device refines the plain store and leaves every other device unchanged. |
| CloneList.Clones.PerformAll | projet/module/examples_ldd/scull/access.c:246-296 | In any run of opens and calls from any terminals, each terminal sees the store that its own events make, as if there were no others; one without events keeps its device with nothing about it changed. |
| CloneList.SeenSpares | projet/module/examples_ldd/scull/access.c:246-296 | The store of a terminal depends on its own events alone. |
| SnullLists.PopKeepsLinks | projet/module/examples_ldd/snull/snull.c:134-136 | Taking the packet at the head of a list keeps all four lists linked, disjoint and acyclic. |
| SnullLists.PushKeepsLinks | projet/module/examples_ldd/snull/snull.c:151-153 | So does putting a packet in front, of the pool of its own device or of the receive queue of the twin. |
| SnullLists.Twins.SnullSetupPool | projet/module/examples_ldd/snull/snull.c:100-110 | The setup loop adds packets of the device to its pool, exactly as many as the pool size and memory allow, and touches no other list. |
| SnullLists.Twins.SnullGetTxBuffer | projet/module/examples_ldd/snull/snull.c:128-143 | The packet at the head of the pool goes to the caller, and the queue is stopped when the pool becomes empty. |
| SnullLists.Twins.ReleaseSection | projet/module/examples_ldd/snull/snull.c:151-154 | A packet goes back to the pool of the device recorded in it. |
| SnullLists.Twins.SnullEnqueueBuf | projet/module/examples_ldd/snull/snull.c:159-168 | The packet becomes the head of the twin's receive queue. |
| SnullLists.Twins.SnullDequeueBuf | projet/module/examples_ldd/snull/snull.c:170-182 | The head of the receive queue goes to the caller; null exactly for an empty queue. |
| SnullSafety.StepKeepsInv | projet/module/examples_ldd/snull/snull.c:128-414 | Every section of every handler keeps the lists, links and hands in order, a wake-up to come for a queue stopped beside a packet, one poll of a device at a time, and in the regular mode an interrupt to come for every frame that waits. |
| SnullRuns.QueueStartsOnEmptyExactly | projet/module/examples_ldd/snull/snull.c:146-157 | Of all sections only the test after a release starts a queue on an empty pool, and it does exactly if the pool is empty, the queue stopped and nothing is behind the packet by now. |
| SnullRuns.PollIsLostExactly | projet/module/examples_ldd/snull/snull.c:283-320 | Of all sections only two leave waiting frames without a poll: the end of a poll when a frame has come in since its test, and a sender's look while the interrupts are still off after it; and they do exactly if no other sender is about to look. |
| SnullRuns.Interleave | projet/module/examples_ldd/snull/snull.c:128-320 | For any number of handlers and any order of sections from the setup: the packets are those of the setup, each in exactly one place, once; a poll never takes from an empty queue; once no release is half done no queue is left stopped beside a packet; and in the regular mode every waiting frame has an interrupt to come. |
| SnullRuns.IsInOnePlace | projet/module/examples_ldd/snull/snull.c:128-182 | Counted over the four lists and all hands, a packet occurs once, and never in the twin's pool or its own device's queue. |
| SnullLosses.PollAcross | projet/module/examples_ldd/snull/snull.c:316-320 | With any sections of the others between a poll's test and its completion, frames are then waiting without a poll exactly if one has come in meanwhile and no sender is about to look at the interrupts. |
| SnullLosses.LossLasts | projet/module/examples_ldd/snull/snull.c:128-320 | If every packet of the sender waits in that queue, no run whatever ends the wait, and the queue stays as it is. |
| SnullLosses.LastsExactly | projet/module/examples_ldd/snull/snull.c:128-320 | And only then: otherwise some run has a poll scheduled again, so the frames wait through every run exactly if no packet of the sender is anywhere else. |
| SnullFailures.DelayedWake | projet/module/examples_ldd/snull/snull.c:146-157 | From every setup with two packets or more and two handlers, a run of sections after which a late test has started the queue while every packet of the sender waits on the other side. |
| SnullFailures.MissedPoll | projet/module/examples_ldd/snull/snull.c:316-320 | From every setup with a packet and two handlers, a run of sections after which a frame waits with interrupts on, no poll scheduled and nobody about to ask for one; for good exactly if it was the only packet. |
| SnullHandlers.OneSection | projet/module/examples_ldd/snull/snull.c:128-414 | Each section, done in place on the linked lists and the devices' flags, is the machine's step, and keeps the invariant. |
| SnullHandlers.Sections | projet/module/examples_ldd/snull/snull.c:128-414 | So is every run of sections, in any order. |
| SnullHandlers.Setup | projet/module/examples_ldd/snull/snull.c:626-672 | The setup leaves devices from which the machine's runs start, with as many packets of each as pool size and memory allow. |
| SnullCalls.SnullInit | projet/module/examples_ldd/snull/snull.c:626-672 | After the setup the devices are in order exactly if the pool size is positive and there is memory for a packet of each. |
| SnullCalls.SnullReleaseBuffer | projet/module/examples_ldd/snull/snull.c:146-157 | As one step, a release keeps the queue stopped exactly when the pool is empty. |
| SnullCalls.SnullRegularInterrupt | projet/module/examples_ldd/snull/snull.c:329-372 | The handler clears the status, hands up or drops the newest frame and counts it, counts a finished transmission, and returns the packet to its pool. |
| SnullCalls.SnullNapiInterrupt | projet/module/examples_ldd/snull/snull.c:377-414 | The handler turns receive interrupts off and schedules a poll, and counts a finished transmission. |
| SnullCalls.SnullTx | projet/module/examples_ldd/snull/snull.c:421-528 | While the queue is not stopped the pool has a packet; the frame is sent once, of 60 octets at least, with the third octets of both addresses differing in the lowest bit, a header that adds up, and all else as it was; flow control, counters and conservation hold again, in both modes. |
| SnullHeader.RewrittenIsAccepted | projet/module/examples_ldd/snull/snull.c:453-461 | Rewriting moves both addresses to the other subnet (the octets at 28 and 32 change in the lowest bit and no more), changes nothing else but the checksum, and leaves a header that a receiver accepts and whose words add up, whatever its checksum was. |
| SnullHeader.SumOfPatched | projet/module/examples_ldd/snull/snull.c:460-461 | The sum that the checksum complements is that of the words, high octet first: storing a word where there was none adds it (`SumOfZeros` is the start). |
| SnullHeader.AcceptedExactly | projet/module/examples_ldd/snull/snull.c:460-461 | A header is accepted exactly if its field holds the checksum of the rest, or all ones instead of zero. |
| SnullHeader.ThereAndBack | projet/module/examples_ldd/snull/snull.c:453-461 | A frame sent to the other side and sent back is what it was exactly if its checksum was accepted and is not all ones. |
| SnullCalls.PollLoop | projet/module/examples_ldd/snull/snull.c:290-312 | The loop ends even if every allocation fails; drops do not count towards the limit, and it stops short of it only on an empty queue. |
| SnullCalls.SnullPoll | projet/module/examples_ldd/snull/snull.c:283-323 | A poll delivers at most the smaller of quota and budget; it leaves an empty queue with interrupts on, or a poll still scheduled. |
| SnullCallRuns.QuietMeans | projet/module/examples_ldd/snull/snull.c:361-366 | Packets sent are those received, dropped and queued on the other side, and so for bytes; the drops are the refused buffers; in the regular mode nothing is queued; a queue is stopped exactly on an empty pool; a non-empty receive queue is being polled with interrupts off. |
| SnullCallRuns.PoolAndQueue | projet/module/examples_ldd/snull/snull.c:128-182 | Between two calls as many frames of a device wait on the other side as packets are in that queue, and its transmit queue is stopped exactly if all its packets wait there. |
| SnullCallRuns.RunCalls | projet/module/examples_ldd/snull/snull.c:283-528 | All this holds after any run of transmissions and polls that the network layer can make, and no packet is lost; each transmission is made exactly if fewer frames wait than the device has packets, and each poll takes frames off until none waits or it has delivered as many as it may. |

## Left out

- ShortPrint.Step: semaphore, spin locks, wait queues, the work queue and the timer are taken as the kernel's primitives: an item is queued at most once and does not run beside itself, and the timeout handler does not run beside itself.
- ShortPrintPort.Port.ShortpWrite: the first test of a wait, before the queue is joined, is taken together with the one inside it; the bytes of a user buffer are read at once.
- ShortPrintRuns.CanAlwaysDrain: no fairness is assumed, so it says that the engine can always empty the ring by itself; that it must is said only of runs in which work items complete (`EveryRunDrains`).
- The read side of shortprint (timing records in a ring that may overrun), its release, port input and output and strobe delays.
- Scull.ScullDev.ScullRead: bytes of a quantum that were never written are unspecified, because scull does not clear a quantum.
- ScullIoctl.Params.ScullIoctl: the decoding of command numbers, and the two commands for the pipe's size, are left out; parameters stay positive only if the values stored are (as `PositiveOp` asks), because the code does not check.
- ScullRuns.Perform: a read or write is one step; the code reads the geometry before it takes the semaphore. Offsets are unbounded integers. An interrupted wait for the semaphore is not modelled.
- Scullp.ScullpDev.ScullpWrite: an item that cannot be allocated makes the call fail here, while the source does not check for it.
- Scullp.ScullpDev.ScullpRead: order zero only; at other orders later items have order zero but are indexed with the order of the first.
- Scullp.ScullpDev.ScullpTrim: the ioctl of scullp is an arbitrary choice of settings at each trim.
- scullc, sculld and scullv, which are near copies, and the asynchronous reads and writes.
- PipeDevice.ScullPipe.ScullPOpen: a size of zero, or on a pipe in use one beyond what was allocated, is not followed, because the driver then uses memory that it does not have; the open is one step under the semaphore. The interrupted wait for the semaphore, poll and asynchronous notification are left out.
- UidDevice.UidDevice.Open: an open for writing trims the device afterwards without the device's semaphore; that trim is not part of the protocol modelled here.
- SingleOpen.SingleDevice.ScullSOpen: the trim after a successful open is left out, as it is scull's.
- CloneList.Clones.ScullCOpen: the memory of the list items is not part of the allocator's live set; devices are never freed, as in the source.
- SnullCalls.SnullTx: the lockup parameter, the watchdog, taking the interface down, and the freeing of the socket buffer are left out; frames fit the packet buffer. What the checksum routine makes of a header length that is too short or leaves the frame is arbitrary. The calls themselves are single steps; at the level of sections the lists, the queue flags and the polls are followed, and not the counters.
- SnullSections.Step: the status word is set and read in one step with the interrupt; the reads of the test after a release are one step with its wake. A device is polled by one handler at a time, and a poll that leaves for its quota stays scheduled, as the kernel does it.
- SnullLists.Twins.SnullSetupPool: the header of the pool setup is missing in the file, so its body is read from line 95 on.
- rocketIO and the old driver, which are stubs; sbull, tty, USB, lddbus, misc modules and programs.
