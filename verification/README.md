# A verified model of the php-async core

This project models the concurrency core of php-async, an asynchronous runtime for PHP on
libuv, and proves what its data structures promise, over every run and every interleaving.
`dafny verify dfyconfig.toml` checks all of it with Dafny 4.11.

Eight parts of the runtime are modelled. Each comes as a specification on values (a state, its
steps, and what holds in every reachable state) and, where the source changes objects in place,
as a class whose methods are proved to do exactly what the specification says.

- **Channel** (`Channel*.dfy`): the CSP channel with its buffer or rendezvous slot, two waiter
  queues, reservations, the committed bit, pending receive futures, cancellation and close. A
  step is everything between two suspensions; who runs next is up to the environment. The state
  carries a history of accepted, received and rolled-back values and of what each call returned.
- **Cross-thread future state** (`SharedFuture*.dfy`): in every call that threads make on a shared
  state, each load, store, lock and compare-and-swap is a step of its own; a fast-path read may be
  stale. Three things are single steps because nobody else can take part in them: creation with the
  first binding and references, the delivery on the owner's thread, and destruction.
- **Future chains** (`Future*.dfy`): map, catch and finally, their recursive evaluation, the flat
  walk with a queue that grows while it is traversed, and the iterator object that does it.
- **File handles** (`FileIo*.dfy`, `FileHandle.dfy`, `RequestQueue.dfy`): read and write queues,
  operations in the thread pool, disposal in mid-flight, the descriptor's position and its close,
  and the linked queues in memory.
- **Output of child processes** (`Exec*.dfy`): the chunked line parser with its growable buffer.
- **Concurrent iteration** (`Iterator*.dfy`, `ConcurrentIterator.dfy`): slots, references and
  completion of coroutines that share one position in an array.
- **Awaiting many futures** (`Await*.dfy`): counters, result and error tables, replay of closed
  futures, the decision to suspend and to resume; array form, errors collected.
- **Signals and processes** (`Signal*.dfy`): one handler per signal shared by waiters, Zend's
  handler chain and process events, and the disposition underneath it.

## What the proofs found

Some properties one might expect do not hold of the code as it is. Each has a concrete run that
shows it, and a lemma that says exactly when the property does hold.

- A rendezvous `send()` whose cancellation token has already fired when its delivery wait begins
  throws, and leaves its value where a receiver can take it (`ThrownValueIsReceived`,
  `ThrowLeavesValueIff`).
- A future chain abandons the remaining futures when a rejection has no taker
  (`SiblingLeftPending`, `WalkRefinesEval`). It never does if every future without children is
  watched (`WatchedWalkIsEval`).
- An abandoned file read leaves the file as if it had never been exactly if it completes alone in
  the thread pool and the position has not moved since it took its bytes (`GivenBackIff`). A stat,
  flush or write that is still in the pool makes it lose them (`StatLosesBytes`), and a write that
  came and went in between makes the rewind end up elsewhere (`WriteShiftsRewind`). On a handle
  without writes being alone decides it (`GivenBackIffAlone`). A fire-and-forget write that libuv refuses when its turn in the queue comes is never disposed of
  (`RefusedWriteLeftOver`, `LeftOverIff`).
- The SIGCHLD handler stays installed for nobody when a process event is started again after its
  first start failed (`HandlerLeftBehind`, `HandlerOnlyIf`), and an await over an array with a null
  element may never be resumed (`NullStrands`, `StrandedIff`, `AwaitAllStrandedIff`).
- In array mode `exec()` reports the element under the index one below the count. That is not the
  last line printed if the caller's array has gaps or string keys (`GapReportsOldLine`,
  `NameReportsNothing`, `LastLineReportedIff`), and it is an old element if the command printed
  nothing and the array was not empty (`SilenceReportsOldLine`).

Where comments and code disagree the model follows the code: `async_future_shared_state_create`
starts the count at 0 although `future.h:157` says 1, and `exec_emit_completed_line` does not track
the last line in array mode although the comment at `libuv_reactor.c:3983-3984` says so.

## Model

| member | source | states |
|---|---|---|
| ChannelTheorems.NoStrandedWaiter | channel.c:437-519 | in every state of every run, an unpromised value means every queued receiver has one promised, and an unpromised slot means every queued sender has one promised or waits for its delivery |
| ChannelTheorems.ReservationAccounting | channel.h:69-87 | each counter is the number of reserved waiters that have not run and never exceeds the values or the free space; a promised rendezvous value is committed; no assertion of the source fails |
| ChannelTheorems.PromisesKept | channel.c:755-786 | a waiter resumed without an exception gets what it was promised, also after close: the oldest value, an empty slot, or the news that its value was received |
| ChannelTheorems.Conservation | channel.c:198-210 | received then held values are the accepted ones in order, without those rolled back; nothing is received twice, and each receive call gets one value |
| ChannelTheorems.SuccessIsFinal | channel.c:563-586 | a send that returned is never undone by close or cancellation: its value is received, or held and committed |
| ChannelTheorems.FailureIsFinal | channel.c:730-753 | a send that threw before its value was taken never reaches a receiver, unless its token had fired when the delivery wait began |
| ChannelTheorems.ThrowLeavesValueIff | channel.c:688-690 | exactly when a send throws and leaves its value in the slot: a woken rendezvous sender with no receiver waiting and a token that has fired |
| ChannelTheorems.ThrownValueIsReceived | channel.c:1154-1160 | a run in which a value whose send threw is received |
| ChannelTheorems.PromisesInArrivalOrder | channel.c:248-271 | in both queues waiters stand in arrival order and no one behind an unpromised waiter holds a promise |
| ChannelTheorems.NewcomersQueueUp | channel.c:1188-1192 | a new send or receive succeeds at once only when nobody on its side waits without a promise |
| ChannelRuns.RunInvariant | channel.c:683-786 | the whole invariant holds in every state of every run from an empty channel |
| ChannelRuns.RunGrows | channel.c:563-586 | no later step takes back an accepted or received value, a roll-back or a verdict |
| ChannelSteps.StepSound | channel.c:1113-1299 | every step keeps the queues, reservations and slot in order and strands nobody |
| ChannelLedger.StepLedger | channel.c:1113-1299 | every step keeps the books: what was accepted, received, rolled back, held and reported agree |
| ChannelObject.Channel.constructor | channel.c:1067-1111 | a new channel is the initial state |
| ChannelObject.Channel.FindIdle | channel.c:262-271 | the position of the oldest waiter with nothing promised to it |
| ChannelObject.Channel.FindDelivering | channel.c:275-284 | the position of the oldest sender that waits for its delivery |
| ChannelObject.Channel.QueueRemove | channel.c:251-295 | the queue without the waiter, in its old order, and whether it stood there |
| ChannelObject.Channel.PutValue | channel.c:1136-1145 | the value is appended to the buffer, or fills the slot uncommitted |
| ChannelObject.Channel.TakeValue | channel.c:198-210 | the oldest value leaves the buffer or the slot |
| ChannelObject.Channel.RollBackSlot | channel.c:577-585 | an uncommitted rendezvous value is dropped, a committed one stays |
| ChannelObject.Channel.Park | channel.c:692-715 | the waiter is queued last, with nothing promised to it |
| ChannelObject.Channel.WakeDeliveredSender | channel.c:472-492 | the sender whose value was taken is woken and leaves its queue |
| ChannelObject.Channel.WakeOneSender | channel.c:494-519 | the delivery is reported, then the oldest idle sender gets a free slot |
| ChannelObject.Channel.WakeOneReceiver | channel.c:437-470 | the oldest idle receiver gets a free value: a coroutine a reservation, a future the value itself |
| ChannelObject.Channel.DepositValue | channel.c:1135-1152 | put and match: committed exactly when a receiver was matched and the value is still there |
| ChannelObject.Channel.SendFrom | channel.c:1132-1171 | send() from its retry label to its next suspension or return |
| ChannelObject.Channel.RecvFrom | channel.c:1228-1244 | recv() from its retry label to its next suspension or return |
| ChannelObject.Channel.Send | channel.c:1113-1172 | a blocking send keeps the invariant and does the step of the specification |
| ChannelObject.Channel.SendNow | channel.c:1174-1207 | sendAsync() accepts exactly when the channel is open with an unpromised slot |
| ChannelObject.Channel.Recv | channel.c:1209-1245 | a blocking receive keeps the invariant and does the step of the specification |
| ChannelObject.Channel.RecvFuture | channel.c:1247-1292 | a receive future is completed, rejected or queued |
| ChannelObject.Channel.LeaveQueue | channel.c:719-728 | the waiter leaves its queue and its record is freed |
| ChannelObject.Channel.GiveBack | channel.c:755-764 | a reservation is taken off its counter once |
| ChannelObject.Channel.WaitReturns | channel.c:719-785 | the return from a wait: rollback, release and hand-on of an unspent reservation |
| ChannelObject.Channel.Run | channel.c:1156-1171 | a woken coroutine runs: it throws, returns or retries |
| ChannelObject.Channel.CancelWaiter | channel.c:709-717 | a cancelled coroutine will wake with an exception and keeps its place |
| ChannelObject.Channel.DisposeFuture | channel.c:297-322 | a dropped future leaves the receiver queue |
| ChannelObject.Channel.WakeAllReceivers | channel.c:529-547 | close fails every receiver without a reservation and keeps the others in order |
| ChannelObject.Channel.WakeAllSenders | channel.c:549-561 | close fails every sender |
| ChannelObject.Channel.CloseChannel | channel.c:563-586 | close fails the waiters and drops an uncommitted rendezvous value |
| SharedFutureRuns.SettledOnce | future.c:2122-2176 | whatever stale value a fast path saw, at most one outcome is stored, the trigger fires at most once and only after that, never after its owner detached it, and what is delivered is what was stored |
| SharedFutureRuns.CompletionNotLost | future.c:2137-2145 | with the trigger attached and nobody inside, a completed state has stored and fired, and the outcome waits for the owner's loop or was delivered |
| SharedFutureRuns.CancellationNotLost | future.c:2178-2219 | once a cancellation request took effect nothing more is bound, and the trigger bound at that moment has been fired when the requester is out |
| SharedFutureRuns.UnboundIsSafe | future.c:2221-2227 | a cancel trigger that was unbound, or replaced by another, is never fired afterwards |
| SharedFutureRuns.Lifetime | future.h:201-236 | the count is the number of live holders; the state is destroyed once, by the holder that took it to zero, and nothing can touch it afterwards; the assertion at destruction fails exactly if the producer let go with a cancel trigger bound |
| SharedFutureRuns.TriggerDisposedOnce | future.c:717-739 | when the state is gone its result trigger was disposed of exactly once |
| SharedFutureRuns.RunGrows | future.c:2122-2227 | outcomes, deliveries and cancellation requests are never taken back, over any part of a run |
| SharedFutureProofs.StepInv | future.c:717-739 | every atomic step keeps the invariant on places, results, cancellation and count |
| FutureIterator.SettleTree | future.c:1561-1615 | settling a future gives every pending descendant what recursive evaluation gives it, exactly if no rejection but the last in level order lacks a taker, and surely if every descendant without children is watched; what was settled before stays |
| FutureIterator.Iterator.constructor | future.c:205-226 | the walk starts with one queued future |
| FutureIterator.Iterator.NextParent | future.c:280-323 | goes on to the next queued future with children without losing or reordering work |
| FutureIterator.Iterator.IsValid | future.c:329-361 | there is a current child exactly if there is work left |
| FutureIterator.Iterator.MoveForward | future.c:401-421 | one child is taken off the work, the parent stays for its handler |
| FutureIterator.Iterator.Rewind | future.c:426-447 | back to the children of the first queued future |
| FutureIterator.Iterator.Process | future.c:1404-1526 | a pending child is settled once and its children join the work at the end; a settled one is left alone |
| FutureIterator.Iterator.Walks | iterator.c:376-515 | the loop does the walk of the specification and stops at the first rejection without a taker |
| FutureWalkProofs.WalkInLevelOrder | future.c:1574-1583 | futures are settled level by level, up to the first rejection nobody takes |
| FutureWalkProofs.WalkRefinesEval | future.c:1404-1548 | none is settled twice or with another outcome than evaluation gives; all are, exactly if only the last rejection may lack a taker; stopped exactly if one does |
| FutureWalkProofs.WatchedWalkIsEval | future.c:1492-1503 | if every future without children is watched, the walk is never stopped and settles every pending future as recursive evaluation does |
| FutureWalkProofs.LevelOrderIsEval | future.c:150-161 | level order holds each pending future of the tree once, with its recursive outcome |
| FutureWalkProofs.EvalAlongPath | future.c:1415-1521 | the outcome of a descendant is its mappers folded along its path from the root |
| FutureWalkProofs.EvalHasPath | future.c:1404-1411 | nothing is settled but futures with such a path of pending futures |
| FutureWalkProofs.TravelsUnchanged | future.c:1428-1478 | an outcome passes unchanged down maps of a failure, catches of a success and finallys that do not throw |
| FutureWalkProofs.SiblingLeftPending | future.c:1492-1503 | two maps on a rejected future nobody watches: the second is never settled |
| FileIoRuns.AbandonedReadsLoseNothing | libuv_reactor.c:5311-5390 | on a handle that only reads, the bytes live readers got are the file from the start to the position, for every order of submissions, short reads, cancellations and completions |
| FileIoRuns.BytesAccountedFor | libuv_reactor.c:5311-5390 | on a handle that does not write, the bytes delivered and the bytes lost with abandoned reads are together the file from the start to the position, each once and in order |
| FileIoRuns.WhereBytesGo | libuv_reactor.c:5322-5347 | a completed read's bytes are delivered if its caller is there; otherwise the position goes back by as many if nothing else is in the pool, and they are passed over if something is |
| FileIoRuns.GivenBackIff | libuv_reactor.c:5331-5340 | an abandoned read leaves the position where it began and passes over nothing, exactly if it is alone in the pool and the position has not moved since it took its bytes |
| FileIoRuns.GivenBackIffAlone | libuv_reactor.c:5331-5340 | on a handle without writes, exactly if it is alone in the pool |
| FileIoWitnesses.WriteShiftsRewind | libuv_reactor.c:5331-5340 | a run in which a write came and went, and the rewind of an abandoned read that began at 0 ends at 3 |
| FileIoWitnesses.StatLosesBytes | libuv_reactor.c:5331-5340 | a run in which a stat in the pool makes an abandoned read lose five bytes |
| FileIoRuns.OneAtATime | libuv_reactor.c:6449-6469 | at most one read and one write are in the pool, a queue is non-empty only while one is, and they start in the order they were made |
| FileIoHistory.StartedInOrder | libuv_reactor.c:6449-6469 | over a run: operations of a kind start in the order they were made, and none is un-started |
| FileIoRuns.DescriptorClosedOnce | libuv_reactor.c:5293-5309 | an owned descriptor is closed once, exactly when the handle is closed and the pool empty; then nothing is queued, and nothing is started on it later |
| FileIoRuns.FreedOnce | libuv_reactor.c:4828-4905 | a request is freed at most once, never in the pool, queued or held |
| FileIoHistory.FreedForGood | libuv_reactor.c:4828-4905 | over a run: a request that was freed is not freed again and is never in the pool, queued or held from then on |
| FileIoRuns.ToldOrFreed | libuv_reactor.c:5381-5386 | a completion tells the caller exactly if it is still there and frees the request otherwise |
| FileIoRuns.LeftOverIff | libuv_reactor.c:5426-5448 | with the pool empty every request is freed or in its caller's hands, except fire-and-forget writes refused from the queue |
| FileIoWitnesses.RefusedWriteLeftOver | libuv_reactor.c:5431-5445 | a run that leaves such a write behind |
| FileIoRuns.RunKeeps | libuv_reactor.c:5311-5538 | the whole invariant holds in every state of every run, and no buffer of a caller that left is written |
| FileIoHistory.RunGrows | libuv_reactor.c:5311-5538 | what was started, delivered, notified, freed and closed is never taken back |
| FileHandle.Handle.constructor | libuv_reactor.h:174-229 | an open handle with empty queues that meets the invariant |
| FileHandle.Handle.SubmitReq | libuv_reactor.c:6340-6472 | a submission keeps the invariant and takes its step: it gets the next number, and a closed handle takes none |
| FileHandle.Handle.DrainLane | libuv_reactor.c:5358-5377 | the hand-over loop of either lane starts the first queued operation that libuv takes and answers for those it refuses |
| FileHandle.Handle.CompleteReq | libuv_reactor.c:5311-5538 | a completion callback from start to end keeps the invariant and takes its step: the caller is told exactly if it is there, otherwise the request is freed |
| FileHandle.Handle.DisposeReq | libuv_reactor.c:4828-4866 | a disposal keeps the invariant and takes its step: the request is freed now exactly if it is not in the pool |
| FileHandle.Handle.CloseHandle | libuv_reactor.c:6878-6973 | the close keeps the invariant and takes its step: an owned descriptor goes now exactly if the pool is empty |
| RequestQueue.Fifo.Push | libuv_reactor.c:6452-6461 | appends to the linked queue |
| RequestQueue.Fifo.Pop | libuv_reactor.c:5363-5368 | takes the first and clears its link |
| RequestQueue.Fifo.Unlink | libuv_reactor.c:4796-4825 | takes a request out wherever it stands and keeps the order; leaves every link alone if it does not stand there |
| RequestQueue.UnlinkFromEither | libuv_reactor.c:4857-4865 | removal from whichever of two queues holds the request leaves the other intact |
| ExecLines.SplitGlues | libuv_reactor.c:4026-4055 | the newline split loses nothing, and no line holds a newline |
| ExecLines.SplitIsUnique | libuv_reactor.c:4026-4055 | it is the only such split |
| ExecLines.SplitAppend | libuv_reactor.c:4026-4055 | what came before matters only through its unfinished line |
| ExecLines.StripIs | libuv_reactor.c:3934-3940 | stripping takes off white space only, and all there is at the end |
| ExecParser.StripTrailing | libuv_reactor.c:3934-3940 | the loop computes the stripped line |
| ExecParser.Parser.Reserve | libuv_reactor.c:3960-3971 | growth ends with room enough and keeps the pending bytes |
| ExecParser.Parser.Append | libuv_reactor.c:3954-3975 | the pending text grows by the data, length within capacity |
| ExecParser.Parser.Emit | libuv_reactor.c:3990-4009 | the stripped line joins the array or replaces the last line |
| ExecParser.Parser.Combine | libuv_reactor.c:4038-4047 | pending text and segment make one line, with or without copying |
| ExecParser.Parser.ProcessChunk | libuv_reactor.c:4026-4055 | after any chunk, cut anywhere, the state is the newline split of everything received |
| ExecParser.Parser.Finish | libuv_reactor.c:4446-4494 | the unfinished line counts as the last one; without one the array element under the index one below the count is reported |
| ExecParser.ParseChunks | libuv_reactor.c:4026-4055 | for every cut of the output into chunks the array and the return value are those of the output in one piece |
| ExecArray.LastLineReportedIff | libuv_reactor.c:4466-4496 | in array mode the last line of every output that prints something is reported, exactly if the caller's array has as many elements as its next free index; that of every output whatever, exactly if besides the array has no element under the index one below its count, or an empty line there |
| ExecArray.GapReportsOldLine | libuv_reactor.c:4481-4484 | an array with a gap: the caller's own element is reported instead of the line printed |
| ExecArray.NameReportsNothing | libuv_reactor.c:4481-4487 | an array with a string key: the empty line is reported although two lines were printed |
| ExecArray.SilenceReportsOldLine | libuv_reactor.c:4478-4484 | a list that holds something: the caller's element is reported although nothing was printed |
| IteratorRuns.SlotsWithinLimit | iterator.c:137-157 | the slots in use are those of the coroutines that have not left, never more than the limit |
| IteratorRuns.HandedOutInOrder | iterator.c:452-459 | over a run: elements are handed out as 0, 1, 2, ..., one at a time, and what was handed out stays so |
| IteratorRuns.HandledByOne | iterator.c:452-479 | over a run: coroutines seen with the same element, in whatever states, are the same one |
| IteratorRuns.ReturnIsFinal | iterator.c:471-515 | over a run: when a handler call returns, whatever it returned, no coroutine handles its element in any later state, neither the one that did nor another |
| IteratorRuns.HandedIsHandled | iterator.c:471-479 | over a run: every element that was handed out was handled by the coroutine it went to |
| IteratorRuns.RunGrows | iterator.c:376-515 | the position, the hand-outs, the departures and the end of the iteration are never taken back |
| IteratorRuns.CompletesOnce | iterator.c:80-113 | completion is notified once, exactly when the last slot is given back; the iterator is freed once, when nothing refers to it, and nothing runs afterwards |
| IteratorRuns.HowFar | iterator.c:376-515 | a finished iteration came to the end, or to the first handler that stopped it or threw, or nowhere if its first coroutine was cancelled before it ran |
| IteratorProofs.StepInv | iterator.c:305-599 | every step keeps slots, references, completion and progress in order |
| ConcurrentIterator.Iterator.constructor | iterator.c:580-599 | the first coroutine takes a slot like every other, and the invariant holds |
| ConcurrentIterator.Iterator.Begin | iterator.c:527-562 | a coroutine begins: the invariant is kept, and it is handed the next element or leaves if there is none |
| ConcurrentIterator.Iterator.HandlerReturns | iterator.c:484-515 | a handler call returns: the invariant is kept, and its coroutine is handed the next element, or leaves at the end or when false or an exception ended the iteration |
| ConcurrentIterator.Iterator.CancelFirst | iterator.c:101-113 | a coroutine that never ran gives back its slot; the invariant is kept and no element is lost with it |
| ConcurrentIterator.Iterator.RunMicrotask | scheduler.c:259-284 | one queue entry is consumed: the invariant is kept and at most one coroutine, with its slot, is added |
| AwaitRuns.ResultsAndErrors | async_API.c:370-459 | for every completion order, results and errors divide the settled keys, hold what they were settled with and match the counters |
| AwaitRuns.ResumedWhenFinished | async_API.c:1122-1134 | a suspended coroutine is resumed exactly when its target or the total is reached |
| AwaitRuns.StrandedIff | async_API.c:296-302 | with every future settled it is stuck exactly if the array has a null element and the successes fall short |
| AwaitRuns.NeverStrandedWithoutNull | async_API.c:296-302 | without a null element nobody is ever stuck |
| AwaitRuns.AlwaysStrandedShort | async_API.c:296-302 | with one, an await of all, or of more than there are futures, always is |
| AwaitRuns.AwaitAllStrandedIff | async_API.c:956-959 | an await of all is stuck in the end exactly if there is a null element |
| AwaitRuns.NullStrands | async_API.c:998-1000 | a null and a future that succeeds: never resumed |
| AwaitRuns.OutputInOrder | async_API.c:1143-1168 | with the order preserved the output is exactly the successes in the order of the array, each with its value; with missing ones filled in, exactly the registered futures in that order, null for those that did not succeed |
| AwaitContext.UpdateTable | async_API.c:438-446 | an update in place keeps the order, a new key goes last |
| AwaitContext.DropHoles | async_API.c:1143-1168 | the loop drops exactly the places kept for nothing |
| AwaitContext.Context.Settle | async_API.c:370-459 | the callback keeps the invariant; a suspended coroutine is resumed exactly when it has what it waits for |
| AwaitContext.Context.Wake | async_API.c:1131-1134 | the resumed coroutine goes on with its target or the total reached; the invariant is kept |
| AwaitContext.Context.RegisterAll | async_API.c:984-1066 | the registration loop with replay of closed futures and early end |
| AwaitContext.Context.Start | async_API.c:956-1134 | registration meets the invariant; the coroutine suspends only with something pending and the target not reached |
| AwaitContext.Context.Collect | async_API.c:1143-1168 | what the caller gets |
| SignalRuns.HandlerWhereWaited | libuv_reactor.c:1471-1504 | a signal that is waited for, and SIGCHLD while a listed process event is started, has its handler; the system calls the reactor exactly for signals that have one |
| SignalRuns.HandlerOnlyIf | libuv_reactor.c:1509-1555 | no handler without a waiter, a chain subscription or a listed process event, exactly if no process event is started that nothing accounts for |
| SignalRuns.UnaccountedOnlyAfterFailure | libuv_reactor.c:2245-2266 | only an event whose earlier start failed is ever started so |
| SignalRuns.HandlerLeftBehind | libuv_reactor.c:2214-2267 | a run that leaves the SIGCHLD handler installed for nobody |
| SignalRuns.Restored | libuv_reactor.c:59-65 | the disposition under a handler is kept while it is there and comes back when it goes |
| SignalRegistry.Registry.constructor | libuv_reactor.c:56-57 | an empty registry meets the invariant |
| SignalRegistry.Registry.AddSignalEvent | libuv_reactor.c:1471-1504 | adding a waiter keeps the invariant and, if no handler was installed without a reason, installs none without one; the signal has a handler from then on |
| SignalRegistry.Registry.RemoveSignalEvent | libuv_reactor.c:1509-1555 | removing a waiter keeps the invariant and, if no handler was installed without a reason, installs none without one; a signal that still has waiters has its handler |
| SignalRegistry.Registry.ZendSigaction | libuv_reactor.c:1566-1614 | the delegate keeps the invariant and, if no handler was installed without a reason, installs none without one; the reactor keeps the signal exactly if it still has a handler, and otherwise the new disposition is in place |
| SignalRegistry.Registry.NewProcessEvent | libuv_reactor.c:2322-2363 | creating an event keeps the invariant and, if no handler was installed without a reason, installs none without one; the listed event for the process is returned, or the new one, which is listed |
| SignalRegistry.Registry.StartProcess | libuv_reactor.c:2214-2267 | a start keeps the invariant, and leaves a handler without a reason exactly if nothing accounts for it; a running child whose watch was not given up has the handler |
| SignalRegistry.Registry.StopProcess | libuv_reactor.c:2269-2280 | a stop keeps the invariant and, if no handler was installed without a reason, installs none without one; the last one closes the event and a closed event is not listed |
| SignalRegistry.Registry.DisposeProcess | libuv_reactor.c:2284-2317 | giving back a reference keeps the invariant and, if no handler was installed without a reason, installs none without one; the event is freed exactly with the last one and is not listed then |

## Left out

- The cross-thread future state is modelled on values, not as a class: the model captures every atomic step of every thread but not memory reuse after the state is freed.
- SharedFutureRuns.CancellationNotLost: only the producer binds and unbinds, as the header demands of its callers.
- SharedFutureRuns.Lifetime: only the owner tears the trigger down, as the destructors it models do.
- Memory orders weaker than sequential consistency: only the unlocked fast-path reads may be stale.
- Copies of a FutureState that are dropped in transit without being loaded: their reference is never released in the source.
- Future chains: mappers that suspend, futures mapped while the walk is under way, the chain of previous exceptions, and warnings about unused futures.
- FutureIterator.SettleTree: assumes that no future occurs twice in the tree, as each is made by one map, catch or finally call.
- FileIoRuns.AbandonedReadsLoseNothing: is stated for handles that only read; GivenBackIff says what a stat, flush or write does to an abandoned read, and BytesAccountedFor where the bytes are on a handle that does not write.
- FileHandle.Handle.DrainLane: notifications do not re-enter the handle.
- FileHandle holds its queues as sequences; RequestQueue proves the linked representation separately.
- Streams, sockets, pipes, sendfile, and the references that keep a handle's memory alive.
- ExecParser.Parser.Reserve: does not model overflow of the capacity, because sizes are unbounded here; the same holds for the next free index of an array.
- ExecParser.Parser.Finish: outside array mode the caller passes no buffer of its own, as the source reads the last line back from a temporary one.
- Concurrent iteration over Traversable objects and arrays modified during the iteration; the failure to spawn the first coroutine.
- ConcurrentIterator.Iterator.HandlerReturns: the iteration loop is cut at its handler calls, where another coroutine may run.
- The same future under two keys of one await: each key stands for a future of its own.
- Awaiting Traversable objects, errors that are thrown instead of collected, results that are not values, timeouts and cancel-on-exit.
- SignalRegistry.Registry.StartProcess: callbacks run by the notification do not re-enter the registry, and libuv calls do not fail.
- SignalRegistry.Registry.NewProcessEvent: process ids are positive, as those of children are.
- The reference that a handle takes on the event loop, and the cleanup at reactor shutdown.
- Channel deadlock timers and owner scopes, which only call close; iteration over a channel; the ring buffer, modelled as a sequence.
- The scheduler, scopes, pools, task groups and thread pools, which would need models of their own.
