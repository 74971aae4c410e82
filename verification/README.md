# ServerCore: a verified model of its concurrent core and codecs

ServerCore is a C++ server library. This project models the parts of it whose correctness is hardest to see from the
code and proves what they promise over every run and every input:

- **Outbound queue** (`Outbound*.dfy`): the single-driver pump with latest-value replacement, expiry, capacity waits, wake
  timers, drain and close.
- **Keyed executor** (`Keyed*.dfy`): serial execution per key, the intrusive ready list, budgets, cancellation and stop.
- **Request limiter** (`Request*.dfy`): token buckets over a bounded key table with pressure eviction and a cached scan time.
- **TCP connection** (`SendQueue.dfy`, `Tcp*.dfy`): receive, send, lingering close and the disconnect notification.
- **Shared send budget** (`SendBudget*.dfy`, `SendDispatch.dfy`, `SendAccounts.dfy`, `SendAnswers.dfy`): compare-exchange
  accounting and the lock-free notification dispatcher.
- **Receive flow control of the C interface** (`ReceiveFlow*.dfy`): pause and resume under two budgets.
- **Datagram transport** (`Datagram*.dfy`): replay, jump and endpoint checks around an unlocked callback.
- **UTF-8 and JSON** (`Utf8.dfy`, `Numerals.dfy`, `Json*.dfy`), **IP addresses** (`Ip*.dfy`), **log rotation** (`Log*.dfy`).

## How it is built

A concurrent component has three layers. Pure functions say what one critical section, or one atomic access, does to the
state. A *step system* (`World`, `Action`, `Enabled`, `Apply`) lets any number of threads interleave those steps with
everything the environment may do: completions, refusals, timers, failures, spurious compare-exchange failures. A run is
a sequence of worlds linked by enabled actions, and the main theorems quantify over all runs and all positions in them.
A class (`OutboundState.State`, `KeyedState.KeyedExecutorState`, ...) holds the source's fields and has one method per
critical section, with the source's loops; its `ensures` equates the new abstract state (`View()`) with the pure function
of the old one. Fields that no step reads (`pump`, `owner`, `log`, `started`, ...) are history and say so.

For the keyed executor the two meet: `KeyedReplay.KeyedSystem.Replay` plays any run of the step system on the heap object, so
that the links of the ready list are well formed at every position of every run.

Clocks, sockets, schedulers and random values are parameters or actions. Sizes and counters are unbounded integers; where
the source relies on a width, the bound is stated.

One promise turned out not to hold as it stands. When the scheduler is full, the outbound queue defers its wake to the
completion of the running timer. Two drivers that defer at overlapping times can store their subscriptions in the wrong
order; the newer one is then reset and the older one is ignored as stale. `OutboundOverlap.OverlappingDeferralsLoseTheWake`
is a run that ends with a message in an open queue and nothing that will send it. The failing step is a store that
*strands* (`OutboundWake.Strands`): at that moment the queue holds a live re-arm of the current generation, nobody drives the
pump or is on the way to it, and no capacity wait or timer covers the messages. `OutboundWake.WakeKeptIff` proves that a run
keeps a wake source in all its states if and only if none of its steps is of that kind; overlapping deferrals, and stores that
discard a live re-arm while something else stands for the messages, are harmless.

## Model

| member | source | states |
|---|---|---|
| OutboundWake.NoLostWake | src/Runtime/OutboundQueue.cpp:287-501 | In every state of every run without a stranding store, however its deferrals overlap, an open queue without a driver has a thread on its way to drive, halt or re-arm it, a live stored re-arm, or a pending capacity wait or due timer for its messages and a current-generation timer for every expiry |
| OutboundWake.WakeKeptIff | src/Runtime/OutboundQueue.cpp:319-346 | The exact condition: a run has a wake source in all its states if and only if none of its stores replaces the live re-arm while nothing else stands for the messages |
| OutboundWake.SignalSeenBeforeHandoff | src/Runtime/OutboundQueue.cpp:374-501 | A driver about to give up the pump with messages queued and no wake time leaves a kick that is on its way or a live capacity wait, so no signal that arrived during the drive is dropped |
| OutboundWake.QuiescentQueueIsWoken | src/Runtime/OutboundQueue.cpp:287-501 | Once all threads have returned, an open non-empty queue has a capacity wait, timer or re-arm that is enabled to fire |
| OutboundWake.StepAwake | src/Runtime/OutboundQueue.cpp:287-501 | Every enabled step other than a stranding store keeps the wake invariant, whatever thread or environment takes it |
| OutboundClaims.RunApart | src/Runtime/OutboundQueue.cpp:319-346 | In every run each re-arm subscription is in one place: in one thread's hand, to be stored or reset, or in the queue |
| OutboundOverlap.OverlappingDeferralsLoseTheWake | src/Runtime/OutboundQueue.cpp:319-346 | A concrete run in which two overlapping scheduler-full deferrals leave a message in an open queue with no thread and nothing enabled to fire |
| OutboundSafety.AccountingTheorem | src/Runtime/OutboundQueue.cpp:167-253 | At every lock release of every run, enqueued = queued + sent + replaced + expired + discarded; count and bytes cover the queue and fit both limits; the active message is queued; no latest key twice; finishing with Ok discarded nothing |
| OutboundSafety.SingleDriver | src/Runtime/OutboundQueue.cpp:374-385 | At most one thread is inside the pump and at most one inside the discard loop |
| OutboundSafety.QuiescentEnd | src/Runtime/OutboundQueue.cpp:183-253 | With no thread left, a closed queue is empty, uncharged and finished, and a drained empty queue is finished |
| OutboundSafety.StepSafe | src/Runtime/OutboundQueue.cpp:167-655 | Every enabled step keeps ownership, accounting and the obligation to finish |
| OutboundDelivery.QueueKeepsAdmissionOrder | src/Runtime/OutboundQueue.cpp:397-416 | In every state of every run the queue is strictly rising in admission stamps, a replacement inheriting the stamp of what it replaced, and every queued message is as its caller passed it |
| OutboundDelivery.SinkHasTheFirst | src/Runtime/OutboundQueue.cpp:397-421 | While the sink has a message, no queued message has a lower stamp |
| OutboundDelivery.ScanPicksTheFirst | src/Runtime/OutboundQueue.cpp:397-416 | A scan retires exactly what has expired, picks a message exactly when the queue is open, an unexpired one is there and attempts are left, and then the one with the lowest stamp |
| OutboundDelivery.SendsRise | src/Runtime/OutboundQueue.cpp:387-440 | Of two messages the sink took in a run, the earlier has the lower stamp; no message is taken twice |
| OutboundDelivery.StampsStay | src/Runtime/OutboundQueue.cpp:577-640 | A stamp, once given, is never changed |
| OutboundDelivery.LeavesForACause | src/Runtime/OutboundQueue.cpp:226-440 | A message leaves the queue exactly when it is replaced, expired at a scan, answered with Ok or after the close, or next in the discard loop; only an admitted message arrives |
| OutboundDelivery.AdmittedIff | src/Runtime/OutboundQueue.cpp:577-640 | In every reachable state a message is admitted if and only if the queue takes messages and there is room for it; a refused one changes nothing and is told Closed or WouldBlock accordingly |
| OutboundDelivery.CountersTellTheRun | src/Runtime/OutboundQueue.cpp:226-440 | Enqueued, sent, replaced, discarded and expired are the numbers of admissions, successful sends, replacements, discards and expiries of the run |
| OutboundOutcome.DriveIsBounded | src/Runtime/OutboundQueue.cpp:391-421 | While a thread keeps the pump it hands the sink at most the configured number of messages |
| OutboundOutcome.ClosedForACause | src/Runtime/OutboundQueue.cpp:202-221 | A closed queue has as its result the code of the owner, the sink, a failed wait, the scheduler or a throw, and the first one stays |
| OutboundQueue.ExpirySplits | src/Runtime/OutboundQueue.cpp:401-411 | Expiry splits the queue without losing or duplicating a message or a byte |
| OutboundQueue.Earliest | src/Runtime/OutboundQueue.cpp:486-490 | The next wake is at most every expiry and the given due time, is one of them, and is absent only when there is none |
| OutboundState.State.Enqueue | src/Runtime/OutboundQueue.cpp:577-640 | Each refusal has its cause, the payload kind against the queue's target included, and changes nothing; otherwise the new state is that of an admission or replacement |
| OutboundState.State.BeginPump | src/Runtime/OutboundQueue.cpp:374-385 | The caller becomes the driver exactly when nobody is and the queue is open, and the change flag is set either way |
| OutboundState.State.PickNext | src/Runtime/OutboundQueue.cpp:397-416 | One scan drops exactly the expired messages, keeps the others in order, and picks the front one while attempts remain |
| OutboundState.State.Settle | src/Runtime/OutboundQueue.cpp:422-438 | A finished send removes exactly the sent message, or keeps it for a retry |
| OutboundState.State.Release | src/Runtime/OutboundQueue.cpp:167-182 | The charge of retired messages is returned by count and by bytes |
| OutboundState.State.ChooseWake | src/Runtime/OutboundQueue.cpp:481-494 | The pump is given up exactly when no wake is needed |
| OutboundState.State.FinishIfReady | src/Runtime/OutboundQueue.cpp:183-201 | The queue becomes terminal exactly when nothing is owned, pending or halting and it is closed or draining |
| OutboundState.State.StartHalt | src/Runtime/OutboundQueue.cpp:202-221 | The first halt closes with its code, invalidates timers and takes the subscriptions; a second one does nothing |
| OutboundState.State.DetachOne | src/Runtime/OutboundQueue.cpp:227-246 | One turn of the discard loop takes the first message that is not being sent |
| KeyedRuns.OneJobPerKey | src/Runtime/KeyedExecutor.cpp:400-457 | Two workers inside a job, or publishing one, always work on different keys |
| KeyedRuns.StartsInSubmissionOrder | src/Runtime/KeyedExecutor.cpp:138-192 | The jobs of one key start in the order in which they were submitted |
| KeyedRuns.ReadyListWellFormed | src/Runtime/KeyedExecutor.cpp:305-332 | As a sequence, the ready list holds each key flagged ready exactly once, and each is live, idle and has queued work |
| KeyedReplay.KeyedSystem.Replay | src/Runtime/KeyedExecutor.cpp:305-332 | Any run played on the object ends in the run's state with head, tail and both links of every node spelling out its ready list, and every listed node a live idle key with work; since a run may stop anywhere, this holds at every position of every run |
| KeyedRuns.NoKeyStranded | src/Runtime/KeyedExecutor.cpp:305-512 | An idle key with queued work is listed, or its front task has a cancel reason nobody has handled and the coordinator's next scan acts |
| KeyedRuns.AccountsExact | src/Runtime/KeyedExecutor.cpp:165-184 | Outstanding, pending, running and retained bytes are the sums over live tasks and keys and stay within the limits |
| KeyedRuns.NothingDangles | src/Runtime/KeyedExecutor.cpp:342-512 | Whatever a worker or the coordinator is about to do, the task and key it needs exist |
| KeyedRuns.StepSafe | src/Runtime/KeyedExecutor.cpp:138-512 | Every enabled step of any thread keeps the executor's invariant |
| KeyedDrain.WrittenOnce | src/Runtime/KeyedExecutor.cpp:194-224 | A cancel reason is never replaced or cleared, a result never changes, and after a stop nothing is admitted |
| KeyedDrain.StopReachesEveryTask | src/Runtime/KeyedExecutor.cpp:209-224 | Once a stop was requested, every task that is not completing carries a reason |
| KeyedDrain.StopMakesProgress | src/Runtime/KeyedExecutor.cpp:400-512 | After a stop, each thread step that changes anything strictly decreases the remaining work |
| KeyedDrain.StopAddsNoWork | src/Runtime/KeyedExecutor.cpp:138-224 | After a stop, calls from outside leave the remaining work as it is |
| KeyedDrain.StopNeverStalls | src/Runtime/KeyedExecutor.cpp:400-512 | While work remains after a stop, some thread can take a step that decreases it |
| KeyedDrain.DrainedExactlyOnce | src/Runtime/KeyedExecutor.cpp:458-512 | When the coordinator has left, no task, key or charge remains and each accepted task was published exactly once, with its reason if it had one |
| KeyedDrain.AtMostOneResult | src/Runtime/KeyedExecutor.cpp:342-399 | A task has at most one result, and one exactly when it is terminal |
| KeyedOutcome.ResultIsTheJobs | src/Runtime/KeyedExecutor.cpp:434-457 | The result of a task nobody cancelled is the code its job returned, and that job returned exactly once |
| KeyedReasons.ReasonHasItsCause | src/Runtime/KeyedExecutor.cpp:194-304 | A step gives a task a reason exactly when it has none, is not completing, and the step finds its deadline passed or its parent token set or asks to cancel it; the reason says which |
| KeyedReasons.AdmittedAsPassed | src/Runtime/KeyedExecutor.cpp:138-192 | Only a submission adds a task; it carries what the caller passed and the reason seen at that moment |
| KeyedReasons.StartsOnlyUncancelled | src/Runtime/KeyedExecutor.cpp:406-433 | A worker that looks for work starts the front task of the first ready key exactly when that task is not cancelled, and otherwise stays idle |
| KeyedReasons.ScanServesTheOldest | src/Runtime/KeyedExecutor.cpp:458-512 | A scan turns to the oldest live task owed a signal: a waiting one is taken and published with its reason, a running one signalled; it ends exactly when stopping with no live task |
| KeyedReasons.AdmittedIff | src/Runtime/KeyedExecutor.cpp:278-295 | A submission is admitted if and only if it fits by itself, the executor is open and there is room beside the live tasks; each refusal has its code, and a key is in the table exactly while it has a live task |
| KeyedFairness.LongestWaitingFirst | src/Runtime/KeyedExecutor.cpp:305-433 | The key a worker takes off the ready list has been ready at least as long as every other key on it |
| KeyedList.ReadyList.Enqueue | src/Runtime/KeyedExecutor.cpp:305-317 | On heap nodes with both links, a key is appended exactly when it is idle, unlisted and has work, and the list stays well linked |
| KeyedList.ReadyList.RemoveReady | src/Runtime/KeyedExecutor.cpp:318-332 | A listed key is unlinked and the others keep their order and their links |
| KeyedTable.KeyTable.Unlist | src/Runtime/KeyedExecutor.cpp:318-332 | Unlinking a node removes exactly its key from the list the run sees, and the table's nodes and flags stay in step |
| KeyedState.KeyedExecutorState.CheckAdmission | src/Runtime/KeyedExecutor.cpp:278-295 | The admission code agrees with the specification, limit by limit |
| KeyedState.KeyedExecutorState.Submit | src/Runtime/KeyedExecutor.cpp:138-192 | A refused task changes nothing; an accepted one is charged, queued and listed |
| KeyedState.KeyedExecutorState.CancelTask | src/Runtime/KeyedExecutor.cpp:194-208 | Cancelling reports true exactly when it changed the task |
| KeyedState.KeyedExecutorState.Pick | src/Runtime/KeyedExecutor.cpp:406-433 | The head of the ready list is started, or taken off the list when it turns out cancelled |
| KeyedState.KeyedExecutorState.Finish | src/Runtime/KeyedExecutor.cpp:443-454 | A finished job's reason is observed one last time and the task becomes completing |
| KeyedState.KeyedExecutorState.PublishTask | src/Runtime/KeyedExecutor.cpp:342-399 | Publishing settles the task once, frees its key and relists it or unlinks and erases its node |
| KeyedState.KeyedExecutorState.StopAll | src/Runtime/KeyedExecutor.cpp:209-224 | The loop gives every live task that is not completing a reason and touches nothing else |
| KeyedState.KeyedExecutorState.Scan | src/Runtime/KeyedExecutor.cpp:458-512 | The first due task is handled; otherwise nothing changes and the wake time is the earliest deadline of a task without a reason |
| RequestBounds.RateBound | src/Runtime/RequestLimiter.cpp:26-221 | In any run, the cost granted to one key over any window is at most the burst plus what the window earns, however often its entry was evicted and recreated |
| RequestAnswers.AnswersExactly | src/Runtime/RequestLimiter.cpp:156-221 | In every reachable state a request is granted if and only if it is well formed, the limiter was not closed, permits are below both limits, the key has room and its bucket holds the cost; each refusal names the first of these that fails, with the shortest sufficient wait |
| RequestAnswers.BucketIsExact | src/Runtime/RequestLimiter.cpp:26-86 | What the table allows a key, with an entry or without, is what a bucket that starts full, earns by the clock and pays for its grants holds: evictions are invisible |
| RequestAnswers.RequestKeysExact | src/Runtime/RequestLimiter.cpp:179-199 | A request removes entries only to make room, and then exactly those without a permit whose bucket is full; it adds the key it reaches |
| RequestAnswers.CleanUpIsExact | src/Runtime/RequestLimiter.cpp:52-86 | A clean-up removes exactly the entries without a permit that are full and were not used lately, and of a closed limiter all without a permit |
| RequestAnswers.ReturnKeysExact | src/Runtime/RequestLimiter.cpp:118-131 | A returned permit removes no entry of an open limiter, and of a closed one exactly those without permits |
| RequestAnswers.SeenIsLastUse | src/Runtime/RequestLimiter.cpp:118-221 | An entry is dated by the last event that used its key |
| RequestBounds.LimitsTheorem | src/Runtime/RequestLimiter.cpp:156-221 | Keys, key bytes, total and per-key permits stay within limits in every state, and every live permit has its entry |
| RequestBounds.SkipFindsNothing | src/Runtime/RequestLimiter.cpp:37-86 | While the cached time has not come, a scan would evict nothing |
| RequestBounds.CachedScanIsUnobservable | src/Runtime/RequestLimiter.cpp:181-192 | A limiter that scans on every pressed request runs through the same events with the same answers |
| RequestBounds.RetryAfterIsTight | src/Runtime/RequestLimiter.cpp:205-213 | After the advised wait the bucket holds the cost; one millisecond earlier it does not, unless the wait is the minimum |
| RequestBounds.StepGood | src/Runtime/RequestLimiter.cpp:52-243 | Every event keeps the table's invariant, with the cached time or without it |
| RequestLimiter.RefillKeepsLevel | src/Runtime/RequestLimiter.cpp:26-36 | Refilling early changes no later level |
| RequestLimiter.NotFullBefore | src/Runtime/RequestLimiter.cpp:37-49 | Before its computed full time a bucket is not full |
| RequestState.RequestLimitState.Prune | src/Runtime/RequestLimiter.cpp:52-86 | The scan, in any order of the table, evicts exactly the evictable entries, refills the others, counts what it removed and caches the earliest full time |
| RequestState.RequestLimitState.TryAcquire | src/Runtime/RequestLimiter.cpp:156-221 | One request gets the specified answer and leaves the specified table |
| RequestState.RequestLimitState.ResetPermit | src/Runtime/RequestLimiter.cpp:118-131 | A returned permit is counted down, touches its entry and pulls the cached time forward |
| RequestState.RequestLimitState.PruneIdle | src/Runtime/RequestLimiter.cpp:229-235 | Without pressure only entries full and idle for long enough are evicted, and counted |
| RequestState.RequestLimitState.Close | src/Runtime/RequestLimiter.cpp:236-243 | Closing evicts every entry without a permit |
| TcpRuns.DisconnectsOnceAndLast | src/Net/Connection.cpp:616-644 | OnDisconnected is delivered at most once and nothing is delivered after it |
| TcpRuns.DisconnectsAtRest | src/Net/Connection.cpp:616-644 | When it is delivered, the connection is closed, nothing is in flight or lingering, and no receive callback runs |
| TcpRuns.NoReceiveOnceNotified | src/Net/Connection.cpp:298-387 | Once the notification is claimed no receive callback starts |
| TcpRuns.QuiescentMeansDelivered | src/Net/Connection.cpp:298-435 | At rest, a closed connection with an observer and nothing in flight has delivered its disconnect |
| TcpRuns.DestroyedMeansDelivered | src/Net/Connection.cpp:44-81 | The destructor's assertions hold, and after it an observer was told exactly once |
| TcpRuns.LingeringIsDraining | src/Net/Connection.cpp:437-493 | Lingering means an open half-shut socket with a receive in flight or a callback running |
| TcpRuns.ReceiveBufferIsBorrowedAlone | src/Net/Connection.cpp:298-387 | No receive is in flight while a callback borrows the buffer, and only one callback does |
| TcpRuns.StreamIntegrity | src/Net/Connection.cpp:117-175 | Until the close, completed bytes followed by unsent bytes are exactly the accepted bytes; afterwards a prefix was sent |
| TcpRuns.SendsExactlyWhileQueued | src/Net/Connection.cpp:389-435 | While open, a send is in flight exactly when something is queued; closed and idle, the queue is empty |
| TcpRuns.GracefulShutdownLosesNothing | src/Net/Connection.cpp:585-614 | The send side is shut down gracefully only after every accepted byte completed |
| TcpRuns.SendBufferStays | src/Net/Connection.cpp:495-569 | From any moment of any run at which a send borrows bytes, the same bytes of the same payload stay lent, and the connection lives, until that send completes |
| TcpTraffic.KeepsListening | src/Net/Connection.cpp:298-493 | In every state of every run an open, started, unpaused connection outside its callback has a receive in flight |
| TcpTraffic.NoReceiveUninvited | src/Net/Connection.cpp:437-493 | A receive is posted only by a connection that lingers, or is open, started and not paused, and never during the callback |
| TcpOutcome.EndsForItsCause | src/Net/Connection.cpp:298-614 | An open connection ends exactly by one of the listed causes and with its code, and the first code stays; after a graceful end the socket is half shut and lingers, after any other it is gone |
| TcpOutcome.LingersUntil | src/Net/Connection.cpp:298-387 | The socket lingers from a graceful end exactly until the owner closes, the peer is done, or a receive fails |
| TcpHistory.TellsItsPast | src/Net/Connection.cpp:83-435 | Started, paused, draining and observed are what the calls said; the accepted bytes are those of the accepted sends, as many are completed as the kernel reported, and the observer got every chunk received before the end, in order |
| TcpHistory.DisconnectNamesTheReason | src/Net/Connection.cpp:616-644 | The observer is told the reason for which the connection ended |
| TcpSafety.StepSafe | src/Net/Connection.cpp:83-644 | Every enabled step keeps the connection's invariant |
| TcpState.ConnectionState.StartReceiveLocked | src/Net/Connection.cpp:437-493 | A receive is started, left alone or fails and closes, as specified |
| TcpState.ConnectionState.CloseLocked | src/Net/Connection.cpp:177-188 | Closing drops a pending graceful close, fixes the reason once, and keeps what a send in flight borrows |
| TcpState.ConnectionState.SendLocked | src/Net/Connection.cpp:117-175 | Each refusal has its cause and changes nothing; an accepted payload joins the stream |
| TcpState.ConnectionState.CloseAfterSendLocked | src/Net/Connection.cpp:193-207 | A graceful close waits for the queue or finishes at once |
| TcpState.ConnectionState.ReceiveCompleted | src/Net/Connection.cpp:298-355 | The observer is called exactly for bytes on an open connection that is not lingering |
| TcpState.ConnectionState.CallbackReturned | src/Net/Connection.cpp:357-387 | After the callback the next receive is started as specified |
| TcpState.ConnectionState.SendCompleted | src/Net/Connection.cpp:389-435 | A completion advances the stream, restarts or finishes, or closes the connection |
| TcpState.ConnectionState.ClaimDisconnect | src/Net/Connection.cpp:616-639 | At most one caller gets to deliver the reason, and only when all conditions hold |
| SendQueue.AppendExtends | src/Net/SendQueueInternal.cpp:26-49 | An accepted payload goes to the end of the unsent stream |
| SendQueue.ConsumeAdvances | src/Net/SendQueueInternal.cpp:63-80 | A completion of n bytes takes exactly the next n bytes off the stream, across partial sends |
| SendQueue.SendQueueState.Enqueue | src/Net/SendQueueInternal.cpp:26-49 | Accepted exactly when empty or granted and within the connection limit; a refusal changes nothing |
| SendQueue.SendQueueState.Complete | src/Net/SendQueueInternal.cpp:63-80 | The stream advances and the released charge is that of payloads used up |
| SendQueue.SendQueueState.Clear | src/Net/SendQueueInternal.cpp:81-90 | All retained bytes are released |
| SendAccounts.QuiescentMeansNotified | src/Net/SendBudgetInternal.cpp:65-101 | With no thread left, both dispatcher flags are clear and every pending wait is of an open connection and exceeds a budget |
| SendAccounts.ChangeIsAlwaysWatched | src/Net/SendBudgetInternal.cpp:44-101 | A set flag always has a thread that will look at it, and at most one thread dispatches |
| SendAccounts.BudgetIsExact | src/Core/AtomicBudgetInternal.h:12-41 | No limit is ever exceeded, and with no operation in progress the counter is the sum of all retained bytes |
| SendAccounts.ReleaseNeverUnderflows | src/Core/AtomicBudgetInternal.h:29-41 | A release never finds less in the counter than it gives back |
| SendAccounts.NoThreadIsStuck | src/Net/SendBudgetInternal.cpp:65-101 | Every thread can take its next step |
| SendAnswers.RefusedForWantOfRoom | src/Core/AtomicBudgetInternal.h:12-27 | A reservation is refused only if the shared counter had no room for it at some moment of the call |
| SendAnswers.WaitEndsForACause | src/Net/ConnectionFlowControl.cpp:42-68 | A wait ends only by cancellation, with its connection, or by an evaluation that found the connection closed or room in both budgets when it read them |
| SendDispatch.StepDispatching | src/Net/ConnectionFlowControl.cpp:27-103 | Every atomic step of reservation, release, wait, close, destruction and dispatch keeps the notification invariant |
| SendBudgetState.SendBudgetState.TryReserve | src/Core/AtomicBudgetInternal.h:12-27 | Through any failed exchanges, the whole amount is reserved on top of the value found, or nothing is |
| SendBudgetState.SendBudgetState.Release | src/Net/SendBudgetInternal.cpp:22-28 | The amount is subtracted once from the value found last, and the change flag is set when it is not zero |
| SendBudgetState.SendBudgetState.Evaluate | src/Net/ConnectionFlowControl.cpp:42-68 | A wait is completed exactly when its connection is closed or both budgets have room |
| SendBudgetState.SendBudgetState.Wait | src/Net/ConnectionFlowControl.cpp:70-103 | Each refusal has its cause; an accepted wait is registered once and completed at once exactly when it fits |
| SendBudgetState.SendBudgetState.Visit | src/Net/SendBudgetInternal.cpp:72-92 | The ordered walk evaluates exactly the registered waits, each once |
| SendBudgetState.SendBudgetState.Notify | src/Net/SendBudgetInternal.cpp:65-101 | Whoever gets the dispatcher leaves both flags clear and no registered wait that is closed or fits |
| ReceiveFlowSafety.NoPauseWithoutCause | src/C/Net.cpp:347-375 | At rest, a paused connection is paused by the caller, over its own budget, or listed as waiting for a full global budget |
| ReceiveFlowSafety.WaitingIsNeverForgotten | src/C/Net.cpp:203-225 | A connection noted as waiting is always on the list or in a batch some thread has taken |
| ReceiveFlowPressure.CausePauses | src/C/Net.cpp:347-375 | At rest, a connection the caller wants paused, or whose own budget is full, is paused |
| ReceiveFlowPressure.FullBudgetPauses | src/C/Net.cpp:203-375 | A receive that finds the shared budget full, and full it stays, leaves its connection paused when its update ends |
| ReceiveFlowPressure.BudgetsHoldWhatIsCharged | src/C/Internal.h:99-165 | Each budget holds the events and bytes charged to it and not returned, and its limits stay |
| ReceiveFlowSafety.StepSafe | src/C/Internal.h:99-165 | Every step of charging, releasing, updating and waking keeps the flow invariant |
| ReceiveFlowState.PeerState.UpdateFlow | src/C/Net.cpp:347-375 | The recheck loop leaves the connection paused exactly for the causes last seen, and lists it at most once |
| ReceiveFlowState.PeerState.SetUserPaused | src/C/Net.cpp:94-101 | The caller's wish is stored and the pause follows from all causes |
| DatagramSafety.SequencesRise | src/Runtime/DatagramTransport.cpp:834-990 | Of two commits of one registration the later has the higher sequence, the same session and token and, without migration, the same endpoint |
| DatagramSafety.JumpsAreBounded | src/Runtime/DatagramTransport.cpp:834-990 | Each committed sequence is above the registration's previous one by at most the allowed jump |
| DatagramSafety.MapsStayInverse | src/Runtime/DatagramTransport.cpp:674-727 | Peer and token maps are inverse, a session's state is that of its last commit, sessions fit the limit, and one thread polls |
| DatagramDelivery.SessionsAreThoseRegistered | src/Runtime/DatagramTransport.cpp:476-727 | The sessions are exactly those registered and not unregistered since the socket was last closed, and a registration succeeds exactly when the socket is open, identity and token are free and there is room |
| DatagramDelivery.OffersWhatIsNew | src/Runtime/DatagramTransport.cpp:870-941 | A received datagram is offered exactly when it is above its live registration's last commit, within the jump and from an allowed endpoint; any other changes nothing |
| DatagramDelivery.CommitsWhatStillLives | src/Runtime/DatagramTransport.cpp:957-979 | After admission it is committed and delivered exactly when socket, binding and registration still live and nothing newer was committed |
| DatagramDelivery.NewDatagramIsTaken | src/Runtime/DatagramTransport.cpp:870-979 | When nothing intervenes, a new datagram that the callback admits is committed as it came |
| DatagramDelivery.PollsUntilEnded | src/Runtime/DatagramTransport.cpp:834-990 | A poller goes on exactly until the socket is closed or bound anew, its budget or the socket has nothing left, or a callback throws |
| DatagramSafety.StepSafe | src/Runtime/DatagramTransport.cpp:476-990 | Every step keeps the invariant, also while a checked datagram waits for its callback |
| DatagramState.TransportState.BindSocket | src/Runtime/DatagramTransport.cpp:476-499 | A successful bind starts a new binding; an open socket and the last generation are refused |
| DatagramState.TransportState.CloseSocket | src/Runtime/DatagramTransport.cpp:518-543 | Closing forgets all sessions and tokens |
| DatagramState.TransportState.RegisterSession | src/Runtime/DatagramTransport.cpp:674-717 | Registers under the first drawn token that is not in use; refused, without a change, exactly when no drawn token could register the session |
| DatagramState.TransportState.UnregisterSession | src/Runtime/DatagramTransport.cpp:719-727 | The session leaves both maps |
| DatagramState.TransportState.Check | src/Runtime/DatagramTransport.cpp:870-941 | The poller goes on exactly while the socket is open under its binding, and a datagram is then offered exactly when all checks pass |
| DatagramState.TransportState.CommitDatagram | src/Runtime/DatagramTransport.cpp:957-979 | It is committed exactly when the socket is open under the same binding and the registration, token and sequence still fit |
| Utf8.IsValidUtf8 | src/Core/Utf8.cpp:9-72 | The loop accepts exactly the concatenations of encodings of Unicode scalar values (sections 3 and 4 of RFC 3629) |
| Utf8.DecodeIffWellFormed | src/Core/Utf8.cpp:9-72 | The decoder that rejects overlong forms, surrogates and values above 10FFFF succeeds exactly on well-formed strings |
| Utf8.DecodeOfEncode | src/Core/Utf8.cpp:9-72 | Decoding undoes encoding |
| Utf8.EncodeOfDecode | src/Core/Utf8.cpp:9-72 | Encoding undoes decoding, so each string has one spelling |
| Utf8.AppendedIsAccepted | src/Protocol/Json.cpp:279-303 | What the parser appends for a scalar value is accepted and decodes back to it |
| Utf8.MaskForms | src/Core/Utf8.cpp:15-60 | The masks of the code are the divisions and remainders of the model, for all bytes |
| Utf8.ShiftForms | src/Protocol/Json.cpp:279-303 | The shifts of the code are the arithmetic of the model |
| JsonRoundTrip.RoundTrip | src/Protocol/Json.cpp:227-806 | What the printer accepts it prints as well-formed UTF-8 that parses back to the same tree when the value limit allows, and as TooLarge otherwise |
| JsonSpelling.AcceptsTheGrammar | src/Protocol/Json.cpp:227-611 | A text is accepted within n values if and only if it is UTF-8 and has a derivation by the grammar of RFC 8259 whose value keeps to both limits, and the result is that value, whichever derivation is taken |
| JsonReading.DocumentRead | src/Protocol/Json.cpp:227-611 | Every derivation is read as the value it denotes within the limits; beyond a limit the parser says which |
| JsonReading.CodedRead | src/Protocol/Json.cpp:393-415 | The escape of a code point, built from it as section 7 of RFC 8259 says, one group or a surrogate pair, in digits of either case, is read as that code point |
| JsonReading.StringRead | src/Protocol/Json.cpp:337-422 | Every spelling of a string is read as the bytes it denotes, wherever it stands |
| JsonReading.NumberRead | src/Protocol/Json.cpp:424-528 | Every number token of section 6 of RFC 8259 is read whole: an integer when 64 bits hold it, otherwise a double or an error |
| JsonSpelling.DocumentSpelled | src/Protocol/Json.cpp:227-611 | Whatever document is accepted has a derivation, and the result is what it denotes |
| JsonSpelling.ObjectMeaning | src/Protocol/Json.cpp:555-611 | An object denotes something if and only if all its values do and no key occurs twice; it then has one member for each field, in the order of the keys |
| JsonResults.ParsedIsCanonical | src/Protocol/Json.cpp:227-611 | Whatever text is accepted, the tree has well-formed strings and strictly ordered well-formed keys, respects the nesting limit, and took exactly its number of values from the limit |
| JsonResults.ParsedPrintsAndParses | src/Protocol/Json.cpp:227-806 | The converse round trip: a parsed tree without doubles is accepted by the printer, and its text parses to the very same tree |
| JsonStrings.StringWellFormed | src/Protocol/Json.cpp:337-422 | Every string read from a well-formed text is well-formed, whatever escapes and surrogate pairs it uses |
| JsonRoundTrip.NestingLimitsCoincide | src/Protocol/Json.cpp:666-672 | The printer refuses a tree for its depth exactly when the parser refuses its text |
| JsonRoundTrip.QuotedString | src/Protocol/Json.cpp:337-422 | Every byte string survives quoting and reading, wherever it stands |
| JsonRoundTrip.AcceptedIsExact | src/Protocol/Json.cpp:735-806 | The printer accepts only well-formed strings and keys |
| JsonRoundTrip.DumpRenders | src/Protocol/Json.cpp:665-806 | The printer succeeds exactly within the depth limit and then prints the reference rendering |
| JsonParser.Parser.ReadValue | src/Protocol/Json.cpp:227-268 | The cursor parser agrees with the recursive specification on value, error, position and remaining values |
| JsonParser.Parser.ReadString | src/Protocol/Json.cpp:337-422 | Strings, escapes and surrogate pairs are read as specified |
| JsonParser.Parser.ReadNumber | src/Protocol/Json.cpp:424-528 | Numbers are scanned by the grammar; integers get their exact 64-bit value and kind |
| JsonParser.Parser.ReadArray | src/Protocol/Json.cpp:530-553 | The element loop agrees with the specification |
| JsonParser.Parser.ReadObject | src/Protocol/Json.cpp:555-611 | The member loop agrees with the specification, duplicate keys included |
| JsonParser.Parse | src/Protocol/Json.cpp:836-869 | Validation, byte order mark, document and trailing text together give the specified result |
| JsonParser.DumpEscapedString | src/Protocol/Json.cpp:618-663 | The escaping loop appends the quoted form |
| JsonParser.DumpValue | src/Protocol/Json.cpp:665-806 | The printer's loops append the specified text or report the specified error |
| JsonNumber.MagnitudeBelowOne | src/Protocol/Json.cpp:58-117 | True exactly when the token's exact rational magnitude is below one, for every grammatical token shorter than the exponent limit |
| JsonNumber.ReadExponent | src/Protocol/Json.cpp:99-115 | The exponent saturates and no step leaves 64 bits |
| JsonNumber.SaturationIsExact | src/Protocol/Json.cpp:99-117 | The saturated comparison decides the exact one and does not overflow |
| JsonNumber.ValueDecade | src/Protocol/Json.cpp:73-92 | The first non-zero digit fixes the magnitude to one decade |
| IpRoundTrip.V4RoundTrip | src/Core/Endpoint.cpp:102-168 | Every IPv4 address survives writing and reading |
| IpRoundTrip.V6RoundTrip | src/Core/Endpoint.cpp:102-211 | Every IPv6 address with any scope survives, wherever a run of zeros is left out (section 2.2 of RFC 4291) |
| IpRoundTrip.ParsedIsAddress | src/Core/Endpoint.cpp:102-146 | Whatever text is accepted, the result is four bytes, or eight words and a 32-bit scope |
| IpRoundTrip.RereadIsSame | src/Core/Endpoint.cpp:102-211 | Reading, writing with any run of zeros left out, and reading again gives what was read the first time |
| IpGrammar.AcceptsTheForms | src/Core/Endpoint.cpp:102-146 | A text of at most 64 bytes is accepted if and only if it has one of the forms of section 2.2 of RFC 4291, and the result is the address that form denotes |
| IpGrammar.TailRead | src/Core/Endpoint.cpp:52-62 | An embedded IPv4 address stands for two words, its first two and its last two bytes |
| IpGrammar.GroupRead | src/Core/Endpoint.cpp:63-78 | A group of hexadecimal digits of either case, leading zeros included, is read as its number |
| IpPieces.OnePair | src/Core/Endpoint.cpp:124-139 | Between plain texts the double colon is found where it is and only there |
| IpRoundTrip.BytesInjective | src/Core/Endpoint.cpp:140-146 | The sixteen stored bytes determine the eight words |
| IpText.ParseV4 | src/Core/Endpoint.cpp:20-38 | The dotted loop agrees with the specification |
| IpText.ParseWords | src/Core/Endpoint.cpp:39-83 | The word loop, with an embedded IPv4 tail, agrees with the specification |
| IpText.ParseAddress | src/Core/Endpoint.cpp:102-146 | The whole parser, with zone and double colon, agrees with the specification |
| IpText.FindBest | src/Core/Endpoint.cpp:173-189 | The loop finds the first longest run of at least two zero words (section 4.2 of RFC 5952) |
| IpText.WriteV6 | src/Core/Endpoint.cpp:190-205 | The writing loop produces the specified text |
| IpText.Format | src/Core/Endpoint.cpp:162-212 | The text of an address is read back as that address and leaves out the best run |
| LogRuns.RotationLosesNothing | src/Observability/AsyncLogger.cpp:230-290 | In every state of every run, whatever operations fail, no rename has replaced a segment, and every segment found at the start or created since is on disk, removed by retention, or deleted by someone else |
| LogRuns.ArchivesStayInOrder | src/Observability/AsyncLogger.cpp:230-290 | Active, pending, file.1 to file.N stay newest to oldest around any holes, and whatever was removed is older than all of them |
| LogRuns.RetentionIsBounded | src/Observability/AsyncLogger.cpp:230-253 | At most one more segment is removed than archived, and the books balance exactly |
| LogSafety.ArchiveGood | src/Observability/AsyncLogger.cpp:230-253 | One attempt removes a segment only when every slot is taken, and then only the oldest; a failed attempt keeps the pending segment |
| LogSafety.VacateGood | src/Observability/AsyncLogger.cpp:271-288 | If the active file cannot be moved, nothing was removed or shifted unless an older pending segment was archived |
| LogSafety.ReopenSound | src/Observability/AsyncLogger.cpp:255-263 | Truncation happens only where there is no file, and the believed size is never below the real one |
| LogRuns.OutputBounded | src/Observability/AsyncLogger.cpp:291-322 | No record makes the active file longer than the limit |
| LogRuns.NextRotationCatchesUp | src/Observability/AsyncLogger.cpp:271-322 | After any failures, the next rotation in which nothing fails makes the full file file.1 and what was left behind file.2, and writes the record to a new file |
| LogBytes.RecordLandsOrIsDropped | src/Observability/AsyncLogger.cpp:291-322 | A record that leaves room grows the active file by the bytes written and touches nothing else; any other is put out behind a rotation that makes room, or dropped; it is reported as put out exactly when all of it was written |
| LogBytes.RotationMovesWholeSegments | src/Observability/AsyncLogger.cpp:230-290 | Whatever fails, a rotation only moves segments: each is found as often as before with the same size, but for one new empty file |
| LogBytes.RotationReports | src/Observability/AsyncLogger.cpp:271-290 | A rotation reports success exactly when the file that was active is now file.1 and the stream is open |
| LogState.LoggerState.ArchivePending | src/Observability/AsyncLogger.cpp:230-253 | The search and shift loops agree with the specification under every pattern of failures |
| LogState.LoggerState.Rotate | src/Observability/AsyncLogger.cpp:271-290 | The rotation agrees with the specification |
| LogState.LoggerState.Output | src/Observability/AsyncLogger.cpp:291-322 | Fitting, rotating, dropping and writing agree with the specification |

## Left out

- Outbound sink and scheduler: the sink, `TimerScheduler` and `CompletionSubscription` are one-shot cells and refusals chosen by the environment; their internals are not part of this model.
- RequestBounds.RateBound: token arithmetic is over `real`; `long double` rounding and the saturating conversion of durations are not modelled.
- KeyedState.KeyedExecutorState.Scan: tasks are values in a map, unlike the key nodes; shared-pointer lifetimes, the result mutex and completion callbacks of task handles are not modelled.
- TcpRuns.StreamIntegrity: operating system calls are nondeterministic successes, failures and completions; a completion never reports more bytes than were lent.
- SendBudgetState.SendBudgetState.Notify: other threads' changes to the waits during a pass are left to the step system; here only the flag may be set again.
- ReceiveFlowSafety.NoPauseWithoutCause: allocation failure while a waiter is listed, and the disconnect path, are not modelled.
- Datagram sending: the send path, its rate buckets and the metrics would add only easy members.
- JsonRoundTrip.RoundTrip: trees holding doubles are excluded, because the decimal conversions of the standard library are not part of this model.
- JsonParser.Parser.ReadNumber: a double is kept as its token; the range check of the conversion is not modelled.
- JSON envelopes: `ParseEnvelopeDocument` and the value accessors are not modelled.
- IpText.ParseAddress: networks, endpoints with ports and mapped addresses are not modelled.
- LogRuns.RotationLosesNothing: record formatting, the message queue and the console are not modelled; nothing outside touches the archived files.
- LogState.LoggerState.Output: a line is its length; the bytes themselves are not modelled.
- Allocation failures: the paths that only report one are not modelled in any component.
- ServerHost, NetworkSession, FrameCodec, observation snapshots, configuration and the remaining C wrappers: plumbing around the components above.
