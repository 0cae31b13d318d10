# Pomelo kernel: a verified model

Pomelo is a small single-core kernel for the 3DS. This project models the four parts of it that carry
hard properties, and proves those properties for all inputs and all runs.

**Threads, wakers and synchronisation objects.** `Machine` is one transition system: threads, events,
timers, mutexes, arbiters, thread objects, ports and sessions, and a step for every operation. A step
yields the next state or reports the panic the code would raise. `KernelImpl` holds the same operations
as they run, on tables updated in place, with the code's loops; each method is proved against its step and
promises its caller what is proved of that step, and `Perform` carries the safety theorem over. About the
steps and their runs:

* `Wakers`, `WaitSyncN`, `Safety`: every queued waker is live in every state of every disciplined run, so
  no `.expect("Failed to wake up thread")` fires. The discipline is that a suspended thread makes no
  kernel call. `wait_sync_n` goes on after a successful wait; it keeps the invariant exactly for the lists
  described by `SafeList`, and `UnsafeListPanics` exhibits a run that ends in the failed wake-up.
* `History`, `Runs`: properties of all runs without any discipline, stated on a log of wake-ups, signals, locks
  and releases that no step reads.
* `Lockstep`: request queues and client waker queues are equal sequences, and likewise for ports.
* `Grants`, `Signals`, `Timeouts`, `Calls`: exactly who is woken by one call, who waits where, and what the rest keeps.
* `Timers`, `Ticks`: when and how often a timer fires over any run, what one kernel tick does to every
  thread, queue and signal, and timed waits from the call to the tick that ends them.
* `Joins`: each thread has its own thread object, dead exactly when the thread is Done, so ends never fail.
* `Waiters`: over every run, disciplined or not, whoever waits is queued and waits for nothing it could
  take: no wake-up is lost. Sessions and ports are not taken but served, and there a pending request does
  not stop a server from waiting (`PendingRequestMissed`).
* `Progress`: exactly which steps panic, and that careful runs never do.

**The page allocator.** `FreeList` says what freeing, coalescing and first fit mean on sequences of
blocks; `Headers` says how such a sequence lies in a byte memory as 12-byte headers inside the free
pages; `Kmm` is the allocator itself, working on that memory. Invariants are put on the `next` chain,
because older blocks hold stale `prev` fields. `allocate_linear` keeps the chain exactly when the head
block fits and is either split or alone (`AllocationKeepsIff`). `KmmRuns` follows whole runs in memory in
which owners write to their pages, and shows that both kinds of failing allocation are soon reached.

**IPC.** `Ipc` gives messages their meaning as words, and ties the code's masks and shifts (`Bits`) to
it; `IpcBuffer` is the reader and the writer over a 256-byte buffer, little-endian (`Bytes`), `Translation` says what carrying a
message between two handle tables means, and `Carrier` is `translate_ipc` as it runs.

**Virtual memory and thread-local storage.** `Spans` relates page spans to a flat byte map, `Virt` is
the chunked read and write, `Tls` the slot allocator. `read` hands the untranslated address to the
backing, so it is right exactly in a span mapped at page zero (`ReadsRightIff`).

Where the code and its comments or names disagree, the model follows the code: `wait_sync_n` does not
stop at the first success, `allocate_linear` returns a page number while `free` takes a byte address,
and the page counter of the TLS area wraps slot numbers after 32 pages although it counts to 255.

`dafny verify dfyconfig.toml` checks everything.

## Model

| member | source | states |
|---|---|---|
| `Safety.StepKeeps` | kernel/src/lib.rs:679-691 | every disciplined step from a state in which all queued wakers are live leads to such a state, or stops on a fault that is neither a failed wake-up nor a scheduler assertion; Done threads stay Done |
| `Safety.RunKeeps` | kernel/src/lib.rs:479-532 | the same over every disciplined run: each queued waker names a Waiting thread, carries its key and sits in an object it waits on; only the current thread is Running; a chosen next thread is Ready |
| `Safety.FromStart` | kernel/src/lib.rs:880-906 | so from the empty kernel no `.expect("Failed to wake up thread")` and no Ready or Running assertion can fire |
| `Safety.UnsafeListPanics` | hle/src/svc.rs:142-156 | without the restriction to safe lists a run in order does end in a failed wake-up: one thread, two one-shot events, the first signalled |
| `Safety.SchedulingKeeps` | kernel/src/lib.rs:1011-1025 | dispatching from an idle kernel and returning from a thread never fail and keep the invariant |
| `Wakers.WakeKeeps` | kernel/src/lib.rs:1222-1228 | waking a live waker succeeds, readies exactly its thread, bumps its key and purges exactly its wakers from every object |
| `Wakers.WakeUpKeeps` | kernel/src/lib.rs:486-532 | a wake-up of a Waiting thread never panics and keeps the waker invariant |
| `Wakers.WakeFrontExact` | hle/src/session.rs:57-62 | `wake_thread` wakes exactly the oldest waiter, tells it why, and leaves no waker of it in any queue; no other thread changes |
| `Wakers.RaiseSignalKeeps` | hle/src/event.rs:46-66 | raising a signal never fails and keeps the invariant |
| `Wakers.TimerTickKeeps` | hle/src/timer.rs:67-96 | so does a timer tick |
| `Wakers.ReleaseMutexKeeps` | hle/src/mutex.rs:46-54 | so does releasing a mutex |
| `Wakers.ArbiterSignalKeeps` | hle/src/arbiter.rs:32-62 | so does signalling an arbiter, whose queue holds one waker per thread |
| `Wakers.SendRequestKeeps` | hle/src/session.rs:130-139 | so does a synchronous request |
| `Wakers.ReplyKeeps` | hle/src/session.rs:75-81 | so does a reply |
| `Wakers.CreateSessionKeeps` | hle/src/svc.rs:231-252 | so does creating a session |
| `Wakers.AcceptSessionKeeps` | hle/src/svc.rs:254-277 | so does accepting one |
| `Wakers.ExitKeeps` | kernel/src/lib.rs:1055-1064 | so does the end of a thread |
| `WaitSyncN.WaitNTakesAtMostOne` | hle/src/svc.rs:120-159 | the loop as written takes at most one object, the first available one, and reports its position; or the caller waits with exactly its list and deadline, in each queue as often as the object is listed; every other object's signalled, acquired or dead state stays exactly as it was |
| `WaitSyncN.QueuedEverywhere` | hle/src/svc.rs:142-156 | where nothing is available, every queue gets the waker behind everybody else, once for every time its object is listed |
| `WaitSyncN.WaitNKeepsIffSafe` | hle/src/svc.rs:138-158 | the waker invariant survives exactly when every object behind the first available one in the list is still available once that one has been taken, which a caller can tell before the call |
| `Runs.StepSound` | kernel/src/lib.rs:276-321 | every step that does not panic keeps the run invariant below, whatever callers do |
| `Runs.RunSound` | hle/src/svc.rs:98-159 | so does every run |
| `Runs.NoWaiterOnAvailable` | hle/src/event.rs:28-72 | in every reachable state a signalled event or timer, a free mutex and a dead thread have empty waker queues |
| `Runs.GrantsNeverExceedSignals` | kernel/src/lib.rs:297-320 | for a one-shot or pulse event or timer, waits granted plus one if still signalled never exceed the signals |
| `Runs.AtMostOneHolder` | hle/src/mutex.rs:28-55 | in runs where only holders release, a mutex has exactly one holder when acquired and none when free |
| `Runs.SuspensionEndsOnce` | kernel/src/lib.rs:486-488 | over a run that wakes the thread at most 2^64 times no waker of it succeeds twice, so each suspension ends once, by one object or by its timeout |
| `Runs.WakerComesBack` | kernel/src/lib.rs:488-488 | the bound is exact: 2^64 wake-ups later the thread uses up the same waker again |
| `Timeouts.TickWakesExactlyTheExpired` | kernel/src/lib.rs:646-654 | the deadline half of a tick: exactly the Waiting threads whose deadline has passed become Ready, with TimeoutReached except after Sleep; every object keeps its kind, and its queue in order and number without exactly those threads' wakers |
| `Timeouts.NoLateWaker` | kernel/src/lib.rs:519-530 | after that half an object holds a waker if and only if it held it before and its thread has not timed out |
| `Ticks.TickExact` | kernel/src/lib.rs:986-996 | a whole kernel tick cannot fail: every thread whose deadline has passed is Ready and told so; any other thread changes only if a due timer it waits for wakes it; no object holds a waker of a timed-out thread; every due timer wakes its oldest waiter, or all of them if sticky, or else has its signal up |
| `Ticks.TimersWakeTheirOwn` | kernel/src/lib.rs:989-996 | the timers of a tick wake only threads that wait for them, once, with the timer as the cause |
| `Ticks.DueWaiterReady` | hle/src/timer.rs:79-94 | whatever other timers fire in the same tick, the oldest waiter of a due timer, or any waiter of a sticky one, ends up Ready |
| `Ticks.DueSignalUp` | hle/src/timer.rs:79-94 | the signal of a due timer that is sticky or has no waiter is up after the tick |
| `Ticks.TimedWait` | kernel/src/lib.rs:646-654 | a Waiting thread times out at a tick if and only if its deadline is not after the tick |
| `Ticks.SleepEnds` | guest/src/lib.rs:335-339 | from the call to the tick: a sleep until d ends normally at a tick not before d and goes on unchanged at any tick before it |
| `Ticks.Wait1TimesOut` | hle/src/svc.rs:98-118 | a wait for one unavailable object until d ends with TimeoutReached at a tick not before d; before d it goes on unless the object is a due timer |
| `Ticks.WaitNTimesOut` | hle/src/svc.rs:120-159 | the same for a wait on a list of which nothing is available |
| `Timers.AfterSet` | hle/src/timer.rs:58-97 | over every run after one `set`, whatever else happens in it: the first firing is at the run's first tick not before the initial time, if there is one; one-shot and sticky timers fire at most once, pulses are at least one interval apart; the kernel signals the timer exactly as often, each time as `Signals.TimerTickExact` says |
| `Timers.FirstFiring` | hle/src/timer.rs:67-77 | the first firing is at the first tick not before the due time |
| `Timers.FiresAtMostOnce` | hle/src/timer.rs:75-77 | one-shot and sticky timers fire at most once over any tick sequence |
| `Timers.PulsesAreSpaced` | hle/src/timer.rs:72-74 | pulses are at least one interval apart while time plus interval stays below 2^64 |
| `Timers.SpacingLostAtWrap` | hle/src/timer.rs:74-74 | the bound is needed: with interval 2^63 - 1 and two ticks at 2^64 - 1 the wrapped deadline lies in the past and both ticks fire, with no time between them |
| `Timers.PulseStopsPastSigned` | hle/src/timer.rs:69-74 | a due pulse timer whose next deadline lies between 2^63 and 2^64 fires once more and then stops for good, because the deadline reads as negative |
| `Timers.TickMovesSchedule` | kernel/src/lib.rs:986-996 | a kernel tick moves every timer's schedule by exactly one tick and logs a signal exactly when it was due, whatever other threads and timers do in that tick; what the signal does is `Ticks.TickExact` |
| `Timers.SignalledAsScheduled` | hle/src/timer.rs:67-96 | over every run that does not set the timer, with any other steps between the ticks, it is signalled exactly as often as its schedule fires at the run's tick times; each such signal is the one of `Signals.TimerTickExact` |
| `Timers.OtherStepSteady` | hle/src/timer.rs:59-96 | no step but a tick or setting the timer itself moves its schedule or signals it |
| `Grants.ReleaseHandsToOldest` | hle/src/mutex.rs:46-54 | releasing a contended mutex wakes exactly the oldest waiter and never frees the mutex in between; the others keep their order |
| `Grants.FailedWaitLeavesFree` | hle/src/mutex.rs:29-38 | a wait whose waiter is already awake leaves the whole state, and so the free mutex, unchanged |
| `Grants.ArbiterSignalExact` | hle/src/arbiter.rs:32-62 | signalling wakes exactly the oldest min(n, waiters) waiters on the address, all when n is negative; the rest keep their places; the result says whether anyone was woken |
| `Grants.DrainTakesOldest` | hle/src/arbiter.rs:43-53 | the drain with its decreasing counter takes a prefix of the waiters on the address |
| `Grants.DrainUpToCut` | hle/src/arbiter.rs:43-53 | up to one point of the queue every waiter on the address is taken, and behind it none |
| `Signals.StickyWakesAll` | hle/src/event.rs:50-57 | a sticky signal wakes exactly the threads with a waker in the queue and stays up with an empty queue |
| `Signals.OneShotWakesOldest` | hle/src/event.rs:58-65 | any other signal wakes exactly the oldest waiter and is consumed by it, or stays up if there is none |
| `Signals.RaiseExact` | hle/src/event.rs:46-66 | both together: what raising a signal leaves behind, in each reset type |
| `Signals.SignalEventExact` | hle/src/event.rs:46-66 | signalling an event cannot fail and does exactly that to its signal, its queue and its waiters |
| `Signals.TimerTickExact` | hle/src/timer.rs:67-96 | a timer that is not due does nothing; a due one moves its schedule on and wakes all waiters and stays up if sticky, else wakes the oldest waiter and stays down, else stays up |
| `Signals.WakeAllExact` | hle/src/thread.rs:238-241 | draining a queue wakes each thread that still has a live waker in it, and no other |
| `Signals.ExitWakesJoiners` | hle/src/thread.rs:233-243 | the end of a thread wakes exactly the threads waiting for it; later waits succeed at once |
| `Signals.ClearedEventBlocks` | hle/src/event.rs:68-71 | a wait on a cleared event queues |
| `Lockstep.ReplyReachesRequester` | hle/src/session.rs:75-81 | a reply is written to and wakes exactly the thread whose request was at the front; no other thread or session changes |
| `Lockstep.AcceptReachesCreator` | hle/src/port.rs:67-74 | accepting takes the oldest pending session and wakes exactly its creator |
| `Lockstep.SendRequestInStep` | hle/src/session.rs:130-139 | a request appends its thread at the server's queue and changes no other server session; whom it wakes is `Calls.SendWakesServer` |
| `Lockstep.CreateSessionInStep` | hle/src/port.rs:114-117 | creating a session never fails: a new pair of ends exists, its server end is pending behind all others with its creator, every other end keeps its state, and all queues stay in step |
| `Lockstep.WakeClientFront` | hle/src/session.rs:121-126 | waking the front of a client end dequeues, readies and resumes normally exactly the oldest waiter; no other thread or queue changes |
| `Lockstep.StepInStep` | hle/src/session.rs:50-140 | every step keeps all session and port pairs in step, and only a reply shortens a request queue |
| `Lockstep.RunInStep` | hle/src/svc.rs:211-277 | the same over every run in which client ends are waited on only through their own calls |
| `Lockstep.QueuesInLockstep` | hle/src/session.rs:116-139 | in every reachable state pending requests are, in order, the threads queued at the client session, and pending sessions were created, in order, by those queued at the client port |
| `Lockstep.FrontRequestStays` | hle/src/session.rs:66-81 | from receive to reply the front request does not change, over any run without a reply to that session |
| `Calls.SuspendExact` | kernel/src/lib.rs:774-786 | suspending a Running caller cannot fail; it then waits with exactly the given list, deadline and wait type and with a live waker for each listed object, no queue holds another waker of it, and nothing else changed |
| `Calls.Wait1Exact` | hle/src/svc.rs:98-118 | the caller has the object, of which only a sticky signal stays up, and is Ready; or it waits, with its deadline, behind everybody else in the queue; no other thread or object changes |
| `Calls.ArbiterWaitExact` | hle/src/arbiter.rs:27-30 | the caller waits on the address behind everybody else; nothing else changes |
| `Calls.ReceiveExact` | hle/src/session.rs:66-73 | with queues in step, receiving cannot fail: the caller gets the front request's message, and the request stays pending |
| `Calls.SendWakesServer` | hle/src/session.rs:50-62 | a request cannot fail: the caller waits last in the client session's queue; the oldest waiter of the server session, if there is one, is woken by it, told its position if it waits for several objects, and leaves every queue; no other thread changes |
| `Calls.CreateWakesServer` | hle/src/port.rs:52-64 | creating a session likewise leaves the caller last at the client port and wakes exactly the oldest accepter of the server port |
| `Calls.AcceptWaits` | hle/src/svc.rs:254-277 | with no session pending, the accepter waits last at the port, without a deadline, and nothing else changes |
| `Calls.DispatchExact` | kernel/src/lib.rs:1011-1025 | the chosen thread, or else the first Ready one, runs with its resume value used up and everything else about it unchanged; if there is none, nothing happens |
| `Calls.YieldExact` | kernel/src/lib.rs:898-903 | afterwards no thread is Running: the caller is Ready unless it waits or is Done, and everything else is as it was |
| `Calls.ScheduledRunsNext` | kernel/src/lib.rs:981-983 | a Ready thread handed to the scheduler runs next, whoever comes first, and the choice is used up |
| `Calls.CreationExact` | kernel/src/lib.rs:948-964 | what exists after each creation and how a first wait on it would go: a thread is Ready with a new living thread object of its own, an event blocks, a timer blocks and is not due at any time, a mutex is free unless created locked, port ends point at each other; nothing else changes |
| `Calls.SetTimerExact` | hle/src/timer.rs:58-65 | setting a timer replaces its schedule and leaves its signal, its queue and everything else alone |
| `Joins.StepJoinable` | kernel/src/lib.rs:948-964 | every disciplined step keeps it that each thread has a thread object of its own, dead exactly when the thread is Done |
| `Joins.ExitJoins` | kernel/src/lib.rs:1055-1064 | so the end of a thread cannot fail, and releases exactly those who wait for it |
| `Joins.RunJoinable` | hle/src/thread.rs:224-271 | the same over every disciplined run |
| `Joins.JoinedWhenDone` | hle/src/thread.rs:253-260 | in every state a disciplined run reaches, a wait for a thread succeeds at once if and only if the thread is Done |
| `Joins.EndReleasesJoiners` | hle/src/thread.rs:233-243 | and there the running thread can always end and wakes exactly its joiners |
| `Waiters.StepTied` | kernel/src/lib.rs:479-532 | whatever callers do, no step that does not panic leaves a thread waiting for an object whose queue does not hold its current waker |
| `Waiters.RunTied` | kernel/src/lib.rs:880-906 | the same over every run |
| `Waiters.NobodyWaitsInVain` | hle/src/event.rs:28-72 | no wake-up is ever lost: in every state any run reaches, whoever waits for an object is in its queue and the object could not be taken at once |
| `Waiters.QueuedExactlyWhereWaiting` | kernel/src/lib.rs:519-530 | in disciplined runs a waker is queued at an object if and only if its thread waits there with that key |
| `Waiters.DrainUndropped` | hle/src/event.rs:50-57 | draining a queue loses nobody: each thread with a waker in it no longer waits, and all others keep their places |
| `Waiters.PendingRequestMissed` | hle/src/session.rs:39-43 | sessions are different: a server that waits while a request is already pending is queued all the same |
| `Progress.SuspendsIff` | kernel/src/lib.rs:774-786 | a suspension succeeds exactly for a Running current thread |
| `Progress.WakesIff` | kernel/src/lib.rs:486-517 | a wake-up panics exactly on a thread without a wait type, a sleeper woken by an object, or an object that the thread does not wait for |
| `Progress.WrongObjectIgnored` | hle/src/svc.rs:98-118 | an operation on an object that does not exist, or is not of the kind it is for, changes nothing |
| `Progress.MisusePanics` | hle/src/session.rs:75-76 | a wait on a null handle and a reply to nobody are the panics NullObject and RepliedToNobody |
| `Progress.StepSucceedsIff` | kernel/src/lib.rs:909-1150 | from a healthy state a disciplined step panics if and only if it is one of those two misuses |
| `Progress.CarefulRunSucceeds` | kernel/src/lib.rs:880-906 | over every run that keeps the discipline, waits on client ends through their own calls only and commits neither misuse: every step succeeds, all wakers are live, all queues are in step, all threads can be waited for |
| `Progress.NeverPanics` | kernel/src/lib.rs:880-906 | so from the empty kernel no such run ever panics |
| `KernelImpl.Retain` | hle/src/event.rs:40-42 | filtering a waker queue in place equals the specification's purge |
| `KernelImpl.RetainSlots` | hle/src/arbiter.rs:64-66 | the same for an arbiter's slots |
| `KernelImpl.DrainFilter` | hle/src/arbiter.rs:43-53 | the draining loop with its counter equals the recursive drain |
| `KernelImpl.Kernel.PurgeAll` | kernel/src/lib.rs:519-530 | purging object by object, repeats included, equals one purge of all awaited objects |
| `KernelImpl.Kernel.WakeUp` | kernel/src/lib.rs:486-532 | the new tables are those of the wake-up step, or the panic is |
| `KernelImpl.Kernel.Wake` | kernel/src/lib.rs:1222-1228 | a live waker succeeds: exactly its thread is readied, its key moves on and its wakers leave all queues; a spent one fails and changes nothing |
| `KernelImpl.Kernel.WakeAll` | hle/src/event.rs:52-55 | the waking loop equals the step over the drained queue |
| `KernelImpl.Kernel.WakeAllExpect` | hle/src/arbiter.rs:57-59 | the insisting loop equals its step, panic included |
| `KernelImpl.Kernel.Suspend` | kernel/src/lib.rs:774-786 | a Running caller waits with exactly the given list, deadline and wait type and with a waker that is live for every listed object and unknown to all queues; the waker invariant holds |
| `KernelImpl.Kernel.WaitOn` | hle/src/event.rs:29-38 | with a live waker it cannot fail and keeps the waker invariant; with a spent one every object keeps its signalled, acquired or dead state and no thread changes |
| `KernelImpl.Kernel.Wait1` | hle/src/svc.rs:98-118 | the caller has the object and is Ready, or waits with its deadline last in its queue; nothing else changes and the waker invariant holds |
| `KernelImpl.Kernel.WaitEach` | hle/src/svc.rs:142-156 | the loop over the list equals the step that goes on after a success |
| `KernelImpl.Kernel.WaitN` | hle/src/svc.rs:120-159 | the caller waits with its deadline in the queues of all objects, or has exactly the first available one and its position; the waker invariant survives if and only if the list is safe |
| `KernelImpl.Kernel.SleepThread` | guest/src/lib.rs:335-339 | the caller waits with exactly the given deadline, and no object knows a waker of it, so only that deadline ends the sleep |
| `KernelImpl.Kernel.RaiseSignal` | hle/src/event.rs:46-66 | sticky: every waiter is woken and the signal stays up; otherwise exactly the oldest waiter is woken and consumes it, or it stays up without waiters |
| `KernelImpl.Kernel.SignalEvent` | hle/src/event.rs:46-66 | an event does the same when signalled; the waker invariant holds |
| `KernelImpl.Kernel.ClearEvent` | hle/src/event.rs:68-71 | the event is not signalled, its queue and everything else are as they were |
| `KernelImpl.Kernel.SetTimer` | hle/src/timer.rs:58-65 | the schedule is the given one; signal, queue and everything else are as they were |
| `KernelImpl.Kernel.TimerTick` | hle/src/timer.rs:67-96 | if it is due, the timer signals and wakes whom it should and its schedule moves on, and if not, nothing changes; of all timers exactly this one moves; the waker invariant holds |
| `KernelImpl.Kernel.ReleaseMutex` | hle/src/svc.rs:14-27 | the oldest waiter is woken and the mutex never becomes free, or it is free because nobody waits |
| `KernelImpl.Kernel.ArbiterSignal` | hle/src/arbiter.rs:32-62 | exactly the oldest waiters on the address are woken, as many as asked for; the result is true exactly when the amount is not zero and somebody waits there |
| `KernelImpl.Kernel.ArbiterWait` | hle/src/arbiter.rs:27-30 | the caller waits last on the address; nothing else changes |
| `KernelImpl.Kernel.SendRequest` | hle/src/svc.rs:211-229 | with queues in step: cannot fail; the caller's request is pending behind all others at the server and nowhere else, the caller waits last at the client session, the server's oldest waiter is woken and leaves every queue, no other thread changes, and the queues stay in step |
| `KernelImpl.Kernel.Receive` | hle/src/session.rs:66-73 | with queues in step: cannot fail, only the caller's message area changes, and the request stays pending |
| `KernelImpl.Kernel.Reply` | hle/src/session.rs:75-81 | with queues in step: the thread whose request was at the front has the answer and is Ready; no other thread or session changes |
| `KernelImpl.Kernel.CreateSession` | hle/src/svc.rs:231-252 | with queues in step: cannot fail; a new session is pending behind all others with the caller as its creator, the caller waits last at the client port, the oldest accepter is woken, no other thread changes, and the queues stay in step |
| `KernelImpl.Kernel.AcceptSession` | hle/src/svc.rs:254-277 | with queues in step: the oldest pending session is taken and exactly its creator resumes, or, if none is pending, the caller waits last at the port and nothing else changes |
| `KernelImpl.Kernel.NextThread` | kernel/src/lib.rs:632-644 | finds the first Ready thread exactly when there is one |
| `KernelImpl.Kernel.Dispatch` | kernel/src/lib.rs:1011-1025 | from an idle kernel: cannot fail; the chosen thread, or else the first Ready one, runs and is handed the resume value it was woken with, or nothing happens if there is none |
| `KernelImpl.Kernel.Yield` | kernel/src/lib.rs:896-906 | afterwards no thread is Running and none is current |
| `KernelImpl.Kernel.Exit` | kernel/src/lib.rs:1055-1064 | the caller is Done, exactly the threads that waited for it are woken, and later waits for it succeed at once; it cannot fail while every thread has its own object, which stays so |
| `KernelImpl.Kernel.TickThreads` | kernel/src/lib.rs:646-654 | the loop over threads equals its step |
| `KernelImpl.Kernel.TickTimers` | kernel/src/lib.rs:986-996 | the loop over timers equals its step |
| `KernelImpl.Kernel.Tick` | kernel/src/lib.rs:986-996 | cannot fail: all expired threads are Ready and told so, no queue holds a waker of them, others change only if a due timer wakes them, and every due timer has woken its oldest waiter or raised its signal |
| `KernelImpl.Kernel.Create` | kernel/src/lib.rs:948-964 | the new object or thread is as asked for and nothing else changes |
| `KernelImpl.Kernel.Perform` | kernel/src/lib.rs:909-1150 | any operation does what its step says; so a disciplined one keeps the waker invariant and never stops on a failed wake-up, from a healthy state it fails if and only if it is a misuse, and any operation leaves whoever waits for an object in its queue |
| `FreeList.FreeChainCorrect` | kernel/src/memory/kmm.rs:138-222 | freeing a range disjoint from a separated chain yields a separated chain that covers exactly the old free pages and the freed ones, in all coalescing cases |
| `FreeList.SeparatedIsCanonical` | kernel/src/memory/kmm.rs:167-180 | a separated chain is determined by the pages it covers, so the result of freeing is the only correct one |
| `FreeList.AllocChainCorrect` | kernel/src/memory/kmm.rs:78-101 | a head-fitting allocation leaves a separated chain covering exactly the old free pages without the taken ones |
| `FreeList.RunKeepsPartition` | kernel/src/memory/kmm.rs:54-222 | over every run of head-fitting allocations and frees of live ranges, live ranges are pairwise disjoint, inside the region, and partition it together with the chain |
| `FreeList.InitialPartition` | kernel/src/memory/kmm.rs:54-70 | a fresh region starts such a run |
| `Headers.ReadWritten` | kernel/src/memory/kmm.rs:333-358 | a header reads back as written; how it lies in memory is `Headers.ChainBytes` |
| `Headers.ChainBytes` | kernel/src/memory/kmm.rs:333-358 | at the start of every free block lie its size and then the address of the next block, each as four bytes with the least significant first, zero for none |
| `Headers.SafeRaw` | kernel/src/memory/kmm.rs:305-323 | page pointers survive their raw encoding, none included |
| `Headers.WalkAgrees` | kernel/src/memory/kmm.rs:113-136 | the chain that memory spells out from a given first block is unique |
| `Headers.OtherChainKept` | kernel/src/memory/kmm.rs:182-222 | another region's chain survives writes to headers that are not its own |
| `Kmm.Region.InitRegion` | kernel/src/memory/kmm.rs:54-70 | the region becomes one free block, and one header is written |
| `Kmm.Region.FindInsertionPoint` | kernel/src/memory/kmm.rs:113-136 | the scan returns the neighbours between which the page belongs in address order |
| `Kmm.Region.MergeRight` | kernel/src/memory/kmm.rs:138-165 | merges exactly touching neighbours; size, successor and `last` are those of the merged chain, no other link changes |
| `Kmm.Region.Coalesce` | kernel/src/memory/kmm.rs:167-180 | merging right, then left, in memory equals the two merges of the chain |
| `Kmm.Region.Link` | kernel/src/memory/kmm.rs:187-219 | linking in, in memory, equals insertion in address order, first and last included, whatever stale `prev` fields are around |
| `Kmm.Region.Free` | kernel/src/memory/kmm.rs:182-222 | the whole of `free`: the chain stays linked, separated and complete, and no byte outside the headers of free pages is written |
| `Kmm.Region.AllocateLinear` | kernel/src/memory/kmm.rs:72-111 | fails exactly when no block fits; takes the first fit; writes no byte but the remainder's header; keeps a valid chain when the head fits and is split or alone |
| `Kmm.AllocationKeepsIff` | kernel/src/memory/kmm.rs:82-103 | an allocation leaves a correct chain for what remains if and only if the head block fits and is split or alone |
| `Kmm.OtherFitBreaks` | kernel/src/memory/kmm.rs:95-101 | otherwise no chain at all describes the memory left behind |
| `Kmm.LostTail` | kernel/src/memory/kmm.rs:92-97 | taking a whole head block that has a successor loses free pages |
| `Kmm.StillFree` | kernel/src/memory/kmm.rs:82-101 | taking from a later block leaves the taken pages in the chain |
| `KmmRuns.Serve` | kernel/src/memory/kmm.rs:72-222 | each allowed allocation or free in memory takes the abstract heap's step, keeps the partition, and touches no byte of a range that stays live |
| `KmmRuns.OwnersKeepChain` | kernel/src/memory/kmm.rs:333-358 | whatever owners write to their live pages, the chain in memory survives |
| `KmmRuns.FreshRun` | kernel/src/memory/kmm.rs:54-222 | over every run of allocations, frees and owners' stores from a fresh region: the chain stays right, the partition holds, and every byte stored in a range that is still live is still there |
| `KmmRuns.BrokenSoon` | kernel/src/memory/kmm.rs:72-222 | a fresh region of six pages gets into a state with a failing next allocation after two allocations and one free |
| `KmmRuns.BothFailuresReachable` | kernel/src/memory/kmm.rs:82-101 | there one page more empties the chain although four pages are free, and two pages more stay in the chain although they are taken |
| `Ipc.MessageRoundTrip` | kernel/src/ipc.rs:180-354 | any message that fits reads back identically, up to Single versus one-element Multiple and calling-process handles, whatever lies behind it in the buffer |
| `Ipc.LaidOut` | kernel/src/ipc.rs:318-354 | the exact words of a small message: header, two normal words, descriptor, handle and null |
| `Ipc.ResultSecond` | kernel/src/ipc.rs:299-311 | the result is the second word of a response and the normal words follow it |
| `Bytes.Encode` | kernel/src/ipc.rs:313-315 | four bytes whose little-endian value is the word |
| `Bytes.Decode` | kernel/src/ipc.rs:184-184 | the little-endian value of four bytes |
| `Bytes.EncodeDecode` | kernel/src/memory/kmm.rs:340-344 | the two are inverse on all four-byte sequences as well as on all words |
| `IpcBuffer.BufferByte` | kernel/src/ipc.rs:180-234 | byte 4k + i of the buffer is the i-th base-256 digit of its k-th word, lowest first |
| `IpcBuffer.FirstBytes` | kernel/src/ipc.rs:184-184 | a request that starts with bytes 40 00 02 00 is command 2 with one normal word |
| `Ipc.CountsFit` | kernel/src/ipc.rs:324-353 | fitting 256 bytes alone keeps both header counts and every handle count within six bits |
| `Ipc.ParamRoundTrip` | kernel/src/ipc.rs:236-341 | one handle parameter reads back, with anything behind it |
| `Ipc.UnpackPacked` | kernel/src/ipc.rs:398-406 | header fields unpack as packed |
| `Ipc.DescriptorFields` | kernel/src/ipc.rs:241-243 | the descriptor's flags and count read back |
| `Ipc.HeaderBits` | kernel/src/ipc.rs:348-352 | the header the code assembles with shifts and `or` is the packed header |
| `Ipc.HeaderMasks` | kernel/src/ipc.rs:398-406 | the masks and shifts of the header code take out exactly the packed fields |
| `Ipc.DescriptorBits` | kernel/src/ipc.rs:328-333 | the descriptor the code assembles is the sum of its fields |
| `Ipc.DescriptorMasks` | kernel/src/ipc.rs:239-243 | the masks of a handle parameter take out kind, flags and count |
| `Ipc.BufferMasks` | kernel/src/ipc.rs:263-273 | so do those of the two buffer parameters |
| `IpcBuffer.Writer.WriteNormal` | kernel/src/ipc.rs:318-322 | appends one word, as four bytes with the least significant first, exactly while there is room and no translate parameter was written |
| `IpcBuffer.Writer.WriteTranslate` | kernel/src/ipc.rs:324-341 | appends a handle parameter's words, each laid out as `IpcBuffer.BufferByte` says, exactly when it is writable and fits |
| `IpcBuffer.Writer.Finish` | kernel/src/ipc.rs:344-354 | patches the first four bytes with the header of the counts, least significant first, and nothing else |
| `IpcBuffer.Reader.ReadNormal` | kernel/src/ipc.rs:216-220 | returns the next word, whose base-256 digits are the next four bytes, lowest first, exactly while the header promises one and the buffer holds it |
| `IpcBuffer.Reader.ReadTranslate` | kernel/src/ipc.rs:236-276 | parses one parameter from the remaining words, each read as `IpcBuffer.BufferByte` says, or panics exactly when they do not hold it |
| `Translation.TranslationPreservesMeaning` | kernel/src/lib.rs:1081-1150 | the destination decodes to the same command, result, normal words and handle shapes; every nonzero handle names the source handle's object under a fresh handle; moved handles leave the source table; references are conserved by moves and grow by one per copy |
| `Translation.ItemsDelivered` | kernel/src/lib.rs:1105-1113 | exactly the handles that name an object when their turn comes arrive, distinct and fresh; the source loses exactly the moved handles, the receiver gains exactly the delivered ones |
| `Translation.ReferencesConserved` | kernel/src/lib.rs:555-565 | for every object the references in both tables together change by exactly the number of copies |
| `Translation.ParamsAreItems` | kernel/src/lib.rs:1127-1149 | translating parameters is translating their handles in order and refilling the same shapes; other parameters are skipped |
| `Translation.TranslatedFits` | kernel/src/lib.rs:1099-1149 | the output never outgrows the buffer |
| `Translation.InsertSucceedsIff` | kernel/src/object_manager.rs:25-37 | insertion finds a handle exactly when some draw is nonzero and unused |
| `Translation.InsertTakesFirst` | kernel/src/object_manager.rs:25-37 | the handle is the first draw that is nonzero and unused, and exactly the draws up to it are used up |
| `Carrier.ObjectTable.Insert` | kernel/src/object_manager.rs:25-37 | the drawing loop equals the specification: a fresh nonzero handle for the object, all other entries unchanged |
| `Carrier.CarryHandle` | kernel/src/lib.rs:1105-1113 | one handle moved or copied, as specified |
| `Carrier.CopyNormals` | kernel/src/lib.rs:1116-1118 | the normal words are copied in order, exactly when the buffer holds them |
| `Carrier.NormalBytesCopied` | kernel/src/lib.rs:1116-1118 | byte for byte, the normal words of the destination are those of the source |
| `Carrier.CarryParams` | kernel/src/lib.rs:1127-1149 | the streaming loop equals parsing all parameters and translating them |
| `Carrier.TranslateIpc` | kernel/src/lib.rs:1081-1150 | succeeds exactly when the specification does; the destination buffer then starts with the translated message and both tables are the specified ones; every byte of a normal word is copied to its place; unless it asks for the calling process, the message decoded there means the same as the source's |
| `Spans.LookupFinds` | kernel/src/memory/virt.rs:38-49 | in disjoint spans the greatest base at or below a page finds the span that holds it |
| `Spans.ChunkOverlays` | kernel/src/memory/virt.rs:102-112 | writing one chunk to a backing overlays it on the flat byte map |
| `Spans.RelativeReadIsFlat` | kernel/src/memory/virt.rs:70-94 | with span-relative addresses, reading succeeds exactly on mapped ranges and shows the flat map |
| `Spans.ReadBack` | kernel/src/memory/virt.rs:96-120 | such a read returns what was written |
| `Spans.ReadsRightIff` | kernel/src/memory/virt.rs:84-84 | the read as written is right for all contents if and only if the range lies in a span mapped at page zero |
| `Spans.MapKeepsIff` | kernel/src/memory/virt.rs:51-62 | mapping keeps the spans disjoint if and only if the new one overlaps none that stays |
| `Spans.MapShows` | kernel/src/memory/virt.rs:51-62 | the flat map then shows the new backing; what only a replaced span held is unmapped, everything else is unchanged |
| `Virt.VirtualMemory.MapMemory` | kernel/src/memory/virt.rs:51-62 | keeps the spans well formed exactly when nothing that stays is overlapped, and says what every address then holds; a span at the same page is replaced without notice |
| `Virt.VirtualMemory.Write` | kernel/src/memory/virt.rs:96-120 | succeeds exactly on mapped ranges, and is then one update of the flat byte map with everything else unchanged |
| `Virt.VirtualMemory.Read` | kernel/src/memory/virt.rs:70-94 | the loop as written equals the chunked specification at untranslated addresses, panics included |
| `Tls.ProcessTls.AllocateTls` | guest/src/lib.rs:129-145 | the k-th allocation returns slot k modulo 256, inside a mapped page, for all k below 2040, where the page counter overflows |
| `Tls.FirstSlots` | guest/src/lib.rs:133-144 | for k below 256 that is base + 0x200 k, inside the page mapped for it |
| `Tls.ApartIff` | guest/src/lib.rs:136-137 | two slots, and their IPC areas at offset 0x80, are apart exactly when their numbers differ modulo 256 |
| `Tls.AllApartIff` | guest/src/lib.rs:136-139 | the first n slots are pairwise disjoint if and only if n is at most 256; slot 0 comes back as number 256 |

## Left out

- Object references, `Rc` lifetimes, weak upgrades and type casts: objects are entries of one table, named by creation order; both ends of a session or port stay alive, and a missing end is the `Disconnected` fault.
- Handle lookup in the kernel calls: operations take objects; a wrong or null handle is an object number that does not exist or has the wrong kind.
- `wait_all`, unimplemented in the source, and the conversion of timeouts: a deadline is a parameter, as is the time of a tick; `make_timeout` and `Timeout::absolute` are easy.
- KernelImpl.Kernel.DeliverIpc: the message image is a parameter of the receive and reply steps; that it is the one computed by `translate_ipc` is `Carrier.TranslateIpc`.
- Machine.TimerTick: the sum of time and interval wraps at 2^64 instead of panicking in a checked build.
- Carrier.TranslateIpc: sender and receiver are different processes with different tables; a generator is a finite list of draws, and running out of draws is reported instead of looping on.
- Translation of StaticBuffer and BufferMapping parameters: only the skip is modelled, as in the source.
- IpcBuffer.Writer.WriteTranslate: an empty handle list panics, as in a checked build; `IPCRequest` and `IPCResponse`, older twins of reader and writer, are not modelled.
- Kmm.Region.Free: at least one page, aligned and inside memory; the three regions and their locks are one region at a time, with `Headers.OtherChainKept` as the frame between them.
- Kmm.AllocationKeepsIff: what later operations do on a broken chain is not described.
- Virt.VirtualMemory.Write: each span owns its bytes, so two spans mapped on the same backing are not modelled; spans are below 2^20 pages and ranges end below 2^32.
- Tls.ProcessTls.AllocateTls: the overflow of the page counter is a failure, as in a checked build.
- Liveness and fairness: the scheduler picks the first Ready thread and promises nothing to the others.
- CPU emulation, system call register decoding, services, file formats, start-up, interrupt delivery, the host clock and the random generator.
