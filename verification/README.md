# libcxxdes, modelled and proved in Dafny

libcxxdes is a discrete-event simulation kernel. Processes are coroutines; when they
suspend they leave tokens behind, and an environment pops tokens in (time, priority)
order and resumes whoever waits. Its claims are about whole runs: a composition ends when
the slowest or the fastest of its children does, no wake-up is lost, a split run is the
same run. This project models the kernel, the synchronisation objects, the coroutine
stack, shared coroutines, time arithmetic and reference counting, and proves such claims
for all programs, all inputs and all choices that the scheduler may make.

`dafny verify dfyconfig.toml` checks everything.

## How the model is laid out

**Scheduler.** `await_algebra` says what an await expression means: a time, computed with
minimum, maximum and addition. `kernel_state` gives each kernel operation as a function
on values: binding, asking for readiness, suspending, taking a token, returning. Objects
that the library allocates are indices into sequences. `environment` has the class
`Simulation.Environment`, which does the same with assignments and loops; every method is
proved equal to its function. The priority queue is "any token that the comparator lets
be on top", so all theorems hold for every tie-break. `kernel_invariant` and
`kernel_steps` carry a forecast: each token gets its due time when it is made, and no step
changes it. `kernel_theorems`, `kernel_runs` and `token_order` draw the conclusions.
`kernel_tokens` tells which tokens an await makes, with which priorities, and what becomes
of them.

**Synchronisation.** `sync_machine` is a closed system of processes that use events,
semaphores, mutexes, resources and queues; a segment between two suspensions is atomic,
and among the earliest tokens any may go first, which covers all priorities. The state
keeps a history of each object. `sync_invariant` and `sync_steps` prove one invariant,
`sync_theorems`, `sync_progress` and `sync_makespan` use it. `sync_effects` tells from the
programs alone, by how far each has got, what objects, handles and waiting processes
are. `sync_primitives` has the objects as classes; each pass of a check-loop is a method whose effect is that of the
machine's operation.

**Coroutine stack.** `subroutines` has bodies as syntax with a recursive evaluator, and
`trampoline` the class `CoroutineData` with its frame stack.

**Shared coroutines.** `shared_completion` is a state machine of coroutines that are
awaited through many handles, directly, in compositions or by `async`;
`completion_theorems` and `completion_effects` have its theorems, and `completion_objects`
the classes.

**Exceptions in compositions.** `composition_machine` has any number of processes that
await trees of compositions over timers, events and coroutines that may throw. Trees reach
coroutine handles by reference, so a handle may be part of many trees, and hold a token
that another await has left there or take away one that another waits for. The caller of
`step` may catch what leaves it and go on. A handle that a composition holds by value is
one that only that tree uses; among the earliest tokens any may go first, which covers all
priorities. `composition_invariant`, `composition_steps` and
`composition_begin` prove one invariant, `composition_errors` draws the conclusions,
`composition_times` says when tokens are due, down to the leaves, and `composition_runs`
has a run for each case.

**Time.** `time_units` has unit conversion and time expressions.

**Reference counts.** `reference_counts` has the operations on pointers,
`reference_theorems` what holds over all runs of them, `reference_effects` compares them
with pointers in a world where nothing is counted or deleted, and `memory` has a class whose `Unref`
is recursive as in the source.

## Where the code does less than one might think

- The comparator is an ordering exactly when no bare exception token is queued
  (`TokenOrder.OrderedIffNoBare`, with an input in `TokenOrder.ContradictsItself`).
- `docs/coroutine_model.md:264-266` says that an exception of a composed awaitable is
  visible to the process that awaits the composition. In the code that depends on tokens:
  the process sees an exception if and only if, when it goes on, a handle in its tree still
  holds a token whose coroutine has thrown, and it sees the first
  (`CompositionErrors.ProcessSeesIff`). So it misses one that is thrown later
  (`CompositionRuns.LaterThrowMissed`), or whose token another process has taken meanwhile
  (`CompositionRuns.TakenTokenMissed`), and it may see one that an earlier await has left
  behind (`CompositionErrors.VisitsStop`, `CompositionRuns.LeftTokenSeen`). In any case the
  exception leaves `step` when its token is taken (`CompositionErrors.ExceptionLeavesStepIff`),
  and it never completes a composition, so that an all_of whose last child throws leaves its
  process suspended for ever (`CompositionErrors.FiresIff`, `CompositionRuns.ThrowBlocksAllOf`).
- A composition that finds one of its handles being awaited throws, but what it has
  suspended on before stays so, and can resume its process in the midst of a later await
  (`CompositionRuns.RefusedResumesEarly`). Only without that does exactly one token resume a
  process (`CompositionErrors.OneTokenResumes`).
- The exception of a process that nobody waits for may be taken ahead of its time, and then
  the clock passes tokens that were due before (`CompositionRuns.BareTokenComesFirst`). Only
  without that are tokens taken on time (`CompositionErrors.TakenOnTime`).
- `coroutine.ipp:194-207` refuses a second await through the same coroutine object only while
  the object holds a token. A composition that another child has completed, and `async`, clear
  it before the coroutine ends; then the object suspends again
  (`CompletionTheorems.HandleSuspendsIff`, with runs in `CompletionTheorems.HandleSuspendsAgain`
  and `CompositionRuns.HandleSuspendsAgain`).
- A process that awaits a coroutine after it threw sees the exception only through a
  handle that still holds the token of an earlier await
  (`CompletionTheorems.LateAwaitAgreesIff`, with runs in `LateAwaitMissesException` and
  `LateAwaitTakesException`). `async` leaves no token in its handle. So awaiting a coroutine
  that was started asynchronously, as `docs/coroutine_model.md:268-269` advises in order to
  observe its failure, helps only if the await begins before the failure.
- Copy assignment of a pointer lets go of the old object before it reads the source. It
  works exactly if source and target are kept alive without the old reference of the target
  (`ReferenceTheorems.CopyDefinedIff`, with a failing run in
  `ReferenceTheorems.CopyNextFails`).
- A semaphore may be built with a value above its maximum, and then, and only then, it can
  be out of range (`SyncTheorems.SemaphoreInRangeIff`, with a start in
  `SyncTheorems.OverfullStarts`).

## Model

| member | source | states |
|---|---|---|
| `AwaitAlgebra.DenoteInflates` | include/cxxdes/core/impl/timeout.ipp:14-32 | no await expression ends before it begins, whatever its shape |
| `AwaitAlgebra.ReadyTakesNoTime` | include/cxxdes/core/impl/any_of.ipp:50-64 | an expression that is ready at once takes no time and no return latency |
| `AwaitAlgebra.EarliestIsLeast` | include/cxxdes/core/impl/any_of.ipp:233-239 | the time of an any_of is a lower bound of its children's and one of them, or never |
| `AwaitAlgebra.LatestBounds` | include/cxxdes/core/impl/any_of.ipp:241-247 | the time of an all_of is an upper bound of its children's and one of them, or the present |
| `AwaitAlgebra.ThreadAppend` | include/cxxdes/core/impl/sequential.ipp:3-20 | awaiting a list and then another takes the time of awaiting both in a row |
| `KernelTheorems.TimingTheorem` | include/cxxdes/core/impl/environment.ipp:117-146 | in every run, a process bound at any time returns exactly at the time the algebra gives its body, and never otherwise; when the queue is empty all that can return have |
| `KernelTheorems.AwaitTakesItsTime` | include/cxxdes/core/impl/any_of.ipp:9-84 | one await expression that begins at time n ends at its denoted time, for every priority and tie-break |
| `KernelTheorems.OneWayToWake` | include/cxxdes/core/impl/coroutine.ipp:194-207 | a suspended process has exactly one pending token that would resume it, a completed one has none, and exactly the incomplete ones are managed |
| `KernelTheorems.NeverResumesComplete` | include/cxxdes/core/impl/coroutine_data.ipp:20-29 | the assertion that a resumed process is not complete never fails |
| `KernelTheorems.HandlerAccounting` | include/cxxdes/core/impl/any_of.ipp:9-26 | a handler's counter is the number of its unprocessed children, so it never underflows; it keeps its output token exactly until its condition holds; nothing is queued twice |
| `TokenOrder.OutputScheduledWhenTrue` | include/cxxdes/core/impl/any_of.ipp:18-25 | the output token leaves its handler in the very step in which the condition becomes true, by a child's token, and is queued then, its latency later, with that token's priority and process |
| `TokenOrder.OutputScheduledOnce` | include/cxxdes/core/impl/any_of.ipp:24 | a handler that has let its output token go never holds one again |
| `KernelTokens.AwaitsInherit` | include/cxxdes/core/impl/timeout.ipp:6-12 | whenever a process goes on, the timers, compositions and processes of each await that it comes to get the nearest priority given on the way up the expression, or else that of the process; a completion token gets the awaited process's, unless its own is given; and exactly these tokens and processes are made |
| `KernelTokens.LaunchInherits` | include/cxxdes/core/impl/environment.ipp:282-307 | a process bound from outside starts after its latency with the priority given, or 0, and its completion token has that or its own |
| `KernelTokens.BindBound` | include/cxxdes/core/impl/any_of.ipp:41-48 | binding an expression gives every node and process of it the nearest priority given |
| `KernelTokens.SuspendStands` | include/cxxdes/core/impl/any_of.ipp:66-84 | suspending makes, in order, one token for each node that is waited for, with its priority, time, process and handler |
| `KernelTokens.NearestUnique` | include/cxxdes/core/impl/coroutine.ipp:204-205 | there is one nearest priority |
| `KernelTokens.TokensChange` | include/cxxdes/core/impl/environment.ipp:321-329 | no token ever changes but completion tokens when their process returns, and output tokens when their composition fires; then they are queued |
| `KernelTokens.ProcessesKeepPriority` | include/cxxdes/core/impl/environment.ipp:293-294 | the priority of a process never changes once it is bound |
| `KernelTheorems.NoTokenTwice` | include/cxxdes/core/impl/environment.ipp:117-126 | no token is popped twice in a run, so no output token is scheduled twice |
| `KernelTheorems.ClockFollowsTokens` | include/cxxdes/core/impl/environment.ipp:126 | the clock is the time of the token in hand, never goes back, and that token is the least queued by time and then priority |
| `KernelTheorems.LogInOrder` | include/cxxdes/core/impl/environment.ipp:117-146 | what a run processes is in time order |
| `KernelTheorems.NeverLate` | include/cxxdes/core/impl/coroutine.ipp:194-207 | as long as a process has not returned, its return time is not before any queued token |
| `KernelSteps.TopIsEarliest` | include/cxxdes/core/impl/environment.ipp:255-260 | the token on top is no later than any other, and not in the past |
| `KernelSteps.InvokeOk` | include/cxxdes/core/impl/any_of.ipp:9-26 | a handler that takes a child's token keeps the forecast of every token and process |
| `KernelSteps.DoReturnOk` | include/cxxdes/core/impl/environment.ipp:342-348 | a return happens at the forecast time and puts every waiter's token at that time plus its latency |
| `KernelSteps.ResumeOk` | include/cxxdes/core/impl/coroutine_data.ipp:20-29 | running a process to its next suspension keeps the forecast, through awaits that are ready at once |
| `KernelInvariant.BindOk` | include/cxxdes/core/impl/any_of.ipp:41-48 | binding an expression starts its sequential parts and gives it the meaning of the algebra |
| `KernelInvariant.PollOk` | include/cxxdes/core/impl/any_of.ipp:50-64 | the readiness computed at binding time is that of the algebra, and the counter counts the others |
| `KernelInvariant.SuspendOk` | include/cxxdes/core/impl/any_of.ipp:66-84 | suspending leaves exactly one token that resumes the waiter, due at the denoted time |
| `KernelRuns.RunsAreFinite` | include/cxxdes/core/impl/environment.ipp:179-182 | a run pops no more tokens than a budget computed from its start and its launches |
| `KernelRuns.ExactDeadline` | include/cxxdes/core/impl/environment.ipp:190-196 | run_until(t) adds to the log the tokens it has taken, with nothing later than t, leaves only later tokens, and ends at max(now, t) |
| `KernelRuns.SplittingChangesNothing` | include/cxxdes/core/impl/environment.ipp:190-196 | the runs of run_until(t1) and then run_until(t2) are exactly the runs of run_until(t2), for t1 <= t2 |
| `KernelRuns.RunForAdds` | include/cxxdes/core/impl/environment.ipp:205-208 | the runs of run_for(a) and then run_for(b) are exactly the runs of run_for(a+b) |
| `KernelRuns.TopExists` | include/cxxdes/core/impl/environment.ipp:247-263 | a queue without bare exception tokens has a token that the comparator lets be on top |
| `TokenOrder.OrderedIffNoBare` | include/cxxdes/core/impl/environment.ipp:247-261 | the comparator is a strict weak order on a set of tokens if and only if none is a bare exception token |
| `TokenOrder.BothAfterIff` | include/cxxdes/core/impl/environment.ipp:255-260 | exactly which pairs of tokens the comparator puts each after the other |
| `TokenOrder.QueuedTokensStay` | include/cxxdes/core/impl/any_of.ipp:18-24 | no step changes a queued token, in time or priority, other than the one it pops |
| `Simulation.Environment.StepOnce` | include/cxxdes/core/impl/environment.ipp:117-146 | pops a token that may be on top, does the step of the state machine, keeps the invariant |
| `Simulation.Environment.Run` | include/cxxdes/core/impl/environment.ipp:179-182 | terminates with an empty queue, after a run of the state machine |
| `Simulation.Environment.RunUntil` | include/cxxdes/core/impl/environment.ipp:190-196 | terminates after a run of the state machine up to the deadline |
| `Simulation.Environment.RunFor` | include/cxxdes/core/impl/environment.ipp:205-208 | the same for a duration |
| `Simulation.Environment.Launch` | include/cxxdes/core/impl/environment.ipp:222-223 | binding from outside is the launch action of the state machine |
| `Simulation.Environment.ResumeProcess` | include/cxxdes/core/impl/coroutine_data.ipp:20-29 | runs a process, with a loop, as the recursive function says |
| `Simulation.Environment.AwaitSuspend` | include/cxxdes/core/impl/any_of.ipp:66-84 | suspends on a bound expression as the function says |
| `Simulation.Environment.InvokeHandler` | include/cxxdes/core/impl/any_of.ipp:9-26 | takes a child's token as the function says |
| `Simulation.Environment.ReturnFrom` | include/cxxdes/core/impl/environment.ipp:321-348 | schedules every completion token, in a loop, as the function says |
| `Simulation.Environment.Reset` | include/cxxdes/core/impl/environment.ipp:154-176 | destroys each incomplete managed process exactly once, clears the queue and the clock |
| `Subroutines.NextCarries` | include/cxxdes/core/impl/subroutine.ipp:35-52 | one thing that a frame does is the first part of what the evaluator says its rest does |
| `Subroutines.UnwindIsRaise` | include/cxxdes/core/impl/subroutine.ipp:122-125 | searching a frame for a handler agrees with how the evaluator propagates exceptions |
| `Trampoline.CoroutineData.Resume` | include/cxxdes/core/impl/coroutine_data.ipp:20-29 | one resume shows exactly the events up to the next suspension of the structured evaluation, and completes the process exactly if there is none |
| `Trampoline.RunToCompletion` | include/cxxdes/core/impl/coroutine_data.ipp:108-120 | resumes in a row show the whole trace of the recursive evaluator and end with its result or exception |
| `Trampoline.SegmentEnds` | include/cxxdes/core/impl/coroutine_data.ipp:20-29 | where a segment of a trace ends, when its beginning is known |
| `Trampoline.CallShape` | include/cxxdes/core/impl/subroutine.ipp:35-38 | a pushed frame and its caller together have the meaning of a structured call |
| `Trampoline.CoroutineData.Finish` | include/cxxdes/core/impl/subroutine.ipp:109-125 | a frame that ends is popped, its result kept, and what the process has still to do is unchanged |
| `Trampoline.CoroutineData.CallSubroutine` | include/cxxdes/core/impl/subroutine.ipp:35-38 | a call pushes a frame, and what the process has still to do is unchanged |
| `Trampoline.CoroutineData.AwaitResume` | include/cxxdes/core/impl/subroutine.ipp:45-52 | the caller gets the value or the exception of the subroutine it awaited |
| `SyncTheorems.NoLostWakeup` | include/cxxdes/sync/semaphore.hpp:58-78 | in every reachable state a registered process is refused: down at zero, up at the maximum, a mutex that is owned, no free unit, a full or an empty queue |
| `SyncEffects.QuiescentMeansRefused` | include/cxxdes/core/impl/environment.ipp:179-182 | when no token is left, every process has ended, or is refused, or waits for a plain event since after the last wake of it |
| `SyncEffects.WakeWakes` | include/cxxdes/sync/event.hpp:125-134 | a wake that is carried out queues everybody registered with the event for now plus the own latency, leaves nobody registered, is recorded, and the process goes on |
| `SyncEffects.WaitEndsByWake` | include/cxxdes/sync/event.hpp:125-139 | who waits for an event is queued by the next wake of it, for that time plus the latency given when the wait began |
| `SyncEffects.WaitsSinceLastWake` | include/cxxdes/sync/event.hpp:136-139 | who is registered with a plain event began to wait after its last wake, and not before |
| `SyncEffects.ObjectsFollowPrograms` | include/cxxdes/sync/queue.hpp:48-65 | an object is what the operations make it that programs have gone past: a semaphore its initial value plus ups less downs, a resource or mutex what was given back less what was taken, a queue the items put, in order, without as many of the first as were taken |
| `SyncEffects.PassesUnlessRefused` | include/cxxdes/sync/semaphore.hpp:58-78 | a process goes past a guarded operation if its object does not refuse it, and otherwise suspends on the object's event |
| `SyncEffects.HandlesFollowPrograms` | include/cxxdes/sync/mutex.hpp:43-99 | handles change exactly as the operation says that was carried out |
| `SyncEffects.WakesEverybody` | include/cxxdes/sync/event.hpp:125-134 | going past an operation wakes everybody registered with its object's event, for the own latency from now, and nobody else; taking a mutex wakes nobody |
| `SyncEffects.DelayEnds` | include/cxxdes/core/impl/timeout.ipp:21-32 | a process that delays goes on exactly when the delay is over |
| `SyncEffects.ResumesOnly` | include/cxxdes/core/impl/environment.ipp:117-146 | when nobody runs a process whose token is among the earliest goes on, at its time |
| `SyncEffects.EndsOnly` | include/cxxdes/sync/mutex.hpp:70-79 | releasing an invalid handle fails the process, and nothing else happens |
| `SyncTheorems.NeverBothWait` | include/cxxdes/sync/queue.hpp:48-65 | a queue never has producers and consumers waiting together, nor a semaphore unless its maximum is zero |
| `SyncTheorems.Fifo` | include/cxxdes/sync/queue.hpp:48-65 | items put are items taken followed by the contents, in order, and a bounded queue stays within its bound |
| `SyncTheorems.SemaphoreCounts` | include/cxxdes/sync/semaphore.hpp:58-78 | value plus downs is the initial value plus ups, and the value stays in range if it began there |
| `SyncTheorems.SemaphoreInRangeIff` | include/cxxdes/sync/semaphore.hpp:41-44 | a semaphore stays in range in all runs if and only if it is built in range |
| `SyncTheorems.OverfullStarts` | include/cxxdes/sync/semaphore.hpp:41-44 | a start that is out of range |
| `SyncTheorems.UnitsConserved` | include/cxxdes/sync/resource.hpp:43-98 | free units, valid handles and handles dropped without release make up the count |
| `SyncTheorems.MutexExclusive` | include/cxxdes/sync/mutex.hpp:43-99 | at most one handle of a mutex is valid, and it is owned exactly when one is valid or was dropped |
| `SyncTheorems.ReleaseNeverSuspends` | include/cxxdes/sync/resource.hpp:70-78 | releasing a valid handle gives the unit back and goes on without suspending |
| `SyncTheorems.RegistrationsAccounted` | include/cxxdes/sync/event.hpp:125-139 | registrations with an event are scheduled ones plus those still registered |
| `SyncTheorems.ResumesByFirstWake` | include/cxxdes/sync/event.hpp:125-139 | a waiting process resumes at the time of the first wake after its registration plus its latency |
| `SyncSteps.StepOk` | include/cxxdes/sync/event.hpp:125-139 | every step of every process keeps all accounts and all reasons for waiting |
| `SyncSteps.MoveOk` | include/cxxdes/sync/mutex.hpp:43-50 | moving handles by swapping keeps them |
| `SyncSteps.ReleaseHasRoom` | include/cxxdes/sync/semaphore.hpp:58-67 | when a handle's unit comes back the semaphore is below its maximum |
| `SyncInvariant.WakeAllOk` | include/cxxdes/sync/event.hpp:125-134 | a wake leaves nobody registered whose condition may have changed |
| `SyncInvariant.ChangeConserves` | include/cxxdes/sync/queue.hpp:48-65 | each guarded operation keeps the account of its object |
| `SyncProgress.RunsEnd` | include/cxxdes/core/impl/environment.ipp:179-182 | no run takes more steps than a measure of operations left and tokens queued |
| `SyncProgress.OnlyQuiescentStops` | include/cxxdes/core/impl/environment.ipp:117-119 | a run can always go on unless no token is left |
| `SyncMakespan.Makespan` | include/cxxdes/sync/resource.hpp:70-98 | jobs that start together on k units all end, k times the makespan is at most the sum plus k-1 times the longest, and on one unit or a mutex the makespan is the sum |
| `SyncMakespan.NoUnitIdles` | include/cxxdes/sync/mutex.hpp:70-99 | as long as a job has not started, all units have been held all the time |
| `SyncMakespan.BusyWhileTimePasses` | include/cxxdes/sync/semaphore.hpp:70-78 | the clock moves on only while every unit is in a handle, if a job still waits |
| `SyncPrimitives.Scheduled` | include/cxxdes/sync/event.hpp:125-134 | each waiter is scheduled at its latency from now, in order of registration |
| `SyncPrimitives.Event.Wake` | include/cxxdes/sync/event.hpp:125-134 | schedules every waiter and forgets them all |
| `SyncPrimitives.Event.Wait` | include/cxxdes/sync/event.hpp:136-139 | registers one waiter with its latency |
| `SyncPrimitives.Semaphore.Up` | include/cxxdes/sync/semaphore.hpp:58-67 | one pass of up: the machine's change and a wake, or a registration |
| `SyncPrimitives.Semaphore.Down` | include/cxxdes/sync/semaphore.hpp:70-78 | one pass of down, likewise |
| `SyncPrimitives.Queue.Put` | include/cxxdes/sync/queue.hpp:48-53 | one pass of put, likewise |
| `SyncPrimitives.Queue.Pop` | include/cxxdes/sync/queue.hpp:58-65 | one pass of pop, which gives the first item |
| `SyncPrimitives.Mutex.Acquire` | include/cxxdes/sync/mutex.hpp:91-99 | one pass of acquire: a new valid handle and no wake, or a registration |
| `SyncPrimitives.MutexHandle.Release` | include/cxxdes/sync/mutex.hpp:70-79 | throws on an invalid handle, else clears it, frees the mutex and wakes |
| `SyncPrimitives.MutexHandle.MoveFrom` | include/cxxdes/sync/mutex.hpp:47-50 | move assignment swaps |
| `SyncPrimitives.Resource.Acquire` | include/cxxdes/sync/resource.hpp:95-98 | one pass of acquire through the semaphore |
| `SyncPrimitives.ResourceHandle.Release` | include/cxxdes/sync/resource.hpp:70-78 | clears the handle and makes the first pass of giving the unit back |
| `CompletionTheorems.BodyStartsOnce` | include/cxxdes/core/impl/environment.ipp:282-307 | a body starts at most once, however often it is bound or awaited |
| `CompletionTheorems.ManagedExactly` | include/cxxdes/core/impl/environment.ipp:309-317 | the managed coroutines are exactly those bound and not complete |
| `CompletionEffects.BindsInherit` | include/cxxdes/core/impl/environment.ipp:282-307 | a coroutine is bound by the first action that binds or awaits it, with its own priority or else that of whoever does so, and its start token is queued for its latency from then; nothing changes that |
| `CompletionEffects.StartsOnTime` | include/cxxdes/core/impl/environment.ipp:296-306 | a body starts at the time for which it was bound, and for the first time |
| `CompletionEffects.JoinsLikeAwaits` | include/cxxdes/core/impl/coroutine.ipp:194-207 | a composition suspends on a handle exactly if a direct await would, with the same token but for whom it goes to |
| `CompletionEffects.CreatesNew` | include/cxxdes/core/impl/coroutine.ipp:49-60 | a new coroutine is not bound, and a copied handle has the same coroutine, latency and priority but no token |
| `CompletionEffects.HandlesStay` | include/cxxdes/core/impl/coroutine.ipp:194-207 | coroutine, latency and priority of a handle never change |
| `CompletionTheorems.EveryWaiterServed` | include/cxxdes/core/impl/environment.ipp:321-329 | who suspended on a coroutine has a token queued exactly once, for the end plus the own return latency, with the handle's or the coroutine's priority; a composition's goes to its handler, and else the process gets the value, or the exception if it finds a token in its handle, which is its own unless that was abandoned or taken |
| `CompletionTheorems.RepliesStay` | include/cxxdes/core/impl/coroutine.ipp:255-266 | no token is answered twice |
| `CompletionTheorems.HandleSuspendsIff` | include/cxxdes/core/impl/coroutine.ipp:184-207 | a handle never holds two tokens; an await through it suspends if and only if the coroutine is not complete and all tokens made for the handle before were abandoned, and throws if one was not |
| `CompletionTheorems.HandleSuspendsAgain` | include/cxxdes/core/impl/async.ipp:21-28 | a run in which a handle suspends again, after `async` has given up its token |
| `CompletionTheorems.LateAwaitAgreesIff` | include/cxxdes/core/impl/coroutine.ipp:221-266 | who awaits after the end gets the value or exception if and only if the body returned or the handle still holds a token |
| `CompletionTheorems.LateAwaitMissesException` | include/cxxdes/core/impl/coroutine.ipp:255-266 | a run in which a late awaiting process with a handle of its own misses the exception |
| `CompletionTheorems.LateAwaitTakesException` | include/cxxdes/core/impl/coroutine.ipp:255-266 | a run in which a late await sees it, by the token that a composition has left |
| `CompletionTheorems.ResetDestroysOnce` | include/cxxdes/core/impl/environment.ipp:154-176 | a reset destroys each incomplete coroutine, once in its life, and leaves nothing managed or queued |
| `CompletionTheorems.CompleteAt` | include/cxxdes/core/impl/coroutine_data.ipp:188-191 | the loops over completion tokens change each listed token once and no other |
| `CompositionErrors.ProcessSeesIff` | include/cxxdes/core/impl/any_of.ipp:90-92 | a process that goes on after an await, at once or later, sees exception e if and only if a handle in its tree then holds, by the history, a token whose coroutine has thrown e, and none before it does |
| `CompositionErrors.VisitsStop` | include/cxxdes/core/impl/coroutine.ipp:255-266 | a resumption frees exactly the handles up to the first exception; the others keep their tokens |
| `CompositionErrors.HandleRefusedIff` | include/cxxdes/core/impl/coroutine.ipp:194-207 | suspending through a handle is refused if and only if the coroutine has not ended and, by the history, no await_resume has visited the handle since the last suspension through it |
| `CompositionErrors.ExceptionLeavesStepIff` | include/cxxdes/core/impl/environment.ipp:128-143 | an exception leaves step if and only if the token in hand has a handler or was made for nobody, and its coroutine has thrown |
| `CompositionErrors.FiresIff` | include/cxxdes/core/impl/any_of.ipp:18-25 | an any_of fires if and only if its handler has taken a token without exception, an all_of if and only if it has taken all and the last had none |
| `CompositionTimes.FiresWhen` | include/cxxdes/core/impl/any_of.ipp:18-24 | every token of an await is queued for the time at which its node is due, down to the leaves: an any_of its latency after its earliest child without exception, an all_of after the latest of all, unless a process that nobody waits for has thrown |
| `CompositionTimes.LeafDueIff` | include/cxxdes/core/impl/timeout.ipp:21-32 | the token of a leaf has been queued if and only if it is due: a delay so much after the await began, a time then, an event its latency after the first wake since, a coroutine the handle's latency after its end |
| `CompositionTimes.DueUnique` | include/cxxdes/core/impl/any_of.ipp:18-24 | a node is due at one time only |
| `CompositionTimes.HeldLeaf` | include/cxxdes/core/impl/environment.ipp:321-329 | a token that a coroutine or an event holds is queued by the first action that triggers it, for then plus its latency |
| `CompositionTimes.BeginOutcome` | include/cxxdes/core/impl/any_of.ipp:66-84 | an await that is not ready suspends on every node that is wanted, and then waits; or it gets to a node whose handle is held by another token, and is refused |
| `CompositionTimes.SuspendGetsTo` | include/cxxdes/core/impl/any_of.ipp:74-83 | what is suspended on before a refusal stays so, what comes after is not, and the compositions above have lost their handlers, and only they |
| `CompositionTimes.CoroutinesFollow` | include/cxxdes/core/impl/any_of.ipp:41-48 | awaiting, launching and async bind every coroutine they reach, and nothing else does |
| `CompositionErrors.AsyncFrees` | include/cxxdes/core/impl/async.ipp:21-28 | async leaves the handle free; it makes a token for nobody, or rethrows what the handle's token carries |
| `CompositionErrors.TakenOnTime` | include/cxxdes/core/impl/environment.ipp:126 | tokens are taken at just their time, unless a process that nobody waits for has thrown |
| `CompositionErrors.OneTokenResumes` | include/cxxdes/core/impl/any_of.ipp:66-84 | a suspended process has exactly one token that will resume it, also when it waits for events, unless an await of its was refused |
| `CompositionSteps.TakeOk` | include/cxxdes/core/impl/any_of.ipp:9-26 | taking any token keeps the counters, what has fired and when, what was seen and thrown, and who is resumed |
| `CompositionSteps.VisitSpec` | include/cxxdes/core/impl/any_of.ipp:90-92 | the fold over the children visits the handles up to the first whose token carries an exception |
| `CompositionBegin.SuspendFromOk` | include/cxxdes/core/impl/any_of.ipp:66-84 | suspending node by node either suspends on every node that is not ready, or stops at a handle that is being awaited |
| `CompositionBegin.PlantCounts` | include/cxxdes/core/impl/any_of.ipp:50-64 | a new handler counts exactly the children that are not ready |
| `CompositionRuns.LeftTokenSeen` | include/cxxdes/core/impl/any_of.ipp:90-92 | a run in which an any_of shows an exception although it did not suspend on that child |
| `CompositionRuns.TakenTokenMissed` | include/cxxdes/core/impl/coroutine.ipp:255-266 | a run in which another process takes the token, and the process that waits for it in an all_of sees nothing |
| `CompositionRuns.LaterThrowMissed` | include/cxxdes/core/impl/any_of.ipp:12-16 | a run in which the process is resumed first and the exception only leaves step |
| `CompositionRuns.ThrowBlocksAllOf` | include/cxxdes/core/impl/any_of.ipp:12-25 | a run in which the last child of an all_of throws and the process is never resumed |
| `CompositionRuns.HandleSuspendsAgain` | include/cxxdes/core/impl/any_of.ipp:90-92 | a run in which two any_ofs in a row suspend through the same handles |
| `CompositionRuns.RefusedResumesEarly` | include/cxxdes/core/impl/any_of.ipp:66-84 | a run in which a refused any_of resumes its process in a later await |
| `CompositionRuns.BareTokenComesFirst` | include/cxxdes/core/impl/environment.ipp:247-260 | a run in which the exception of a bound process is taken before an earlier token |
| `CompletionObjects.CoroutineData.Bind` | include/cxxdes/core/impl/environment.ipp:282-307 | first binding queues one start token and manages the coroutine, later ones change nothing |
| `CompletionObjects.CoroutineData.UnhandledException` | include/cxxdes/core/impl/coroutine.ipp:319-325 | every registered token gets the exception and its time, and is queued |
| `CompletionObjects.CoroutineData.ScheduleCompletion` | include/cxxdes/core/impl/environment.ipp:321-329 | every registered token is queued for its latency from now |
| `CompletionObjects.Coroutine.AwaitSuspend` | include/cxxdes/core/impl/coroutine.ipp:194-207 | registers one new token with the handle's latency and priority, or throws |
| `CompletionObjects.Coroutine.AwaitResume` | include/cxxdes/core/impl/coroutine.ipp:221-266 | gives the answer of the state machine |
| `CompletionObjects.Coroutine.Visit` | include/cxxdes/core/impl/coroutine.ipp:255-266 | gives up the token, complete or not, and returns its exception |
| `CompletionObjects.Coroutine.Async` | include/cxxdes/core/impl/async.ipp:21-28 | binds, registers one new token, with the object's latency and priority, with the coroutine and none with the object, or throws |
| `CompletionObjects.Environment.Reset` | include/cxxdes/core/impl/environment.ipp:154-176 | destroys exactly the managed coroutines that are not complete, once |
| `TimeUnits.CountTruncates` | include/cxxdes/misc/time.hpp:75-86 | both branches of the conversion truncate the exact quotient of the durations towards zero, once |
| `TimeUnits.NestedQuot` | include/cxxdes/misc/time.hpp:84 | dividing twice truncates like dividing once, for either sign |
| `TimeUnits.SameDurationSameCount` | include/cxxdes/misc/time.hpp:75-86 | equal durations convert to equal counts, in whatever units |
| `TimeUnits.Rescaling` | include/cxxdes/misc/time.hpp:75-86 | a thousand of the next finer unit is one of this, on either side |
| `TimeUnits.Negated` | include/cxxdes/misc/time.hpp:75-86 | the conversion is odd |
| `TimeUnits.Monotone` | include/cxxdes/misc/time.hpp:75-86 | a longer duration never has fewer ticks |
| `TimeUnits.ClockRoundTrip` | include/cxxdes/core/impl/environment.ipp:29-31 | the environment's time as a quantity converts back to its clock |
| `TimeUnits.ErrorBound` | include/cxxdes/misc/time.hpp:220-280 | ticks and exact value of any time expression differ by less than its bound: one per physical quantity, scaled, summed and divided along |
| `ReferenceEffects.PointersAsPlain` | include/cxxdes/misc/reference_counted.hpp:83-108 | in every run pointers and the queue hold what they would if nothing were counted or deleted, and members live as long as their object |
| `ReferenceEffects.DestroysExactly` | include/cxxdes/misc/reference_counted.hpp:193-195 | when a variable goes out of scope it is gone, other variables are as before, and exactly those objects are left that keep themselves without it |
| `ReferenceEffects.LastOwnerDeletes` | include/cxxdes/misc/reference_counted.hpp:49-54 | the object it held is deleted if and only if it had no other owner; otherwise it has one owner fewer and nothing else changes |
| `ReferenceTheorems.CountIsOwners` | include/cxxdes/misc/reference_counted.hpp:40-54 | an object's count is the number of living pointers to it plus its queue entries |
| `ReferenceTheorems.LivesWhileOwned` | include/cxxdes/misc/reference_counted.hpp:49-54 | once owned, an object lives exactly as long as somebody owns it |
| `ReferenceTheorems.NothingDangles` | include/cxxdes/misc/reference_counted.hpp:83-108 | no living pointer and no queue entry refers to a deleted object |
| `ReferenceTheorems.NoLeakWithoutCycles` | include/cxxdes/misc/reference_counted.hpp:49-54 | without ownership cycles every living object is owned through others by a variable, the queue or a raw pointer |
| `ReferenceTheorems.AllDeletedInTheEnd` | include/cxxdes/core/impl/environment.ipp:169-173 | when those are gone every object has been deleted |
| `ReferenceTheorems.CopyDefinedIff` | include/cxxdes/misc/reference_counted.hpp:92-99 | copy assignment works if and only if the pointers are equal or both cells are variables or members of objects that keep themselves without the old reference |
| `ReferenceTheorems.CopyDefinedIffAnchored` | include/cxxdes/misc/reference_counted.hpp:92-99 | without ownership cycles, if and only if both are reached from a root without it |
| `ReferenceTheorems.CopyIsSafe` | include/cxxdes/misc/reference_counted.hpp:92-99 | in particular between variables, and where the old object has another owner, and then the target holds what the source held |
| `ReferenceTheorems.CopyFromOwnMemberIff` | include/cxxdes/misc/reference_counted.hpp:92-99 | copying from a member of the object the target holds works if and only if that object has another owner |
| `ReferenceTheorems.CopyNextFails` | include/cxxdes/misc/reference_counted.hpp:92-99 | a run that ends in a copy assignment that reads a deleted pointer |
| `ReferenceCounts.ReleaseCounted` | include/cxxdes/misc/reference_counted.hpp:49-54 | a cascade of deletions keeps every count equal to the owners |
| `ReferenceCounts.ReleaseInTurn` | include/cxxdes/misc/reference_counted.hpp:49-54 | dropping references in turn comes to the same as in one cascade |
| `ReferenceCounts.KillAccount` | include/cxxdes/misc/reference_counted.hpp:193-195 | what a dying object's members held is exactly what its deletion lets go of |
| `ReferenceCounts.SwapCounted` | include/cxxdes/misc/reference_counted.hpp:105-108 | move assignment by swapping keeps every count |
| `ReferenceCounts.ScheduleCounted` | include/cxxdes/core/impl/environment.ipp:94-98 | the queue's manual reference is counted |
| `ReferenceCounts.PopCounted` | include/cxxdes/core/impl/environment.ipp:121-124 | the queue's reference passes to the variable of the step |
| `CountedMemory.Memory.Unref` | include/cxxdes/misc/reference_counted.hpp:49-54 | the recursive deletion, member by member, ends and does what the cascade does |
| `CountedMemory.Memory.DestroyMembers` | include/cxxdes/misc/reference_counted.hpp:193-195 | the destructors of the remaining members, one after the other, come to the same as dropping all their references |
| `ReferenceCounts.ReleaseCommutes` | include/cxxdes/misc/reference_counted.hpp:193-195 | destroying the members of a dead object before or after other references are dropped is the same |
| `CountedMemory.Memory.Assign` | include/cxxdes/misc/reference_counted.hpp:92-99 | copy assignment, where it is defined |
| `CountedMemory.Memory.PopToken` | include/cxxdes/core/impl/environment.ipp:121-124 | reference, drop and pop together move one reference |

## Left out

- Coroutine frames, `coroutine_handle` and by-reference lifetimes: bodies are lists of awaits, operations or syntax.
- `KernelTokens.AwaitsInherit`: each await is of a fresh expression; a timer or composition object that is awaited again keeps the priority that it inherited first (`include/cxxdes/core/impl/timeout.ipp:9-11`).
- The heap inside `std::priority_queue` and other containers: the queue is a multiset from which a token on top is taken.
- Machine integers: times and counts are unbounded, so overflow is not modelled, and neither are floating-point scalars, `seconds()` or the narrowing assignment of `time`.
- Delays, start latencies and return latencies are not negative: with negative ones tokens could be due in the past.
- `KernelTheorems.TimingTheorem`: processes of the kernel model do not throw; with exceptions, what fires a composition and when is said by `CompositionErrors.FiresIff` and `CompositionTimes.FiresWhen`, where the ends of coroutines are up to the rest of the simulation.
- `lazy_timeout`, `_Co_with` and the composition operators: wrappers over what is modelled. `unique_coroutine` has one completion token in place of a list.
- `CompositionErrors.OneTokenResumes`: if a token of a refused composition would resume a process that has ended, the run ends there, since the library asserts that it has not.
- `CompositionErrors.ProcessSeesIff`: coroutines return no values there and are not destroyed by a reset, for which there is `shared_completion`.
- `Simulation.Environment.Reset`: processes that were suspended stay in the model as records without a token, so the invariant of the running environment is not claimed afterwards.
- `SyncMakespan.Makespan`: needs at least one unit; with none, every job waits for ever, as `SyncTheorems.NoLostWakeup` says.
- `SyncTheorems.ResumesByFirstWake`: does not say which of several processes due at one time goes first, because priorities are not part of that machine; a process that releases an invalid handle ends there as failed, and the rest goes on.
- `SyncProgress.RunsEnd`: processes have no loops of their own; with them a simulation need not end.
- `SyncPrimitives.ResourceHandle.Release`: only the first pass of the release; that no other is ever needed is `SyncTheorems.ReleaseNeverSuspends`.
- `CompletionTheorems.EveryWaiterServed`: binding to two environments is not part of that machine, and what a handler does with a token is the subject of `CompositionErrors`.
- `TimeUnits.ErrorBound`: division by zero and a precision of zero, which are undefined, are excluded.
- Destroying an event deletes the tokens still registered with it (`include/cxxdes/sync/event.hpp:112-117`): not modelled, and no object is deleted there other than by its count.
- Fairness: a wake schedules everybody, and a process of low priority may be overtaken for ever.
- Debug macros, source locations, stack traces, formatted output, random variables and the build scripts.
