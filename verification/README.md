# Verified model of the async_frame event loop

async_frame runs coroutines over epoll. One operation may be registered under three descriptors at once
(its socket, the one timerfd that all timers share, and the eventfd of its cancel token), and whichever
fires first resumes it; it must then take back all three. This project models that core and proves what
holds in every run of it.

## Layers

| module | file | what it is |
|---|---|---|
| Handles | Handles.dfy | the pointers and descriptors the loop stores; addresses of destroyed awaiters may be reused |
| Timers, TimerRuns | Timers.dfy, TimerRuns.dfy | the lazily cancelled timer queue as functions, its plain-set specification, whole runs |
| TimerEvents | TimerEvent.dfy | the queue as the object the source has |
| Interest | Interest.dfy | the descriptor table and the kernel's epoll set as functions, and the two-map specification |
| Schedulers | Scheduler.dfy | both as objects |
| Awaiters | Awaiters.dfy | await_suspend and await_resume of every awaiter, and the invariant of the shared state |
| Reactors | Reactor.dfy | the awaiters as sequences of calls on the shared objects |
| SharedTokens | SharedToken.dfy | one token on two operations |
| Transfer, ByteLoops | Transfer.dfy, ByteLoops.dfy | one recv or send, the read and write loops, timed and plain |
| Loop | Loop.dfy | the step system: start, event, clock, cancellation request, arriving bytes |
| EventLoops | EventLoop.dfy | `running` and `complete` as methods, tied to the step system |
| Theorems | Theorems.dfy | what holds in every reachable state |
| StepLaws | StepLaws.dfy | what each step does, and how runs begin, cancel and end operations |
| Histories | History.dfy | whole operations in whole runs; timed operations compared with plain ones |
| TimerCalls | TimerCalls.dfy | the timer calls of a run of the loop, as a run of the timer queue |
| BatchedTimer | BatchedTimer.dfy | a run that shows what batching of events can do |

Imperative code appears twice: as a class or a loop in the source's own form, and as a function; each method's
postcondition equates its new state with the function of its old one, and the laws are proved of the functions.
Reads and writes are near-duplicates in the source; one description with a direction serves both.

Proofs hide definitions they do not need (`hide`); nothing is taken without proof.

## Results

* **Timers.** With Live the tasks in `cur` and the queue whose id is not tombstoned, every call does to Live
  what insert, remove-by-operation, nothing and remove-the-earliest do, in every run, also when addresses are
  reused; ids are partitioned into live, fired and cancelled; no tombstone leaks; all activations together pop
  at most as often as timers were set. `operator++` is safe exactly when `cur` is not tombstoned, and the
  awaiters only call it then.
* **Table.** After any submits and removes the table is the two maps "last reader" and "last writer", with
  bits to match; the kernel agrees and refuses no call. A plain read removal breaks this exactly on a
  registered timerfd.
* **Whole loop.** In every reachable state: the timerfd is registered iff a timer is live, for the owner of the
  earliest one, armed at its deadline; every pointer in the table leads to a suspended awaiter that put it at
  that descriptor; the table is empty iff all operations are done; each suspension is resumed exactly once and
  each outer coroutine at most once; timeouts and delays are never early, come in deadline order and are reported once,
  with their own deadline; a requested cancellation ends its operation at the next resumption, by either half
  of whichever event, without I/O; bytes are neither lost, duplicated nor reordered. `running` is a run of
  these steps.
* **Steps.** Each step is also described in the terms of the table, the tokens, the streams and the operations
  alone: which half of an event resumes whom, what a start, a request, an arrival and a resumption change and what
  they leave, when a loop succeeds, fails, times out or is cancelled. A batch dispatches every entry, in order.
* **Whole runs.** Each operation's record is at all times what its coroutine makes of its own resumptions'
  outcomes on its socket's stream, so a timed operation that neither timer nor token ended acts like a plain one;
  and the loop's timer queue is always that of a legal run of timer calls, with all that is proved of those.
* **Where the code does less than one would expect.**
  * `running` dispatches batches. A timer event left in a batch after another handler moved the timerfd on is
    applied to the next timer's operation. Such a read or write attempts its recv or send before its deadline
    and a read may end with success and no bytes (`BatchedTimer.StaleTimerEventEndsReadEarly`). This happens
    exactly when the timerfd is not readable at dispatch and the owner is an uncancelled read or write
    (`Awaiters.TimerEventIsStaleIff`, `Theorems.TimerEventOutcome`). A delay resumed by such an event blocks
    the loop in its read of the timerfd until its deadline (the step then moves the clock there), so reported
    TIMEOUTs and elapsed delays stay correct even then.
  * docs/ai/decision_log.md (lines 40-45) and docs/active_cancellation_design_note.md promise that one token may
    be attached to several operations, by a list of cancel waiters and `operation_state`. The code has neither: the
    later operation takes the single slot. An operation keeps its registration exactly if the other one has a
    different token (`SharedTokens.RegistrationSurvivesIff`); otherwise its cancellation is lost
    (`SharedTokens.SharedTokenLosesCancellation`, `SharedTokens.DeclinedStartLosesCancellation`). The shared state
    as a whole stays good exactly if the slots taken, or cleared, are free (`Awaiters.SuspendNeedsFreeSlots`,
    `Awaiters.DeclineNeedsFreeSlots`). The same note's cancellable `wait_for` is not in the code either.

## What is assumed

* Single waiter: at most one pending reader and one pending writer per socket, as the decision log asks, and one
  pending operation per cancel token, for the statements about whole runs (modules Awaiters and SharedTokens say
  exactly what depends on it).
* `await_suspend` is not interleaved with `request_cancel`; the token's flag and eventfd change in one step.
* The clock does not run backwards and is past its origin; delays are not negative. Deadlines, ids and counts are
  unbounded integers.
* The priority queue returns some task of least deadline; which one among equals is a parameter of every call.
  (The source's comparator is `>=`, which is no strict weak order.)
* Sockets do not block; descriptors are not closed while registered; timerfd, eventfds and sockets have distinct
  numbers. `capacity()` equals `size()` of a buffer, and offsets start within it.
* recv and send may return any result the kernel could give; what the environment chooses is a parameter of the step.

## Model

| member | source | states |
|---|---|---|
| Timers.PickExists | include/async_frame/timer.h:42-51 | the queue's choice of a task of least deadline, a parameter everywhere, exists |
| Timers.DropTombstone | include/async_frame/timer.h:78-94 | skipping a tombstoned entry changes no live timer and, by the id guard, no active entry of a later timer at the same address |
| Timers.ActivateNextLemma | include/async_frame/timer.h:96-111 | popping past tombstones leaves an earliest live timer in `cur`, armed, or an empty queue disarmed; no live timer is lost |
| Timers.RefreshLemma | include/async_frame/timer.h:173-178 | a refresh keeps the live timers and leaves `cur` untombstoned |
| Timers.AdvanceLemma | include/async_frame/timer.h:167-171 | operator++ removes exactly `cur` from the live timers |
| Timers.AdvanceNeedsSettled | include/async_frame/timer.h:167-171 | operator++ keeps the queue good if and only if `cur` is not tombstoned |
| Timers.CancelLemma | include/async_frame/timer.h:188-198 | cancel removes exactly the timer of that operation, and nothing if it has none |
| Timers.SetTimerLemma | include/async_frame/timer.h:200-222 | set_timer adds exactly one live timer, with a new id, and settles `cur`; it keeps the queue good if and only if the operation had no timer |
| Timers.PreemptsIfEarlier | include/async_frame/timer.h:207-219 | the new timer preempts `cur` exactly if it is strictly earlier or there is none, else it waits in the queue; the timerfd follows |
| Timers.SecondTimerOrphansFirst | include/async_frame/timer.h:200-222 | otherwise the first timer stays live and cancel no longer reaches it |
| Timers.AddressReuse | include/async_frame/timer.h:184-206 | cancelling a timer does not touch a later one set at the same address; being `cur` by address is then being `cur` by id |
| Timers.CurIsEarliest | include/async_frame/timer.h:180-186 | in a settled queue `cur` is an earliest live timer and the kernel is armed at its deadline; it is empty iff nothing is live |
| Timers.AdvanceAfterConsume | include/async_frame/wait_for.h:45-51 | reading the expiration count before operator++ has no other effect |
| Timers.RefreshAfterConsume | include/async_frame/async_read.h:124-130 | nor has it before cancel and refresh |
| TimerRuns.QueueRefinesPlainSet | include/async_frame/timer.h:72-222 | in every run of set, cancel, refresh and operator++ the queue holds the plain set of live timers; every id is live, fired or dropped, never two; tombstones are the dropped ids still pending |
| TimerRuns.StepFiresEarliest | include/async_frame/timer.h:167-171 | in every run operator++ fires an earliest timer of the plain set |
| TimerRuns.TotalWork | include/async_frame/timer.h:96-111 | over a run, pops are at most the set_timer calls and skips at most the cancels |
| TimerRuns.WorkIsCounted | include/async_frame/timer.h:96-111 | the run's counters count the calls made, each entry that left the queue, and each tombstone consumed there |
| TimerRuns.ActivationWorkLemma | include/async_frame/timer.h:96-111 | an activation shortens the queue by its pops and the tombstones by its skips |
| TimerRuns.Conservation | include/async_frame/timer.h:48-54 | active ids and tombstones are disjoint and together are the pending ids, one for one |
| TimerEvents.TimerEvent.constructor | include/async_frame/timer.h:48-66 | starts empty and good |
| TimerEvents.TimerEvent.UpdateTimer | include/async_frame/timer.h:143-151 | arms the timerfd at the absolute deadline |
| TimerEvents.TimerEvent.ClearTimer | include/async_frame/timer.h:153-158 | disarms it |
| TimerEvents.TimerEvent.DoRememberActive | include/async_frame/timer.h:72-76 | new state of remember_active |
| TimerEvents.TimerEvent.DoForgetActive | include/async_frame/timer.h:78-87 | new state of forget_active: only an entry with this id goes |
| TimerEvents.TimerEvent.ConsumeCancelled | include/async_frame/timer.h:89-94 | whether the id was tombstoned; the tombstone is gone |
| TimerEvents.TimerEvent.ActivateNextTimer | include/async_frame/timer.h:96-111 | the popping loop computes the specified activation and ends |
| TimerEvents.TimerEvent.Next | include/async_frame/timer.h:167-171 | new state of operator++; exactly `cur` leaves the live timers |
| TimerEvents.TimerEvent.RefreshCurrentTimer | include/async_frame/timer.h:173-178 | new state; the live timers stay, `cur` is settled |
| TimerEvents.TimerEvent.CurrentEmpty | include/async_frame/timer.h:180-182 | in a settled queue, true iff no timer is live |
| TimerEvents.TimerEvent.CancelTimer | include/async_frame/timer.h:188-198 | new state; exactly this operation's timer leaves the live timers |
| TimerEvents.TimerEvent.SetTimerAt | include/async_frame/timer.h:200-222 | new state; exactly one live timer more |
| TimerEvents.TimerEvent.ConsumeExpirations | include/async_frame/timer.h:160-165 | the read returns at the armed deadline, or at once if that has passed; never if the timerfd is disarmed or was read |
| Interest.SubmitReadLemma | include/async_frame/scheduler.h:139-142 | sets this descriptor's reader and nothing else |
| Interest.SubmitWriteLemma | include/async_frame/scheduler.h:152-155 | sets this descriptor's writer and nothing else |
| Interest.SubmitTimerLemma | include/async_frame/scheduler.h:157-160 | sets the timerfd's reader, edge-triggered |
| Interest.RemoveReadLemma | include/async_frame/scheduler.h:187-189 | removes this descriptor's reader and nothing else |
| Interest.RemoveWriteLemma | include/async_frame/scheduler.h:191-193 | removes this descriptor's writer and nothing else |
| Interest.RemoveTimerLemma | include/async_frame/scheduler.h:203-205 | removes the timerfd's reader with its edge bit |
| Interest.RemoveReadBreaksTimerOnly | include/async_frame/scheduler.h:166-189 | a plain read removal leaves EPOLLET alone behind if and only if the descriptor is a registered timerfd |
| Interest.TableIsTwoMaps | include/async_frame/scheduler.h:39-44 | a good table holds exactly two maps, with event bits that follow the slots |
| Interest.TableRefinesTwoMaps | include/async_frame/scheduler.h:113-209 | after any calls the table is last reader and last writer per descriptor, equals the kernel's set, and no call was refused |
| Interest.LastOneStands | include/async_frame/scheduler.h:113-209 | per side of a descriptor those maps hold exactly the operation last submitted and not removed since |
| Schedulers.EpollManager.Add | include/async_frame/epoll_manager.h:49-55 | throws iff registered, else registers |
| Schedulers.EpollManager.Modify | include/async_frame/epoll_manager.h:57-63 | throws iff not registered, else replaces the bits |
| Schedulers.EpollManager.Remove | include/async_frame/epoll_manager.h:65-71 | throws iff not registered, else removes |
| Schedulers.Scheduler.constructor | include/async_frame/scheduler.h:37-50 | starts empty and good |
| Schedulers.Scheduler.SubmitEventImpl | include/async_frame/scheduler.h:113-137 | new table and kernel set of submit_event_impl |
| Schedulers.Scheduler.RemoveOpImpl | include/async_frame/scheduler.h:166-186 | new table and kernel set of remove_op_impl |
| Schedulers.Scheduler.SubmitReader | include/async_frame/scheduler.h:139-142 | the reader map gets this entry, the writer map stays |
| Schedulers.Scheduler.SubmitWriter | include/async_frame/scheduler.h:152-155 | the writer map gets this entry, the reader map stays |
| Schedulers.Scheduler.SubmitTimerOp | include/async_frame/scheduler.h:157-160 | the reader map gets the timerfd's entry |
| Schedulers.Scheduler.RemoveReader | include/async_frame/scheduler.h:187-189 | the reader map loses this entry, the writer map stays |
| Schedulers.Scheduler.RemoveWriter | include/async_frame/scheduler.h:191-193 | the writer map loses this entry, the reader map stays |
| Schedulers.Scheduler.RemoveTimerOp | include/async_frame/scheduler.h:203-205 | the reader map loses the timerfd's entry |
| Awaiters.RefreshRegistrationLemma | include/async_frame/timer.h:237-247 | afterwards the timerfd is registered for `cur` iff there is one; no other slot and no live timer changes |
| Awaiters.SuspendIoLemma | include/async_frame/async_write.h:84-102 | what await_suspend of a read or write adds: its slots, and its timer if it has one |
| Awaiters.SuspendWaitLemma | include/async_frame/wait_for.h:34-44 | what await_suspend of a delay adds |
| Awaiters.SuspendNeedsFreeSlots | include/async_frame/async_read.h:90-109 | suspending, at any unused address, keeps the shared state good if and only if no other awaiter has its socket direction or its token |
| Awaiters.ReleaseCancelledLemma | include/async_frame/async_read.h:113-120 | the cancelled exit takes back all slots and the timer, nothing else |
| Awaiters.ReleaseTimedOutLemma | include/async_frame/async_read.h:121-130 | so does the timed-out exit |
| Awaiters.ReleaseReadyLemma | include/async_frame/async_read.h:132-136 | so does the ready exit |
| Awaiters.ReleaseWaitLemma | include/async_frame/wait_for.h:45-51 | so does await_resume of a delay, at or after its deadline |
| Awaiters.ReleaseKeepsInv | include/async_frame/async_write.h:104-131 | every exit of every await_resume keeps the shared state good and everybody else registered |
| Awaiters.DeclineNeedsFreeSlots | include/async_frame/async_read.h:92-94 | the await_resume after a declined await_suspend, which clears slots it never took, keeps the shared state good under the same condition |
| Awaiters.RequestCancelKeepsInv | include/async_frame/cancellation_token.h:65-72 | a request sets the flag and keeps the shared state good, every suspended waiter readable |
| Awaiters.NoTrace | include/async_frame/async_read.h:61-74 | no slot, no live timer and no `cur` refers to an address at which nothing is suspended |
| Awaiters.EmptyTableIffIdle | include/async_frame/scheduler.h:68 | the table is empty iff no awaiter is suspended |
| Awaiters.TimedOutIff | include/async_frame/async_read.h:122-123 | the TIMEOUT verdict is given exactly to the uncancelled owner of `cur` whose own deadline has come |
| Awaiters.TimerEventIsStaleIff | include/async_frame/scheduler.h:74-91 | a timer event leads to an I/O attempt exactly when it is stale and its owner an uncancelled read or write |
| Awaiters.CancellationIsNotLost | include/async_frame/single_operator.h:83-93 | a cancelled suspended operation is registered, its eventfd readable, its next verdict Cancelled |
| Awaiters.SingleWaiter | docs/ai/decision_log.md:47-54 | no two suspended awaiters share a direction of a socket or a token |
| Reactors.CancelToken.constructor | include/async_frame/cancellation_token.h:41-46 | starts unset with counter zero |
| Reactors.CancelToken.Request | include/async_frame/cancellation_token.h:65-72 | the flag is set; the counter grows by one the first time and not again |
| Reactors.CancelToken.ConsumeEvent | include/async_frame/cancellation_token.h:76-81 | the counter is zero, the flag as it was |
| Reactors.Reactor.constructor | include/async_frame/timer.h:123-126 | the shared state before anything started |
| Reactors.Reactor.RefreshTimerRegistration | include/async_frame/timer.h:237-247 | new state of refresh_timer_registration |
| Reactors.Reactor.TokenCancelled | include/async_frame/single_operator.h:100-102 | whether this operation's token is cancelled; never for a noop token |
| Reactors.Reactor.SubmitSocketOp | include/async_frame/async_read.h:95-98 | new state: the socket slot of its direction |
| Reactors.Reactor.RemoveSocketOp | include/async_frame/async_read.h:116 | new state: that slot freed |
| Reactors.Reactor.SubmitCancelSlot | include/async_frame/single_operator.h:83-93 | new state: the token's slot, unless noop or already cancelled |
| Reactors.Reactor.RemoveCancelSlot | include/async_frame/single_operator.h:95-98 | new state: the token's slot freed, unless noop |
| Reactors.Reactor.ArmTimeout | include/async_frame/async_read.h:100-105 | new state: one timer more, and the timerfd registered for `cur` |
| Reactors.Reactor.RegisterIo | include/async_frame/async_read.h:95-107 | new state of all registrations |
| Reactors.Reactor.AwaitSuspendIo | include/async_frame/async_read.h:90-109 | declines iff the token is cancelled; else the new state of all registrations, good iff the slots were free |
| Reactors.Reactor.AwaitSuspendWait | include/async_frame/wait_for.h:34-44 | new state of await_suspend of a delay; stays good |
| Reactors.Reactor.AwaitResumeIo | include/async_frame/async_read.h:111-137 | the verdict and the new state of await_resume up to recv or send; stays good; its timerfd read never blocks |
| Reactors.Reactor.ResumeCancelled | include/async_frame/async_read.h:113-120 | new state of the cancelled exit |
| Reactors.Reactor.ResumeTimedOut | include/async_frame/async_read.h:121-130 | new state of the timed-out exit, whose read of the timerfd returns at once |
| Reactors.Reactor.ResumeReady | include/async_frame/async_read.h:132-136 | new state of the ready exit |
| Reactors.Reactor.AwaitResumeWait | include/async_frame/wait_for.h:45-51 | new state of await_resume of a delay; never before its deadline; stays good |
| Reactors.Reactor.RequestCancellation | include/async_frame/cancellation_token.h:65-72 | new state of a request; stays good |
| SharedTokens.SuspendShape | include/async_frame/async_read.h:90-109 | what any suspension registers, whether or not the token is taken |
| SharedTokens.RegistrationSurvivesIff | include/async_frame/scheduler.h:162-164 | a pending operation stays registered for cancellation through the start of another, declined or not, iff their tokens differ |
| SharedTokens.SharedTokenLosesCancellation | docs/ai/decision_log.md:40-45 | with one token for two, a request wakes the later one only, and afterwards nothing watches for the earlier one |
| SharedTokens.DeclinedStartLosesCancellation | include/async_frame/single_operator.h:95-104 | a start declined on a pending operation's cancelled token empties the eventfd and takes that operation's registration away |
| SharedTokens.TwoReadsOneToken | include/async_frame/single_operator.h:83-98 | a concrete case of a lost cancellation |
| Transfer.ReadRoundCounts | include/async_frame/async_read.h:170-184 | a read round keeps the bound on awaits; it ends the loop with success exactly after a conclusive recv, with an errno exactly after a failed one |
| Transfer.WriteRoundCounts | include/async_frame/async_write.h:155-171 | a write round keeps the bound on sends and the count; it ends the loop with success exactly after a conclusive send, with an errno exactly after a failed one |
| Transfer.ReadRoundPlace | include/async_frame/do_read.h:31-48 | after a recv the buffer holds exactly the stream's bytes so far, the rest of it untouched |
| Transfer.WriteRoundPlace | include/async_frame/do_write.h:27-47 | after a send the stream holds exactly the buffer's bytes so far |
| Histories.OperationIsItsCoroutine | include/async_frame/async_read.h:145-185 | in every run each operation's record is what its coroutine makes of its own resumptions' outcomes and of all bytes its socket was sent since it began |
| Histories.TimedActsLikePlain | include/async_frame/async_read.h:164-185 | a timed operation of the running loop that neither timer nor token ended has the plain coroutine's result, buffer and remaining stream on the same recv and send results |
| ByteLoops.RoundsConserve | include/async_frame/async_read.h:145-162 | what a loop stored and what it left are together what was on the wire; a write's count is what it sent |
| ByteLoops.DynamicBuffer.constructor | include/async_frame/buffer.h:30-31 | a buffer of that size, offset zero |
| ByteLoops.DynamicBuffer.Remain | include/async_frame/buffer.h:37 | the room behind the offset |
| ByteLoops.DynamicBuffer.IsDone | include/async_frame/buffer.h:38 | whether there is none |
| ByteLoops.DynamicBuffer.Advance | include/async_frame/buffer.h:41-44 | moves the offset |
| ByteLoops.DynamicBuffer.Store | include/async_frame/do_read.h:32 | the bytes stand behind the offset, all else unchanged |
| ByteLoops.DoTryRead | include/async_frame/do_read.h:31-48 | result and buffer of try_read |
| ByteLoops.DoTryWrite | include/async_frame/do_write.h:27-47 | result, status and buffer of try_write |
| ByteLoops.AsyncReadImpl | include/async_frame/async_read.h:145-185 | the loop's result, buffer and remaining wire are those of the specified rounds |
| ByteLoops.AsyncWriteImpl | include/async_frame/async_write.h:136-171 | the loop's result and buffer are those of the specified rounds |
| Loop.ResumeKeepsInv | include/async_frame/async_read.h:111-184 | one resumption, by either half of an event, keeps the whole invariant; so does a latched pointer, unless it is the one used up |
| Loop.ReadSlotIsDispatchable | include/async_frame/scheduler.h:81-91 | a read slot leads to a suspended awaiter of a waiting operation, a delay's only if it owns `cur` |
| Loop.WriteSlotOwner | include/async_frame/scheduler.h:82-97 | a write slot leads to a suspended write |
| Loop.CompleteKeepsInv | include/async_frame/single_operator.h:36-47 | complete resumes the inner coroutine and keeps the invariant, whatever `running` holds latched |
| Loop.StepIsResumption | include/async_frame/scheduler.h:87-97 | both halves of an event do the same to the awaiter they resume |
| Loop.OthersStaySuspended | include/async_frame/single_operator.h:36-63 | completing one awaiter leaves the others suspended as they were |
| Loop.EventResumesOwner | include/async_frame/scheduler.h:87-91 | the read half of an event resumes the owner of the slot |
| Loop.StepKeepsInv | include/async_frame/scheduler.h:64-100 | every step of every kind keeps the invariant |
| Loop.Safety | include/async_frame/scheduler.h:64-100 | every reachable state satisfies the invariant |
| StepLaws.StartLaw | include/async_frame/async_read.h:229-238 | an operation starts with the buffer and job it was given; suspended with its own deadline and a timer for it, or, if its token is cancelled, ended with nothing registered |
| StepLaws.ReadHalfLaw | include/async_frame/scheduler.h:76-91 | the first half of an event resumes the owner of the read slot if it is ready to read, and nothing else; of an event ready to write it keeps the write slot |
| StepLaws.WriteHalfLaw | include/async_frame/scheduler.h:92-97 | the second half resumes the owner of the kept pointer, or changes nothing |
| StepLaws.NeverStuck | include/async_frame/scheduler.h:74-98 | an event for any descriptor can be dispatched in every state between events, its second half in every state |
| StepLaws.AnythingMayStart | include/async_frame/async_read.h:219-247 | any new operation with free slots, at any free address, with any buffer, may be started; any token asked for, at any time |
| StepLaws.AnyResultIsPossible | include/async_frame/do_read.h:32-42 | whatever recv or send could return is provided for, and the next awaiter may be built at the same address or any free one |
| StepLaws.RequestLaw | include/async_frame/cancellation_token.h:65-72 | a first request sets the flag and adds one to the counter, a later one changes nothing; nothing else is touched |
| StepLaws.OnlyRequestsCancel | include/async_frame/cancellation_token.h:61-81 | no other step sets a flag, or changes a counter but by reading it empty |
| StepLaws.ArriveLaw | include/async_frame/do_read.h:31-32 | bytes from outside are appended to one socket's wire, nothing else changes |
| StepLaws.TickLaw | include/async_frame/timer.h:119-121 | the clock moves on by the span, nothing else changes |
| StepLaws.VerdictLaw | include/async_frame/async_read.h:111-137 | a resumption is cancelled iff its token is; else timed out iff it owns `cur` and its deadline has come; else ready |
| StepLaws.TransferLaw | include/async_frame/do_read.h:31-48 | a ready resumption moves exactly what its recv or send reports, between the wire and the buffer behind its offset, and if it waits on has a new deadline |
| StepLaws.OriginIsKept | include/async_frame/async_read.h:139-141 | no step changes an operation's job, its initial buffer or where it began |
| StepLaws.StartedAsGiven | include/async_frame/async_read.h:229-238 | in every run each operation was started by exactly one step, with its job and its initial buffer |
| StepLaws.CancelledIffRequested | include/async_frame/cancellation_token.h:61-72 | in every run a token is cancelled iff some step requested it |
| StepLaws.RequestEndsOperation | include/async_frame/async_write.h:104-113 | once a run contains a request, the next resumption of an operation with that token ends it as cancelled, without I/O |
| StepLaws.EndsAreOwn | include/async_frame/async_write.h:104-124 | in every run an operation is reported cancelled only if its own token is, and timed out only with a timeout of its own |
| Theorems.TimerfdFollowsEarliestTimer | include/async_frame/timer.h:237-247 | always: timerfd registered iff a timer is live, for `cur`, which is earliest, untombstoned and armed |
| Theorems.ReadableIffSomeTimerDue | include/async_frame/timer.h:143-151 | always: the timerfd is readable iff some live timer is due |
| Theorems.TimersAreThoseOfTheSuspended | include/async_frame/async_read.h:100-105 | always: live timers are one for one those of the suspended timed awaiters; no tombstone leaks |
| Theorems.TableAgreesWithKernel | include/async_frame/epoll_manager.h:49-71 | always: interest set equals the table's bits, bits follow the slots, no epoll_ctl call was refused |
| Theorems.NoStalePointer | include/async_frame/scheduler.h:81-97 | always: every slot is the pointer that a suspended awaiter of a waiting operation registered at that very descriptor, the latched one still some socket's write slot |
| Theorems.NothingLeftBehind | include/async_frame/async_write.h:104-131 | when await_resume is done nothing stored refers to that address, before the loop's next awaiter may be built there; a timer at the address afterwards is a new one |
| Theorems.LoopExitsIffAllDone | include/async_frame/scheduler.h:68 | always: the table is empty iff all operations are done |
| Theorems.ExactlyOnce | include/async_frame/single_operator.h:36-47 | always: each finished suspension was resumed once, and the outer coroutine once iff the operation suspended and is done |
| Theorems.DoneStaysDone | include/async_frame/single_operator.h:36-63 | always: only waiting operations have a suspended awaiter, and just one |
| Theorems.DeadlinesInOrder | include/async_frame/wait_for.h:45-51 | always: no report before its deadline, reports in deadline order, none later than a live timer's; one report with its own deadline for each operation that timed out or elapsed, and no other |
| Theorems.FiresItsOwnEarliestDeadline | include/async_frame/timer.h:200-231 | a resumption, by whichever event half, reports a deadline iff it timed out or elapsed; it is its own, has come, and is the earliest of all live ones |
| Theorems.OthersUndisturbed | include/async_frame/async_read.h:132-137 | a resumption, by whichever event half, changes no other awaiter and no other live timer |
| Theorems.CancellationIsWatched | include/async_frame/single_operator.h:83-93 | always: a suspended operation with a token is in its eventfd's read slot, and the eventfd is readable once cancellation was requested |
| Theorems.NoLostCancellation | include/async_frame/async_write.h:104-113 | the next resumption of an operation whose token is cancelled, by whichever event half, ends it without moving a byte and reads the eventfd empty |
| Theorems.CancellationIsForGood | include/async_frame/cancellation_token.h:61-72 | no step clears a token's flag |
| Theorems.BytesConserved | include/async_frame/do_write.h:27-47 | always: bytes sent are the bytes the peer received followed by those in flight, in order |
| Theorems.BuffersHoldTheStream | include/async_frame/do_read.h:31-48 | always: between initial and present offset a buffer holds its socket's stream from where the operation began |
| Theorems.TimeoutMovesNothing | include/async_frame/async_write.h:115-124 | a timeout, by whichever event half, moves no byte, keeps the buffer and returns the count so far |
| Theorems.LoopResults | include/async_frame/async_read.h:145-185 | bounds on awaits and sends and the counts returned on every exit; exactly when a read or write succeeds, from its last call and its buffer; an errno is the last call's |
| Theorems.WaitingLoops | include/async_frame/async_read.h:170-184 | a loop that still waits has seen no reason to stop |
| Theorems.ResumptionIsOneRound | include/async_frame/async_write.h:155-171 | each resumption of a read or write, by whichever event half, is one round of its coroutine |
| Theorems.TimerEventOutcome | include/async_frame/async_read.h:111-130 | a fresh timer event yields TIMEOUT, CANCELLED or the end of a delay with no I/O and no blocking; a stale one leads to I/O exactly for an uncancelled read or write |
| TimerCalls.LoopTimersAreARun | include/async_frame/timer.h:72-222 | in every run of the loop its timer queue is that of the legal run of timer calls the awaiters made, with the id partition and the bounds on pops and skips |
| BatchedTimer.StaleTimerEventEndsReadEarly | include/async_frame/scheduler.h:70-98 | a legal run in which one batch ends a timed read with success and no bytes ten ticks before its deadline |
| EventLoops.EventLoop.constructor | include/async_frame/scheduler.h:49-50 | the loop before anything was started is reachable and good |
| EventLoops.EventLoop.ResumeWaitFor | include/async_frame/wait_for.h:55-60 | with the outer coroutine, the specified resumption of a delay |
| EventLoops.EventLoop.TransferRound | include/async_frame/async_read.h:171-182 | recv or send, then co_return or the next suspension |
| EventLoops.EventLoop.AwaitResumed | include/async_frame/async_read.h:111-137 | verdict and new state of await_resume, logged |
| EventLoops.EventLoop.ReportError | include/async_frame/async_read.h:174-176 | the operation is done with the error and the count so far, its buffer and all else unchanged and well counted; a timeout reports its own deadline, a cancellation none |
| EventLoops.EventLoop.ResumeTransfer | include/async_frame/async_read.h:170-184 | with the outer coroutine, the specified resumption of a read or write |
| EventLoops.EventLoop.Complete | include/async_frame/single_operator.h:36-47 | new state of complete; the invariant holds |
| EventLoops.OuterResumedOnce | include/async_frame/single_operator.h:42-45 | before the last part of complete the outer coroutine was not resumed; after it, exactly once if the inner one is done and not at all if it waits |
| EventLoops.EventLoop.DispatchRead | include/async_frame/scheduler.h:76-91 | is the step of an event's read half; returns the write_op the table held for the descriptor at the start, and keeps it iff the event is ready to write |
| EventLoops.EventLoop.DispatchWrite | include/async_frame/scheduler.h:92-97 | is the step of an event's write half |
| EventLoops.EventLoop.StartOp | include/async_frame/async_read.h:229-238 | is the step that starts an operation |
| EventLoops.EventLoop.SuspendOrDecline | include/async_frame/async_read.h:47-67 | suspends, or is resumed at once when the token is cancelled |
| EventLoops.EventLoop.Perform | include/async_frame/scheduler.h:64-100 | what happens outside a dispatch is a step, and stays reachable |
| EventLoops.EventLoop.Dispatch | include/async_frame/scheduler.h:76-97 | one entry of a batch is its two steps and what runs between and after |
| EventLoops.EventLoop.DispatchBatch | include/async_frame/scheduler.h:74-98 | a batch is its entries' steps in order |
| EventLoops.EventLoop.Running | include/async_frame/scheduler.h:64-100 | is a run of the step system; returns iff every operation is done |
| EventLoops.WriterIsResumed | include/async_frame/scheduler.h:82-97 | the owner of the write slot of an event ready to write is resumed by its second half, whatever the first half and the user code did in between |
| EventLoops.NoWriterIsResumed | include/async_frame/scheduler.h:85-97 | after an event not ready to write the second half changes nothing |
| EventLoops.BatchDispatchesEveryEntry | include/async_frame/scheduler.h:74-98 | the k-th read half and the k-th write half of a batch's run are those of its k-th entry, and there are no more |
| EventLoops.BatchIsItsParts | include/async_frame/scheduler.h:74-98 | the steps of a batch are those of its parts in order |
| EventLoops.OneEntryBatch | include/async_frame/scheduler.h:76-97 | the steps of one entry are its two halves, each followed by what goes on outside |
| EventLoops.BatchSplits | include/async_frame/scheduler.h:74-98 | dispatching a batch is dispatching its first part and then the rest from where that leads |
| EventLoops.OneBatch | include/async_frame/scheduler.h:68-74 | a single batch is dispatched as a whole, unless the table is empty |
| EventLoops.BatchesSplit | include/async_frame/scheduler.h:68-99 | running along some batches and then others is running along all of them |
| EventLoops.BatchesStayReachable | include/async_frame/scheduler.h:64-100 | from a reachable state `running` only reaches reachable states |

## Left out

* Coroutine frames, `Task`, promises and their destruction: an operation is suspended or done, and it is recorded who resumes whom. `complete`'s null checks and its check that the outer handle is not done are not modelled; that the outer coroutine is resumed once is proved instead.
* Real system calls: epoll, timerfd and eventfd are state with small contracts; recv and send results are parameters, errno is a number that is not zero; EINTR retries, error texts and exceptions thrown through `noexcept` are not modelled (a refused epoll_ctl call is recorded instead, and proved not to happen).
* Event words keep EPOLLIN, EPOLLOUT and EPOLLET. EPOLLERR and EPOLLHUP appear as an event with both halves ready.
* The order of recv or send and the removal of the socket registration within one `await_resume` (it differs between the plain and timed awaiters): nothing runs between the two, so the model does the removal first.
* Memory ordering and threads: a cancellation request is a step of its own.
* timespec conversion, wrap-around of nanoseconds, of the 64-bit timer ids and of the eventfd counter.
* `with_timeout.h`, `async_accept`, `async_connect`, `async_read_some`: one registration and one system call each; their table calls are covered by module Interest.
* Connection, socket and connector wrappers, `operation_state`, `commit_to_epoll`, `register_empty_event`, `stop_reading_again`, `stop_writing_again`, the older executor, and the manual tests and servers.
- EventLoops.EventLoop.Running: handles a finite sequence of batches, since the source's loop need not end; epoll_wait's blocking is not modelled, and user code runs between the two halves of an event and after it rather than inside `complete`.
- Reactors.Reactor.RequestCancellation: the tokens are a map of values inside the loop's state; class CancelToken is the source's shared object on its own, proved against the same functions, and sharing through copies of a token is not modelled.
- ByteLoops.AsyncReadImpl: each co_await is an entry of a script and the stream is given whole, so suspension appears as the end of the script; Histories.OperationIsItsCoroutine ties such scripts and streams to the operations of the running loop.
- ByteLoops.AsyncWriteImpl: as AsyncReadImpl.
- Theorems.FiresItsOwnEarliestDeadline: says what fires, not when an expired timer is next dispatched; Theorems.ReadableIffSomeTimerDue says that its event is pending.
