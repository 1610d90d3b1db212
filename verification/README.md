# coasio: a verification model

coasio is a C++23 coroutine runtime. What is hard in it is a handful of concurrent
primitives that share one cancellation protocol: an asynchronous semaphore (and the mutex
on top of it), cancel scopes and their guards, a oneshot channel, a pool for blocking
jobs, the registry of root tasks with the run queue and the shutdown, and the ownership of
coroutine frames. This project models those and proves what they are for; the host and
port parser is a small extra.

There are two layers.

- **Heap layer** (`SemaphoreState`, `PermitState`, `CancelScope`, `OneshotState`,
  `BlockingPool`, `RuntimeState`, `TaskState`, `HostPort`). Classes and loops in the
  source's own form: fields, intrusive doubly linked lists, compare-exchange loops, the
  16-slot wake buffer, the recursive destruction of frames. Each method states its whole
  new state, as a function of the old one where there is one (`SemaphoreCore`,
  `OneshotCore`, `Queues`).
- **Step layer** (`SemaphoreProtocol` and the modules on it, `CancelProtocol`,
  `OneshotProtocol`, `BlockingProtocol`, `RuntimeProtocol`, `TaskProtocol`; to most of them a
  module whose name ends in `Progress` says what comes to an end; and two modules that
  join them: `JoinProtocol`, which runs a root and a channel together, and `LeafProtocol`,
  which reads the parks and wakes of a leaf off its runs). Transition
  systems whose steps are single atomic accesses or critical sections, taken with the same
  functions, for any number of threads, waiters, guards, jobs, roots and frames. The main
  results hold after every legal run (`Legal`, `Exec`). Atomics are sequentially
  consistent and a weak compare-exchange may fail at any time.

## What the proofs found in the code

- **Removing an ungranted head does not run granting again** (`semaphore.hpp:84-86`,
  `:113-114`). With mixed request sizes a waiter can be left in the queue although the
  permits it wants are free. `StrandedWaiter` is such a run, `CoveredStep` says that
  exactly these removals do it, and with one request size (the mutex) it cannot happen.
- **A cancellation of a semaphore waiter must come in order** (`CancelInOrder`): the
  callback asks only for the two marks (`semaphore.hpp:80-87`). Three things go wrong
  otherwise.
  - It empties the queue when its waiter is not linked: before it is linked (`:286-294`, the
    run `BeforeLinking`), and after an awaiter's destructor took it out but before the guard
    is disarmed (`:263-266`, the run `AfterLeaving`). `CancelKeepsOthers` is the exact
    condition.
  - It resumes the coroutine twice, through the runtime and inline, from the arming of the
    guard to the end of `await_suspend` (`:286-304`), whether the waiter is linked yet or not:
    `await_suspend` goes on, and returns false because its waiter was granted (`:294-296`) or
    is marked (`:299-302`). `DoubleResumption` is the exact condition, `BeforeLinkingEnds` and
    `DuringSuspend` are runs.
  - When the waiter was not linked yet and too few permits are free, `await_suspend` links the
    cancelled node and then clears the enqueued mark (`:300`), so that nobody takes it out
    again (`CancelBeforeLinking`). A later release grants permits to the awaiter that is gone,
    nobody returns them, and the handle is scheduled once more (`DeadNodeTakesPermits`).

  `OrderIsExact` says that in every reachable state a cancellation is harmless if and only if
  it comes in order.
- **A handle can be with the runtime while its `await_suspend` still runs**, and still has to
  read or write the awaiter: the marks of the waiter (`semaphore.hpp:299`), or the control
  block (`spawn_blocking.hpp:81-86`; `await_resume` takes a missing one for a cancellation).
  `SemaphoreRuns.HandedOverEarly` and `BlockingProtocol.HandedOverEarly` say exactly when,
  `HandedOverEarlyRun` is a run of each.
- **A oneshot receiver that never armed its guard** (its scope was cancelled before) can
  report cancelled while a later send still succeeds: `LateSend` and `LateSendOccurs`.
- **The pool's drain needs a worker**: `NeverDrained` is a run of a pool of size zero that
  is stopped with a job in its queue, and `DrainNeedsWorker` says that the drain holds for a
  pool exactly if its size is positive.
- **`trim_whitespace` does not trim** in general, against its name: it keeps the first
  whitespace byte after the text, and when at most one byte follows the leading whitespace
  its view ends one byte past the argument. `TrimStrips` and `TrimReadsPastEnd` give the
  exact conditions. The round trips are not affected.

## Model

| member | source | states |
|---|---|---|
| SemaphoreFairness.NoLostWakeup | include/coasio/sync/semaphore.hpp:65-104 | after every run in which no removal of an ungranted head uncovers a fitting successor: with the queue lock free and no release between its addition and its grant pass, nobody waits or the head needs more than there is |
| SemaphoreFairness.CoveredStep | include/coasio/sync/semaphore.hpp:134-183 | each step keeps "if the head fits, someone is on the way to grant it" if and only if it is not such a removal |
| SemaphoreFairness.NoLostWakeupEqualSizes | include/coasio/sync/semaphore.hpp:65-122 | with one request size, no cancellation and no destructor strands anybody |
| SemaphoreFairness.FirstComeFirstServed | include/coasio/sync/semaphore.hpp:134-183 | if v was queued before w and w was granted, v was granted, cancelled or dropped before |
| SemaphoreFairness.NoBarging | include/coasio/sync/semaphore.hpp:48-63 | a fast-path acquire succeeds only with an empty queue, and takes just what is there |
| SemaphoreWindows.StrandedWaiter | include/coasio/sync/semaphore.hpp:80-87 | a run that ends with a waiter for one permit in the queue, one permit free and nobody active |
| SemaphoreWindows.CancelKeepsOthers | include/coasio/sync/semaphore.hpp:80-87 | cancelling a waiter leaves all others queued if and only if it is linked, acquired or cancelled, or the queue is empty |
| SemaphoreOrder.DoubleResumption | include/coasio/sync/semaphore.hpp:281-305 | in every reachable state, some continuation of a cancellation by an idle thread resumes the waiter's coroutine more than once, inline and hand-overs taken together, if and only if the waiter's await_suspend has not ended and it is neither granted nor cancelled; linked or not |
| SemaphoreOrder.OrderIsExact | include/coasio/sync/semaphore.hpp:80-87 | in every reachable state a cancellation leaves everybody else queued, resumes nobody twice and hands over only a waiter it took out of the queue, if and only if it comes in order |
| SemaphoreOrder.CancelBeforeLinking | include/coasio/sync/semaphore.hpp:286-302 | in every reachable state, a waiter cancelled before it is linked is linked and resumed inline as well as through the runtime by the rest of its await_suspend; all others are lost; with too few permits its node stays in the queue after await_suspend is over, otherwise it is granted |
| SemaphoreOrder.DeadNodeTakesPermits | include/coasio/sync/semaphore.hpp:299-302 | after that a release that makes enough permits free loses as many as the cancelled node asked for and hands its coroutine over a second time, its third resumption |
| SemaphoreRuns.BeforeLinking | include/coasio/sync/semaphore.hpp:286-294 | a run after which cancelling a waiter that is not linked yet empties the queue of another |
| SemaphoreRuns.BeforeLinkingEnds | include/coasio/sync/semaphore.hpp:286-302 | for every size of the request a run on which a waiter is cancelled before it is linked, through to both ends of its await_suspend: granted, or marked with the node left in the queue |
| SemaphoreRuns.AfterLeaving | include/coasio/sync/semaphore.hpp:263-266 | a run after which cancelling a waiter whose destructor has unlinked it empties the queue of another |
| SemaphoreRuns.DuringSuspend | include/coasio/sync/semaphore.hpp:294-302 | a run after which a cancellation by a second thread resumes a linked waiter's coroutine twice |
| SemaphoreRuns.HandedOverEarly | include/coasio/sync/semaphore.hpp:294-304 | in every reachable state a thread about to hand over a waiter does so while another is inside that waiter's await_suspend if and only if the waiter is not suspended yet |
| SemaphoreRuns.HandedOverEarlyRun | include/coasio/sync/semaphore.hpp:299-302 | a run after which the handle of a granted waiter is with the runtime and its thread still inside await_suspend |
| SemaphoreLedger.PermitConservation | include/coasio/sync/semaphore.hpp:48-122 | in every reachable state free permits, permits due to granted waiters, permits in permit objects and forgotten ones add up to initial plus released; the counter stays between zero and that |
| SemaphoreLedger.BalancedStep | include/coasio/sync/semaphore.hpp:159-183 | every step of every operation, permit moves, merges and destructors included, keeps that ledger |
| SemaphoreLedger.MutualExclusion | include/coasio/sync/mutex.hpp:9-31 | with one permit and no release but by guards, at most one holder exists, counting granted waiters that have not resumed, and no permit is then free |
| SemaphoreWakes.ResumedOnce | include/coasio/sync/semaphore.hpp:65-122 | no waiter is resumed twice: inline, or by one hand-over because of a grant or a cancellation; and when nobody is active, every waiter due a hand-over had it |
| SemaphoreProgress.CallsCanEnd | include/coasio/sync/semaphore.hpp:48-122 | from every reachable state a run of accesses alone ends with all threads outside the semaphore and its lock free |
| SemaphoreProgress.TryAlone | include/coasio/sync/semaphore.hpp:48-63 | an undisturbed try_acquire takes its permits exactly if nobody is queued and there are enough, and else changes nothing |
| SemaphoreProgress.ResumeGives | include/coasio/sync/semaphore.hpp:307-313 | in every reachable state a waiter that resumes was granted and gets a permit object of the size it asked for, or was cancelled and gets none; and neither resumes again nor is dropped |
| SemaphoreReturns.PermitsComeBack | include/coasio/sync/semaphore.hpp:89-122 | from every reachable state there is a run, without a new request, release or forget, after which nobody is inside, nobody waits, and all permits but the forgotten ones are free |
| SemaphoreSafety.BasicStep | include/coasio/sync/semaphore.hpp:134-183 | every step keeps the safety invariant: the lock has one owner, the queue holds exactly the linked waiters once, the flag is set exactly while it is non-empty, what is buffered for wake-up is granted or cancelled, permits stay non-negative |
| SemaphoreCore.GrantCountIsLongest | include/coasio/sync/semaphore.hpp:159-183 | the number of waiters an undisturbed pass grants is the longest prefix whose needs fit |
| Queues.WithoutMembers | include/coasio/sync/semaphore.hpp:145-157 | a middle removal takes out exactly one waiter |
| SemaphoreState.Semaphore.GrantLocked | include/coasio/sync/semaphore.hpp:159-183 | in r rounds of the loop the first k waiters are granted, one in each round whose exchange succeeds; each round had a head that fitted; permits change by exactly what came in during these rounds and what was granted; it stops only when the head does not fit, and undisturbed at the longest fitting prefix; buffer plus direct schedules are the granted waiters but self, in order, for any length; terminates on queue length plus interference |
| SemaphoreState.Semaphore.GrantRound | include/coasio/sync/semaphore.hpp:164-181 | one round of the compare-exchange loop: it stops exactly if the head does not fit at the load, and else grants it exactly if nothing came in before the exchange and that did not fail spuriously |
| SemaphoreState.Semaphore.Deliver | include/coasio/sync/semaphore.hpp:175-180 | a granted waiter goes nowhere if it is self, else to the buffer, else to the runtime at once |
| SemaphoreState.Semaphore.GrantAndWake | include/coasio/sync/semaphore.hpp:94-104 | a pass with its wake-ups: each granted waiter but self is handed over once, those past the buffer first |
| SemaphoreState.WakeOrderKeepsAll | include/coasio/sync/semaphore.hpp:177-180 | that order hands over the same multiset of waiters |
| SemaphoreState.WakeOrderIs | include/coasio/sync/semaphore.hpp:94-104 | up to sixteen granted waiters are handed over in the order in which they were granted; of more, those after the sixteenth go first |
| SemaphoreState.ToWakeIs | include/coasio/sync/semaphore.hpp:173-180 | handed over are the granted waiters but self, and all in order if self was not granted |
| SemaphoreState.Semaphore.TryAcquire | include/coasio/sync/semaphore.hpp:48-63 | under any interference it succeeds exactly if nothing is asked for, or nobody is queued and the permits suffice when it looks first; it takes n in the first quiet round, and keeps all that came in before |
| SemaphoreState.Semaphore.TryAcquireOrEnqueue | include/coasio/sync/semaphore.hpp:65-78 | links at the tail, grants from the head, and is true exactly when the caller's own node was granted |
| SemaphoreState.Semaphore.TryCancelWaiter | include/coasio/sync/semaphore.hpp:80-87 | marks and unlinks any waiter that carries neither mark, without asking whether it is linked; else changes nothing |
| SemaphoreState.Semaphore.Release | include/coasio/sync/semaphore.hpp:89-104 | adds n; with waiters queued a grant pass begins with these permits, as in GrantLocked, and its waiters are handed over; without, nothing else happens |
| SemaphoreState.Semaphore.DequeueOrReturn | include/coasio/sync/semaphore.hpp:106-122 | no-op after cancellation, leaves the queue while waiting, gives the permits back and grants after a grant |
| SemaphoreState.Semaphore.LinkTail | include/coasio/sync/semaphore.hpp:134-143 | the linked structure stays well-formed and its sequence gets the node at the end; the flag is set |
| SemaphoreState.Semaphore.Unlink | include/coasio/sync/semaphore.hpp:145-157 | from any well-formed list any node is taken out of the sequence, and the flag stays set exactly if the rest is non-empty; a node in no list empties the whole sequence |
| PermitState.Permit.Drop | include/coasio/sync/semaphore.hpp:206-222 | the destructor gives back exactly what the permit held; if anybody is queued a grant pass begins with it, round by round as in GrantLocked, whose waiters are marked and each handed over once; no head that fits is left |
| PermitState.Permit.Assign | include/coasio/sync/semaphore.hpp:199-206 | move assignment gives back what was held, with the marks, the hand-overs and no fitting head left as in Drop, takes over the other permit and empties it; self-assignment does nothing |
| PermitState.Permit.Merge | include/coasio/sync/semaphore.hpp:213-217 | the sum moves to one permit, also when it is merged into itself |
| PermitState.Mutex.TryLock | include/coasio/sync/mutex.hpp:24-28 | a guard of one permit exactly if the mutex is free when it looks first and nobody waits; permits that come in meanwhile are kept |
| PermitState.Mutex.Unlock | include/coasio/sync/mutex.hpp:9-17 | a guard dropped while it holds the mutex hands it to the longest waiting waiter, and to nobody else, or frees it if nobody waits |
| PermitState.UnitGrants | include/coasio/sync/semaphore.hpp:159-183 | with requests of one permit a pass grants as many waiters as there are permits |
| CancelProtocol.GuardDichotomy | include/coasio/cancel_scope.hpp:52-62 | an armed guard is still linked; or one disarm returned true and the callback never starts; or the callback started once and had finished before any disarm returned false |
| CancelProtocol.CancelIsComplete | include/coasio/cancel_scope.hpp:87-102 | when a scope is cancelled and nobody is in the loop of cancel, as after the winning cancel has returned, the list is empty for good, exactly the guards armed at its swap have run, once each and to the end, newest first, and no pending arm can link |
| CancelProtocol.SnapshotIsArmed | include/coasio/cancel_scope.hpp:91-95 | the guards that the winning swap finds in the list are exactly the armed ones |
| CancelProtocol.InvStep | include/coasio/cancel_scope.hpp:87-160 | every step of cancel, arm and disarm, by any threads, keeps the invariant behind these results |
| CancelProgress.ArmAlone | include/coasio/cancel_scope.hpp:130-144 | in every reachable state with the mutex free, an arm of an idle guard links it in front of all others, or changes nothing if the scope is cancelled |
| CancelProgress.DisarmAlone | include/coasio/cancel_scope.hpp:146-160 | so does a disarm take an armed guard out of the list, and just it, or leaves everything |
| CancelProgress.CancelAlone | include/coasio/cancel_scope.hpp:87-102 | and a cancel run the callbacks of all armed guards, once each and in the order of the list, empty the list and leave the scope cancelled; or change nothing on a cancelled scope |
| CancelProgress.GuardFires | include/coasio/cancel_scope.hpp:87-144 | a run from the start on which a guard is armed and its callback runs |
| CancelProgress.CallsEnd | include/coasio/cancel_scope.hpp:87-160 | no run makes more than four accesses for each call, callbacks included |
| CancelProgress.NobodyIsStuck | include/coasio/cancel_scope.hpp:87-160 | as long as a call has not returned, some thread can go on |
| CancelScope.Scope.Cancel | include/coasio/cancel_scope.hpp:87-102 | empties the list, runs the callbacks in list order and marks each guard fired; a later call changes nothing |
| CancelScope.Scope.LinkLocked | include/coasio/cancel_scope.hpp:107-113 | prepends to the sequence, links well-formed |
| CancelScope.Scope.UnlinkLocked | include/coasio/cancel_scope.hpp:115-123 | removes any node from the sequence, links well-formed |
| CancelScope.Guard.Arm | include/coasio/cancel_scope.hpp:130-144 | already_cancelled exactly on a cancelled scope, without a change; else the guard is armed, has its callback, and is first in the list |
| CancelScope.Guard.Disarm | include/coasio/cancel_scope.hpp:146-160 | true exactly if the guard was armed, which is then off the list |
| OneshotProtocol.ResolvesOnce | include/coasio/sync/oneshot.hpp:35-80 | at most one of ready, sender dropped and cancelled is ever set; a registered waiter means none is; the receiver is resumed at most once, inline or by a hand-over after the resolution; when nothing is under way a suspended receiver of a resolved channel was handed over |
| OneshotProtocol.ArmedAgreement | include/coasio/sync/oneshot.hpp:177-210 | for an armed receiver a send succeeded with v exactly if the co_await yields v; otherwise every send was and will be handed back |
| OneshotProtocol.LateSend | include/coasio/sync/oneshot.hpp:185-198 | after a co_await without a value, a live sender's next send succeeds exactly if the guard was never armed |
| OneshotProtocol.LateSendOccurs | include/coasio/sync/oneshot.hpp:177-191 | a run in which the await reports cancelled and a send succeeds |
| OneshotProtocol.AwaitAnswers | include/coasio/sync/oneshot.hpp:200-210 | over every run, a done co_await looked at the state once, and its answer is what that state calls for: the value if ready; else cancelled exactly if channel or scope was; and channel_closed exactly if the sender was dropped and neither was |
| OneshotProtocol.ChannelCloses | include/coasio/sync/oneshot.hpp:206-209 | a run that ends with channel_closed |
| OneshotProtocol.RefusedForReason | include/coasio/sync/oneshot.hpp:35-49 | a send is refused only after a successful one, or because the receiver went or the channel was cancelled |
| OneshotProtocol.SendWorks | include/coasio/sync/oneshot.hpp:35-49 | in every reachable state a live sender's send is accepted exactly if nothing was sent, the receiver is there and nobody cancelled; then a waiting receiver is handed over next |
| OneshotProtocol.AwaitEnds | include/coasio/sync/oneshot.hpp:177-210 | no run takes more than fifteen steps besides sends; and where only the users of the channel could go on, the co_await is done, was not begun or was destroyed, or it waits for a live sender with nothing sent and nothing cancelled |
| JoinProtocol.RootSendsOnce | include/coasio/task.hpp:33-60 | over every run of the tasks a root sends once, the exception its body ended with or else its value, and only then does its sender go |
| JoinProtocol.JoinIsFaithful | include/coasio/runtime.hpp:302-312 | over every channel run whose sender is driven by a root of a task run, a co_await of the receiver whose own scope is not cancelled yields an outcome of which join makes the root's exception, else its value; never cancelled or channel_closed |
| JoinProtocol.JoinHappens | include/coasio/runtime.hpp:67-90 | for every value or exception a body can end with, a run of a spawned root and a run of its join that do yield its outcome |
| OneshotProtocol.InvStep | include/coasio/sync/oneshot.hpp:177-210 | every step of sender, receiver and scope keeps the invariant behind these results |
| OneshotState.State.SetValue | include/coasio/sync/oneshot.hpp:35-49 | stores the value and takes the waiter, or hands the value back, by the transition function |
| OneshotState.State.MarkSenderDropped | include/coasio/sync/oneshot.hpp:51-62 | resolves an unresolved channel and takes the waiter |
| OneshotState.State.CancelAndTakeWaiter | include/coasio/sync/oneshot.hpp:74-80 | resolves an unresolved channel as cancelled and says whether there was a waiter |
| OneshotState.State.RegisterWaiter | include/coasio/sync/oneshot.hpp:193-197 | registers only on an unresolved channel |
| OneshotState.State.TakeOutcome | include/coasio/sync/oneshot.hpp:200-210 | the value if ready; else cancelled if the channel or the scope was; else channel_closed |
| BlockingProtocol.JobResolvesOnce | include/coasio/detail/blocking/spawn_blocking.hpp:29-100 | an accepted job is queued, popped by one worker or erased by one canceller; it runs exactly if popped; its handle is handed over exactly once, as soon as whoever took the job is done with it, and not before; the co_await yields exactly the value or exception with which the job's function ended if it ran, and reports cancelled if it never did |
| BlockingProtocol.CancellationNotLost | include/coasio/detail/blocking/spawn_blocking.hpp:66-88 | when the winning cancel and await_suspend are both over the job is not queued, wherever cancel fell between arm and enqueue |
| BlockingProtocol.NoLateCallback | include/coasio/detail/blocking/spawn_blocking.hpp:90-91 | once await_resume has disarmed the guard, the callback neither runs nor can run any more |
| BlockingProtocol.PoolDrains | include/coasio/detail/blocking/pool.hpp:30-79 | when all workers of a pool with at least one are gone, the queue is empty and every accepted job was executed or cancelled, not both, and handed over once, unless its canceller is just about to |
| BlockingProtocol.DrainNeedsWorker | include/coasio/detail/blocking/pool.hpp:21-42 | a pool of n workers, stopped and with all of them gone, is drained after every run if and only if n is positive |
| BlockingProtocol.NeverDrained | include/coasio/detail/blocking/pool.hpp:21-51 | a run of a pool of size zero that is stopped with a job in its queue |
| BlockingProtocol.DequeuedInOrder | include/coasio/detail/blocking/pool.hpp:44-79 | jobs leave the queue in the order in which they were accepted |
| BlockingProtocol.NothingAfterStop | include/coasio/detail/blocking/pool.hpp:44-51 | a stopped pool stays stopped and accepts nothing |
| BlockingProtocol.NoWorkerNoExecution | include/coasio/detail/blocking/pool.hpp:21-25 | a pool without workers never executes anything |
| BlockingProtocol.HandedOverEarly | include/coasio/detail/blocking/spawn_blocking.hpp:66-88 | in every reachable state a job was handed over while its await_suspend still runs if and only if that is between the enqueue and its own attempt to erase the job, and the job has left the queue and everybody's hands |
| BlockingProtocol.HandedOverEarlyRun | include/coasio/detail/blocking/spawn_blocking.hpp:78-86 | a run after which a worker has run and handed over a job whose await_suspend still runs |
| BlockingProgress.JobsEnd | include/coasio/detail/blocking/spawn_blocking.hpp:66-100 | no run takes more than nineteen steps a job and one a worker |
| BlockingProgress.AllDone | include/coasio/detail/blocking/pool.hpp:63-79 | where nothing can happen but an arrival, a stop or a cancellation, every co_await of a pool with a worker is done, with the result of its job exactly if that ran; and if the pool was stopped its workers are gone |
| BlockingProgress.CancelledForReason | include/coasio/detail/blocking/spawn_blocking.hpp:64-93 | a co_await reports cancelled only if its scope was cancelled or the pool stopped |
| BlockingProtocol.InvStep | include/coasio/detail/blocking/spawn_blocking.hpp:66-100 | every step of awaiters, scopes and workers keeps the invariant behind these results |
| BlockingPool.Pool.Enqueue | include/coasio/detail/blocking/pool.hpp:44-51 | appends, or refuses exactly when stopped |
| BlockingPool.Pool.TryCancel | include/coasio/detail/blocking/pool.hpp:53-60 | erases the first occurrence exactly if the item is queued |
| BlockingPool.Pool.NextJob | include/coasio/detail/blocking/pool.hpp:66-76 | takes the front, and leaves the loop only from an empty queue |
| LeafProtocol.OneshotIsStay | include/coasio/sync/oneshot.hpp:177-210 | over every run a oneshot parks its receiver at most once and gives it to the run queue at most once, afterwards; and has done both when it is resolved, parked it, and nobody holds the waiter |
| LeafProtocol.JobIsStay | include/coasio/detail/blocking/spawn_blocking.hpp:66-88 | the same for a blocking job, complete when it has left the queue and everybody's hands |
| LeafProtocol.RootStays | include/coasio/runtime.hpp:195-214 | over every run of the runtime, what a root goes through at its leaves is a sequence of such stays, and a park more exactly while it is at a leaf |
| LeafProtocol.WakeIsOpen | include/coasio/runtime.hpp:210-214 | a root at a leaf always has the step enabled that takes it further |
| RuntimeProtocol.OnePlace | include/coasio/runtime.hpp:67-90 | every root is in exactly one place, and is there if and only if the structure says so: with its spawner, in the run queue once, in the hands of one worker, in the blocking queue once, on one pool thread, with the worker that destroys it, or at a leaf; it is listed exactly while live |
| RuntimeProtocol.CleanShutdown | src/runtime.cpp:49-88 | once the destructor is past its wait, the root list, the run queue and the blocking queue are empty in every later state and nobody has a root in hand |
| RuntimeProtocol.NoTaskDropped | src/runtime.cpp:3-13 | a worker that leaves on the stop flag leaves an empty run queue behind; at the end every root has sent its outcome and its frame is gone |
| RuntimeProtocol.OutcomeBeforeFrame | include/coasio/task.hpp:33-60 | a root's frame, and the sender in it, goes only after its outcome was sent and the root was unregistered; a root that runs has not sent yet |
| RuntimeProtocol.InvStep | include/coasio/runtime.hpp:195-236 | every step of spawning, running, parking, finishing and shutting down keeps the places and the structures in agreement |
| RuntimeProgress.ShutdownEnds | src/runtime.cpp:49-88 | once the destructor is past its wait, no run goes on for more than three steps, four a worker and one a pool thread, with the stop flag set for one, two and one; and where it cannot go on the destructor has finished |
| RuntimeProgress.CanFinish | src/runtime.cpp:3-88 | from every reachable state of a runtime with a worker there is a run to the end of the destructor, after which every root has sent and is destroyed |
| RuntimeProgress.RootRunsThrough | src/runtime.cpp:3-88 | a run from the start of any runtime with a worker: a root is spawned, is fetched and spawns another, and the destructor finishes with both done |
| RuntimeProgress.ParkAndBack | include/coasio/runtime.hpp:195-214 | whenever a worker runs a root, that can park at a oneshot and be woken, or at a blocking job and be cancelled; either way it is queued behind all others |
| RuntimeProgress.PoolServes | include/coasio/detail/blocking/pool.hpp:63-79 | an idle pool thread can take the first job and execute it, and its root is queued behind all others |
| RuntimeState.Registry.Register | include/coasio/runtime.hpp:216-224 | prepends to the root list, links well-formed, live_roots_ is its length |
| RuntimeState.Registry.Unregister | include/coasio/runtime.hpp:226-236 | removes any root from the list, links well-formed, the count follows, and the waiter is notified exactly at zero |
| RuntimeState.Registry.CancelAll | src/runtime.cpp:51-57 | the walk cancels the scope of every listed root, running the callbacks of all guards armed on it once each, newest first, and leaves the list as it is |
| RuntimeProtocol.ServedInOrder | include/coasio/runtime.hpp:195-214 | over every run the n-th handle that the workers fetch is the n-th that was scheduled, and those not fetched yet are in the run queue: none lost, none overtaken |
| RuntimeState.RunQueue.GetNextTask | include/coasio/runtime.hpp:195-208 | takes the front; nothing only if stopped and empty |
| TaskProtocol.OneOwner | include/coasio/task.hpp:91-163 | under any run of calls, moves, assignments, awaits, spawns and destructors a frame has exactly one owner: itself once detached, a task object until it starts, then one awaiter; none while it is destroyed, and it is destroyed at most once |
| TaskProtocol.DestroyedAfterTheEnd | include/coasio/task.hpp:33-60 | a started frame is destroyed only after its body ended, a root only after sending the exception it ended with, or else its value, from which join makes what an await would give |
| TaskProtocol.AwaitIsFaithful | include/coasio/task.hpp:91-116 | an await throws the exception with which its own child ended, or else yields its value, once |
| TaskProtocol.ScopeInherited | include/coasio/task.hpp:70-74 | along an await chain of any depth every frame carries the root's scope |
| TaskProtocol.OneTip | include/coasio/task.hpp:70-116 | under a live root's scope exactly one frame waits for no child |
| TaskProtocol.AbortReachesLeaf | include/coasio/runtime.hpp:293-296 | a frame suspended at a leaf gave it the scope of a live root, and it is the only leaf with that scope: abort of the root reaches it |
| TaskProtocol.InvStep | include/coasio/task.hpp:33-163 | every operation keeps owners, statuses, continuations and scopes in agreement |
| TaskProgress.StartedFramesEnd | include/coasio/task.hpp:33-163 | from every reachable state there is a run after which every frame that was ever started is destroyed, once, and every root has sent |
| TaskProgress.AwaitWorks | include/coasio/task.hpp:70-116 | in every reachable state a running frame, at any depth, can call a task and await it: the child runs with its scope, and the frame gets the exception or value with which the child ends, whichever that is |
| TaskProgress.SpawnMakesRoot | include/coasio/runtime.hpp:67-90 | a spawned task is queued as a root with a scope of its own, and its task object is empty |
| TaskProgress.AssignmentDestroys | include/coasio/task.hpp:122-130 | a move assignment hands the frame over, empties the source, and destroys what its target held; of an object to itself it changes nothing |
| TaskProgress.DropDestroys | include/coasio/task.hpp:136-139 | an object whose scope ends destroys the frame it holds |
| TaskState.Frame.Destroy | include/coasio/task.hpp:136-139 | destroying a frame destroys every frame held inside it, at any depth, each while still alive |
| TaskState.Frame.FinalSuspend | include/coasio/task.hpp:33-60 | a root sends its exception, else its value, then leaves the registry while its frame still exists, and is gone; another frame stays and names its continuation |
| TaskState.Frame.AwaitTask | include/coasio/task.hpp:70-74 | the child gets the parent's scope and its handle moves into the awaiter |
| TaskState.Task.Assign | include/coasio/task.hpp:122-130 | the old frame and all in it is destroyed, the new one is whole and the source empty; self-assignment does nothing |
| TaskState.Task.Drop | include/coasio/task.hpp:136-139 | the destructor destroys what is held, and all in it |
| TaskState.Task.Detach | include/coasio/task.hpp:145-150 | gives the frame up and marks it as its own owner |
| TaskState.Awaiter.AwaitResume | include/coasio/task.hpp:95-113 | yields the exception, else the value, and the child is gone |
| HostPort.PlainRoundTrip | include/coasio/net/helper.hpp:65-123 | leading whitespace, a printed host without whitespace, colon or leading bracket, a colon and any printed port parse to the same pair |
| HostPort.BracketRoundTrip | include/coasio/net/helper.hpp:74-100 | the same for a bracketed host without closing bracket |
| HostPort.ParseIs | include/coasio/net/helper.hpp:65-123 | a text is accepted, with endpoint r, if and only if, trimmed, it is a written form of r: a host not in brackets with no colon or with several, a bracketed host, or either with a port in decimal; it is refused as out of range exactly for a host with a number too large for a port, and else as invalid |
| HostPort.PortsAccepted | include/coasio/net/helper.hpp:35-58 | parse_port yields p exactly for p up to 65535 printed in decimal with any number of leading zeros |
| HostPort.PortsRefused | include/coasio/net/helper.hpp:35-58 | parse_port says out of range exactly for decimal numbers above 65535 that an unsigned long holds, and invalid argument exactly for what is no number or does not fit one |
| HostPort.ParsePort | include/coasio/net/helper.hpp:35-58 | the loop and checks compute that function, errors included |
| HostPort.TrimWhitespace | include/coasio/net/helper.hpp:11-33 | the loop yields the bytes from the first that is not whitespace through the next whitespace byte, and ends past the argument exactly if at most one byte follows the leading whitespace |
| HostPort.TrimKeepsOneSpace | include/coasio/net/helper.hpp:11-33 | leading whitespace, text and whitespace trim to the text and the first whitespace byte after it |
| HostPort.TrimOverruns | include/coasio/net/helper.hpp:30-32 | whitespace and at most one byte of text trim to the last byte and the one past the end |
| HostPort.TrimStrips | include/coasio/net/helper.hpp:11-33 | the result is the argument without surrounding whitespace if and only if the argument is empty or ends in at least two bytes of plain text |
| HostPort.TrimReadsPastEnd | include/coasio/net/helper.hpp:30-32 | the byte after the argument influences the result exactly if at most one byte follows the leading whitespace |

How the results fit together: `JoinProtocol` joins a run of `TaskProtocol` to one of
`OneshotProtocol`. `LeafProtocol` projects the runs of a oneshot, of a blocking job and of the
runtime onto parks and wakes: the steps by which `RuntimeProtocol` parks a root and schedules
it again have the shape that every run of such a leaf has. That the scope given to a leaf
(`TaskProtocol.AbortReachesLeaf`) wakes what is armed on it is
`CancelProtocol.CancelIsComplete`.

Fields that the source does not have record what happened: tickets, how often a handle was
handed to the runtime (which also stands for its place in the run queue), what was sent,
the auxiliary owner of a frame.

## Left out

- Asio leaves (`async_op`, timers, sockets, listener, resolver, files): they depend on io_context, which is not part of this model.
- `filesystem.hpp` and `filesystem/file.hpp`: uniform wrappers around `spawn_blocking`.
- Endpoint, address and error-category wrappers, `runtime_builder`, `context_guard`, the dispatch of `spawn`, and `block_on` with its `std::future`: plumbing.
- Threads, condition variables and weak memory: steps, guarded waits and sequential consistency stand for them.
- Fairness: the progress results bound every run, or show that the end can be reached from everywhere; whether the scheduler gets there, whether a task ever finishes, and whether a compare-exchange loop under endless interference does, is left open.
- TaskProgress.StartedFramesEnd: frames that were never started are not counted; two task objects that lie in each other's frames would keep each other.
- Calls out of order on a semaphore waiter: the runs take a cancellation only when its waiter is linked and suspended, acquired or cancelled (`CancelInOrder`); what happens otherwise is in `SemaphoreOrder`.
- What a coroutine does that is resumed before its `await_suspend` has returned, and may have destroyed the awaiter: the runs resume it afterwards; when its handle is there sooner, see `HandedOverEarly`.
- Destroying a suspended oneshot or blocking awaiter: with tasks this cannot happen (`TaskProtocol.DestroyedAfterTheEnd`).
- The width of the permit counter: `PermitConservation` bounds it by initial plus released, so nothing wraps while that is at most MAX_PERMITS; `release` itself does not check.
- Move assignment of a permit in `SemaphoreProtocol`: a drop followed by a move, as in `PermitState.Permit.Assign`.
- BlockingProtocol.JobResolvesOnce: the value is that of a co_await resumed after its await_suspend has returned; one resumed sooner may miss the control block and report cancelled.
- RuntimeProtocol.OnePlace: leaves are a oneshot and `spawn_blocking`, a root's inner frames are in `TaskProtocol`, and nothing outside the runtime spawns during the destructor.
- A second caller of `cancel` that returns early on the flag while callbacks still run: `CancelIsComplete` is about the winning caller.
- A join on an empty JoinHandle, and sends on an empty sender.
- Raw handles from `release` and `handle`: the runs of `TaskProtocol` do not resume or destroy frames through them; `release` itself is in `TaskState`.
- Awaiting an empty task: the source dereferences a null handle, so the model requires one that holds a frame.
- `from_chars` is a function from digits to a number bounded by the largest unsigned long, whose width is a parameter of at least 65535.
