# nhope in Dafny

A Dafny 4.11 model of the concurrent core of nhope, a C++17 asynchronous library, with proofs
of what that core promises. `dafny verify dfyconfig.toml` checks everything.

The concurrent protocols are step systems: a state, the events that can happen in it, and a
function for each event, with one event per atomic operation or critical section. A theorem
about a protocol quantifies over every legal sequence of events, for any number of threads.
Atomics are sequentially consistent and a spinning or waiting loop is a guarded step. Code that
works in place on an object or a buffer is a class, whose methods are proved against the step
functions or against a specification of their own.

| files | what they model |
|---|---|
| `Bits`, `Wrappers` | machine words as numbers, bit by bit; option, result |
| `ContextState`, `HandlerList`, `HandlerListModel` | the packed atomic word of AOContext; its intrusive list of close handlers, and that list against the one of `CloseProtocol` |
| `CloseProtocol`, `CloseInvariant`, `CloseTheorems` | threads racing exec, addCloseHandler, startCancellableTask, removeCloseHandler and close |
| `CloseLaws`, `RemovalLaws` | what those calls do for their callers |
| `FutureFlags`, `FutureChain`, `FutureUnwrap`, `Promise` | the flags of FutureState and its atomic steps, chains of then and fail, unwrap; promises and their moves |
| `BoundStage`, `StageOnContext`, `StageServed` | a stage bound to a context: as the stage sees it; on the close protocol itself, where every step is one of its events or none; when a close is sure to serve it, and how it is lost otherwise |
| `ManageableTask` | the seven-state machine that pauses, resumes and stops a worker |
| `PriorityQueue`, `Scheduler`, `SchedulerTheorems`, `SchedulerLaws`, `SchedulerWaits`, `SchedulerImpl` | the priority queue; the preemptive scheduler over manageable tasks, what each operation does; waitAll |
| `Strand` | StrandExecutor |
| `Md5`, `SineTable` | RFC 1321 as functions on whole messages, and the streaming class; the table of the RFC against the sine |
| `Streams` | readers, stream operations, ConcatReader, PushbackReader |
| `Fifo`, `Base64` | the ring buffer; the codec |

## What the proofs turned up

* A `then` or `fail` stage bound to a context is not always resolved when the context closes.
  When its closure is offered, or taken up by the executor, after a close has begun, the
  closure is refused and destroyed; if nothing else refers to the source future its callback is
  destroyed too, takes itself off the handler list, and the next future is never resolved.
  `StageOnContext.ResolvedAtClose` gives the exact condition at the end of a close. From a close
  that has begun, `StageServed.ServedIff` says when every schedule of the protocol serves the
  stage: the closure is running, or the closing thread has come to the handler.
  `StageServed.LossExample` is a schedule that does not.
* `Fifo::push` does not cut the second copy of a push that wraps to the count that fits
  (`include/nhope/seq/fifo.h:64`), so a push of more than fits can run over the oldest
  elements. `Fifo.PushAppendsIff` gives the exact condition, `Fifo.FittingDataAppends` one that a
  caller can keep without knowing where the ring starts, `Fifo.OverrunExample` a case. When
  what remains for that copy is longer than the array it leaves the array as well
  (`Fifo.LeavesArray`, `Fifo.LeavingExample`); such a push always overruns
  (`Fifo.LeavingOverruns`).
* Move assignment of a `Promise` lets go of an unsatisfied promise without breaking it, unlike
  the destructor, so its future is never resolved (`include/nhope/async/future.h:393-399`).
  `PromiseModel.ResolvedIff` gives the exact condition. Assigned to itself, a promise loses its
  state and keeps its flags: `PromiseModel.UsableIff` says when every call finds a state.
* `ConcatReader` takes a read of no bytes for the end of a reader: a read with an empty buffer
  drops every reader up to the end, or up to one that fails in it. `Readers.KeptExactly` says for
  each ConcatReader when a read keeps the content, `Readers.KeptIff` for which buffers it always
  does, `Readers.LossWithFailure` is a case with an error.
* Who waits in `Scheduler::waitAll` is only served when the last task leaves from the active place. A task
  that ends instead of pausing leaves from the delayed list, and whoever waits goes on waiting
  with the scheduler empty (`lib/async/scheduler.cpp:306-339`). `SchedulerWaits.WaitAllIff`
  gives the exact condition, `SchedulerWaits.StrandedExample` a case.
* A resume of a waiting task that was asked to pause is not heeded: when its turn comes it is
  delayed all the same, and its future waits on (`lib/async/scheduler.cpp:206-210` and 321-331).
  `SchedulerLaws.ResumeHeededIff` gives the exact condition, `SchedulerLaws.UnheededExample` a
  case.

## Model

| member | source | states |
|---|---|---|
| ContextState.ViewPack | include/nhope/async/detail/ao-context-state.h:13-28 | the fields of a packed word are read back as they were packed |
| ContextState.Count | include/nhope/async/detail/ao-context-state.h:30-72 | adding counts that fit to the 64-bit word, and subtracting them, changes its two counters and nothing else |
| ContextState.AddRefExact | include/nhope/async/detail/ao-context-state.h:52-55 | a reference added stays in its field if and only if the 32-bit counter is not full; a full one carries into the block counter |
| ContextState.RemoveRefExact | include/nhope/async/detail/ao-context-state.h:57-61 | what one reference less does, borrow from the block counter included |
| ContextState.BlockExact | include/nhope/async/detail/ao-context-state.h:30-39 | the top counter wraps without touching flags or references |
| ContextState.SetFlagIs | include/nhope/async/detail/ao-context-state.h:75-108 | or with a flag sets that flag of the record and nothing else |
| ContextState.ClearLockIs | include/nhope/async/detail/ao-context-state.h:131-136 | and with the complement clears the spin bit and nothing else |
| ContextState.LastRef | include/nhope/async/detail/ao-context-state.h:57-72 | the masked comparison holds exactly for the word with one reference |
| ContextState.AOContextState.BlockClose | include/nhope/async/detail/ao-context-state.h:30-39 | succeeds exactly before PreparingForClosing, and leaves a refused word as it was |
| ContextState.AOContextState.BlockCloseAndAddRef | include/nhope/async/detail/ao-context-state.h:41-50 | the same for a block and a reference together |
| ContextState.AOContextState.AddRef | include/nhope/async/detail/ao-context-state.h:52-55 | one reference more |
| ContextState.AOContextState.RemoveRef | include/nhope/async/detail/ao-context-state.h:57-61 | one reference less; true exactly for the last |
| ContextState.AOContextState.UnblockClose | include/nhope/async/detail/ao-context-state.h:63-66 | one block less |
| ContextState.AOContextState.UnblockCloseAndRemoveRef | include/nhope/async/detail/ao-context-state.h:68-72 | both at once; true exactly for the last reference |
| ContextState.AOContextState.StartClose | include/nhope/async/detail/ao-context-state.h:75-79 | sets PreparingForClosing; true exactly for the first caller |
| ContextState.AOContextState.SetClosingFlag | include/nhope/async/detail/ao-context-state.h:98-102 | sets Closing |
| ContextState.AOContextState.SetClosedFlag | include/nhope/async/detail/ao-context-state.h:104-108 | sets Closed |
| ContextState.AOContextState.GetBlockCloseCounter | include/nhope/async/detail/ao-context-state.h:110-115 | the block counter of the record |
| ContextState.AOContextState.TryLockCloseHandlerList | include/nhope/async/detail/ao-context-state.h:117-129 | one turn of the spin lock: acquired exactly when it was free |
| ContextState.AOContextState.UnlockCloseHandlerList | include/nhope/async/detail/ao-context-state.h:131-136 | frees the spin bit |
| HandlerList.CloseHandlerList.Add | include/nhope/async/detail/ao-context-impl.h:338-355 | the handler goes in front; the links stay acyclic, inverse, with the head's prev null |
| HandlerList.CloseHandlerList.Remove | include/nhope/async/detail/ao-context-impl.h:169-196 | unlinks a handler that is in the list, wherever it is, and leaves any other alone |
| HandlerList.CloseHandlerList.RemoveInner | include/nhope/async/detail/ao-context-impl.h:185-196 | the links of the middle or tail skip the removed handler |
| HandlerList.CloseHandlerList.Relinked | include/nhope/async/detail/ao-context-impl.h:185-196 | links that skip an element are those of the sequence without it |
| HandlerList.CloseHandlerList.PopFront | include/nhope/async/detail/ao-context-impl.h:282-289 | takes the head off and clears its links |
| HandlerListModel.AddIs | include/nhope/async/detail/ao-context-impl.h:344-354 | what Add does to the objects is what the step under the lock does to the identifiers |
| HandlerListModel.RemoveIs | include/nhope/async/detail/ao-context-impl.h:171-196 | the same for Remove, which finds the object exactly when the step finds the identifier |
| HandlerListModel.PopIs | include/nhope/async/detail/ao-context-impl.h:280-294 | the same for PopFront: the step goes on to call the handler that was taken off |
| HandlerListModel.OthersKeep | include/nhope/async/detail/ao-context-impl.h:54-346 | no other step touches the list |
| CloseInvariant.InvStep | include/nhope/async/detail/ao-context-impl.h:54-146 | every step of every thread keeps shapes, counters, phases, barrier and handlers |
| CloseInvariant.InvAfter | include/nhope/async/detail/ao-context-impl.h:54-355 | so does every schedule |
| CloseTheorems.CloseBarrier | include/nhope/async/detail/ao-context-impl.h:121-146 | once the closing thread has left waitForClosing no other thread is in a blocked section, runs work, or is about to use the executor, then or ever again |
| CloseTheorems.CountersExact | include/nhope/async/detail/ao-context-impl.h:55-92 | blocks are the holders plus the failing attempts; references are handles, queued closures and what threads have in hand |
| CloseTheorems.DeletedOnce | include/nhope/async/detail/ao-context-impl.h:237-252 | the context is deleted at most once, exactly when the last reference goes, and then nothing is inside it or can reach it |
| CloseTheorems.FlagsInOrder | include/nhope/async/detail/ao-context-impl.h:121-146 | Closed implies Closing implies PreparingForClosing, one thread closes, the flag assertions hold, the list has one lock holder at most |
| CloseLaws.CloseReturnsClosed | include/nhope/async/detail/ao-context-impl.h:121-146 | a close called from outside the context, first or not, is back outside only with the context closed |
| CloseLaws.LostReturns | include/nhope/async/detail/ao-context-impl.h:263-276 | a close that lost the race returns with the context closed, or inside a close or a work of the context on its own thread |
| CloseLaws.ClosuresAccounted | include/nhope/async/detail/ao-context-impl.h:55-92 | every closure given to exec has begun, is queued or on its way, was destroyed by the executor or refused; before a close begins nothing is refused, neither closure nor handler |
| CloseLaws.NestedBegins | include/nhope/async/detail/ao-context-impl.h:70-74 | a closure taken up on a thread in work of the context begins at once |
| CloseTheorems.HandlersServed | include/nhope/async/detail/ao-context-impl.h:278-304 | after Closed the list is empty for good, and each handler was unlinked and not called, or popped and called once |
| CloseTheorems.RemovalHandshake | include/nhope/async/detail/ao-context-impl.h:169-214 | after removeCloseHandler returns on a thread that is not closing, the handler is not being called and never is again |
| CloseTheorems.CloserTouchesLive | include/nhope/async/detail/ao-context-impl.h:293-301 | the closing thread writes to a handler after its callback only if no removal of it has returned |
| RemovalLaws.RemovalReleased | include/nhope/async/detail/ao-context-impl.h:199-214 | a removal that has to wait waits for aoContextClose of this very handler on another thread, the closing one, and never for its own; once the context is closed it can return |
| RemovalLaws.RemovedOnce | include/nhope/async/detail/ao-context-impl.h:169-214 | a removal begun is under way on one thread, or has returned with the handler unlinked or through its callback |
| RemovalLaws.HandlersFinished | include/nhope/async/detail/ao-context-impl.h:278-304 | once closed each handler was unlinked, or called once and done, or destroyed in its callback |
| RemovalLaws.DestroyedUntouched | include/nhope/async/detail/ao-context-impl.h:199-207 | a handler destroyed from within its callback is never marked done afterwards |
| RemovalLaws.StartsListed | include/nhope/async/detail/ao-context-impl.h:357-362 | a handler is listed when it is added, and the function of startCancellableTask runs next if there is one |
| RemovalLaws.ThrowRemoves | include/nhope/async/detail/ao-context-impl.h:361-366 | when that function throws its handler is taken back: unlinked or through its callback once the removal is over |
| CloseTheorems.WordRefines | include/nhope/async/detail/ao-context-state.h:13-136 | while the counters fit, each step is one atomic operation on the packed word, without carry between fields |
| CloseTheorems.Onward | include/nhope/async/detail/ao-context-impl.h:121-146 | preparing, passed and closed are never taken back, nor is the closing thread changed |
| CloseTheorems.CloseExample | include/nhope/async/detail/ao-context-impl.h:121-146 | a run that closes a context, so the premises of the theorems can be met |
| FutureChain.Rendezvous | include/nhope/async/detail/future-state.h:273-301 | at every future of the chain hasResult and hasCallback never run ahead of what they announce; whoever runs futureReady came second, for the first time, with both in place |
| FutureChain.ChainIsFold | include/nhope/async/detail/future-state.h:361-450 | in every interleaving a result is the sequential fold of its stages, and a stage's function has run at most once, exactly when the fold runs it |
| FutureChain.ChainCompletes | include/nhope/async/future.h:179-254 | when neither thread can go on, the last future holds the fold of the whole chain and every stage was passed once |
| FutureChain.StagePasses | include/nhope/async/detail/future-state.h:373-435 | in every reached state: a then calls its function with the value it finds, unless cancelled, and lets an exception by; a fail calls its handler with the exception and lets a value by; what the function returns or throws is the next result |
| FutureChain.Skips | include/nhope/async/detail/future-state.h:373-435 | a value skips any run of fails and an exception any run of thens, comes out as it went in and calls none of them |
| FutureChain.CalledIff | include/nhope/async/detail/future-state.h:373-435 | a function is called once at most and only on the outcome it is for, and without cancellation on every such outcome |
| FutureChain.ChainTerminates | include/nhope/async/detail/future-state.h:274-301 | every schedule is bounded by the length of the chain |
| FutureChain.CancelStopsThen | include/nhope/async/detail/future-state.h:373-393 | once the cancel flag is set no function given to then starts |
| FutureChain.InvStep | include/nhope/async/detail/future-state.h:173-301 | every load, compare-and-exchange and store keeps the invariant |
| FutureUnwrap.UnwrapIsInnermost | include/nhope/async/detail/future-state.h:327-359 | at any depth and in every interleaving of the atomic steps of unwrap and of the threads that resolve the levels, the unwrapped future gets one result at most, the innermost value or the first exception, and the callback finds each level's result in place |
| FutureUnwrap.UnwrapCompletes | include/nhope/async/detail/future-state.h:273-359 | whenever no call is under way it has its result exactly when unwrap was called and the levels to the end of the way in are resolved |
| FutureUnwrap.InvStep | include/nhope/async/detail/future-state.h:273-359 | every load, compare-and-exchange and store leaves the callback in one place: with a thread, waiting at a level, or done |
| StageOnContext.Refines | include/nhope/async/detail/future-state.h:452-489 | every step of any thread of the close protocol keeps the stage's invariant and is one event of BoundStage or none |
| StageOnContext.RunRefines | include/nhope/async/detail/future-state.h:452-489 | so every schedule of the protocol is a schedule of BoundStage |
| StageOnContext.RunsProtocol | include/nhope/async/detail/ao-context-impl.h:54-214 | and with the stage left out it is one of the protocol, so CloseTheorems speaks of it |
| StageOnContext.ResolvedAtMostOnce | include/nhope/async/detail/future-state.h:373-402 | in every schedule the next future is resolved once at most, and the assertion on m_nextFutureState holds |
| StageOnContext.ResolvedAtClose | include/nhope/async/detail/future-state.h:452-489 | once the context is closed the next future has its result if and only if the stage was called, and then it is the stage's, or its close handler was, and then it is the cancellation; otherwise the handler was unlinked |
| StageOnContext.ResolvedIfOwned | include/nhope/async/detail/future-state.h:466-484 | while the promise of the source future is kept, a close leaves it with exactly one result |
| StageServed.ServedOnceSure | include/nhope/async/detail/ao-context-impl.h:68-91 | from any state in which a close has begun and the closure is running, or the closing thread has popped the handler or holds the list lock with it next, every schedule that comes to rest has given the one result |
| StageServed.ServedIff | include/nhope/async/detail/ao-context-impl.h:121-146 | with a close under way and nothing else going on in the context, every schedule of the protocol serves the stage if and only if that is so, or the result is given |
| StageServed.LossExample | include/nhope/async/detail/future-state.h:466-479 | a schedule of two threads that closes the context and leaves the next future unresolved |
| PromiseModel.AtMostOnce | include/nhope/async/future.h:401-430 | over any calls and moves of any number of promises no state gets two results or two futures |
| PromiseModel.EachCallCounts | include/nhope/async/future.h:376-430 | the results and futures of a state are exactly the calls, and the destructions, of promises that still owed them |
| PromiseModel.ResolvedIff | include/nhope/async/future.h:376-399 | when all promises are gone a state has its result if and only if no event of the run assigned over the promise that owed it |
| PromiseModel.UsableIff | include/nhope/async/future.h:393-430 | all along a run each call that does not throw has a state to go to, if and only if no promise is assigned to itself before it is satisfied and its future given |
| PromiseModel.OverwriteExample | include/nhope/async/future.h:393-399 | a run that leaves a future unresolved |
| Promises.Promise.constructor | include/nhope/async/future.h:372-374 | a promise of a new state |
| Promises.Promise.MoveFrom | include/nhope/async/future.h:384-391 | state and flags move; the source object owes nothing |
| Promises.Promise.Assign | include/nhope/async/future.h:393-399 | state and flags move and the state held before is left as it was; assigned to itself a promise keeps its flags and no state |
| Promises.Promise.Set | include/nhope/async/future.h:401-420 | resolves the state the first time and reports any other |
| Promises.Promise.GetFuture | include/nhope/async/future.h:422-430 | gives the future the first time and reports any other |
| Promises.Promise.Destroy | include/nhope/async/future.h:376-382 | a promise still unsatisfied is resolved |
| Promises.ResolvePromises | include/nhope/async/future.h:508-515 | each promise of the list is resolved once and the list cleared |
| ManageableTask.InvAfter | lib/async/manageable-task.cpp:33-280 | every run of controllers and worker keeps promises, places and lists in order |
| ManageableTask.NoAssertFails | lib/async/manageable-task.cpp:206-267 | the assertions of beginPause and endPause hold and checkPoint never throws |
| ManageableTask.NoLostWakeUp | lib/async/manageable-task.cpp:237-246 | a worker asleep with no wake-up pending is in WaitForStart or Paused, and in neither state is the function running |
| ManageableTask.ListsByState | lib/async/manageable-task.cpp:77-187 | pause promises only in Pausing or Stopping, resume promises only in Resuming or Stopping, none once Stopped |
| ManageableTask.ResolvedOnce | lib/async/manageable-task.cpp:52-68 | no promise is resolved twice, and each one has been when the worker has left and controllers are done |
| ManageableTask.StoppedIsFinal | lib/async/manageable-task.cpp:52-60 | Stopped is never left and no promise is made in it |
| ManageableTask.StoppingStays | lib/async/manageable-task.cpp:158-176 | Stopping leads only to Stopped, and a task stopped before its function ran never runs it |
| ManageableTask.Settles | lib/async/manageable-task.cpp:298-317 | with one controller, pause() ends in Paused or Stopped, resume() in Running or Stopped, stop() in Stopped |
| ManageableTask.PauseAsks | lib/async/manageable-task.cpp:77-113 | after asyncPause the task is Paused, not started or Stopped, or the promise made is one to wait on |
| ManageableTask.ResumeAsks | lib/async/manageable-task.cpp:115-156 | after asyncResume the task is Running, Stopping or Stopped, or the promise made is one to wait on |
| ManageableTask.StopAsks | lib/async/manageable-task.cpp:158-176 | after asyncStop the task is Stopping or Stopped and its worker not left asleep |
| ManageableTask.WaitAsks | lib/async/manageable-task.cpp:178-187 | waiting for the stop is over at once or has a promise |
| ManageableTask.PauseSettles | lib/async/manageable-task.cpp:298-301 | pause(), from the call on, ends with the task paused, stopped or not started |
| ManageableTask.ResumeSettles | lib/async/manageable-task.cpp:303-306 | resume() ends with it running or on its way to the end |
| ManageableTask.StopSettles | lib/async/manageable-task.cpp:308-317 | stop() ends with it stopped |
| ManageableTask.ServedSoon | lib/async/manageable-task.cpp:32-68 | a promise waited on is resolved within eight steps of a worker that goes on |
| ManageableTask.PausesIffAllowed | lib/async/manageable-task.cpp:206-235 | a check point takes the pause asked for exactly when beforePause allows it |
| ManageableTask.EntersSoon | lib/async/manageable-task.cpp:32-50 | two steps of the worker after a task is let run its function has been called |
| ManageableTask.StoppedBeforeStart | lib/async/manageable-task.cpp:40-50 | told to stop before its function was called, the task is never in it |
| ManageableTask.WorkerStep | lib/async/manageable-task.cpp:206-280 | left to itself a worker changes no waiting, paused or stopped state |
| ManageableTask.ManageableTaskImpl.AsyncPause | lib/async/manageable-task.cpp:77-113 | the critical section is the step, and which replies are ready at once |
| ManageableTask.ManageableTaskImpl.AsyncResume | lib/async/manageable-task.cpp:115-156 | the same for resuming |
| ManageableTask.ManageableTaskImpl.AsyncStop | lib/async/manageable-task.cpp:158-176 | the same for stopping |
| ManageableTask.ManageableTaskImpl.AsyncWaitForStopped | lib/async/manageable-task.cpp:178-187 | the same for waiting |
| ManageableTask.ManageableTaskImpl.CheckPoint | lib/async/manageable-task.cpp:206-226 | the step of the worker; false exactly when stopping, and no answer yet when it goes into a pause |
| ManageableTask.ManageableTaskImpl.BeginPause | lib/async/manageable-task.cpp:248-260 | Paused, with the promises taken |
| ManageableTask.ManageableTaskImpl.EndPause | lib/async/manageable-task.cpp:262-271 | Running unless stopping, with the promises taken |
| ManageableTask.ManageableTaskImpl.FinishPause | lib/async/manageable-task.cpp:216-275 | the resume promises are resolved, and checkPoint answers false exactly when a stop has come by then |
| ManageableTask.ManageableTaskImpl.Stop | lib/async/manageable-task.cpp:52-68 | Stopped, with every promise taken |
| PriorityOrder.LowerBound | include/nhope/seq/priority-queue.h:21-24 | the halving search finds the place before the first entry of no lower priority |
| PriorityQueue.PopIsFirstMax | include/nhope/seq/priority-queue.h:18-59 | the back of the list is the earliest arrival among the highest priority, and the rest is the list of the other arrivals |
| PriorityQueue.ArrangeIs | include/nhope/seq/priority-queue.h:18-26 | the list is sorted by priority and holds exactly what arrived |
| PriorityQueue.KeepArrange | include/nhope/seq/priority-queue.h:28-42 | filtering the list is filtering the arrivals |
| PriorityQueue.PriorityQueue.Push | include/nhope/seq/priority-queue.h:18-26 | one arrival more |
| PriorityQueue.PriorityQueue.RemoveIf | include/nhope/seq/priority-queue.h:28-42 | the arrivals the predicate does not name |
| PriorityQueue.PriorityQueue.Pop | include/nhope/seq/priority-queue.h:49-59 | the earliest arrival of the highest priority, or nothing |
| SchedulerInvariant.InvAfter | lib/async/scheduler.cpp:98-339 | every run of push, pause, resume, cancel and finish keeps order, places and states |
| SchedulerTheorems.PriorityKept | lib/async/scheduler.cpp:260-286 | the waiting list is sorted, the active task outranks it, equals wait in order of arrival, and nothing waits with nothing active |
| SchedulerTheorems.NextIsTop | lib/async/scheduler.cpp:321-339 | the next task to run is the first of the highest priority that was not asked to pause |
| SchedulerTheorems.OnePlace | lib/async/scheduler.cpp:138-220 | an id is in at most one of active, waiting and delayed |
| SchedulerTheorems.NeverBack | lib/async/scheduler.cpp:288-319 | an id that has left never comes back |
| SchedulerTheorems.LeavesWhenDone | lib/async/scheduler.cpp:138-161 | a task leaves only stopped, or cancelled before it was ever let into its function |
| SchedulerTheorems.CallbackToCome | lib/async/scheduler.cpp:292-302 | a task in the scheduler has its finish callback still to come, and once stopped it can be taken out |
| SchedulerTheorems.OnlyActiveRuns | lib/async/scheduler.cpp:49-64 | waiting and delayed tasks are in WaitForStart, Paused or Stopped, so only the active one can be in its function |
| SchedulerTheorems.CancelledNeverRuns | lib/async/scheduler.cpp:138-161 | a task cancelled before its function was entered never enters it |
| SchedulerLaws.PushBrings | lib/async/scheduler.cpp:98-106 | push brings a new task: at the top it runs at once and what was active waits, otherwise it waits |
| SchedulerLaws.ResumeBrings | lib/async/scheduler.cpp:206-220 | a delayed task that is resumed is delayed no more and comes to the scheduler in the same way; for any other nothing changes |
| SchedulerLaws.PauseActive | lib/async/scheduler.cpp:190-198 | an active task that is paused is delayed, paused or stopped, and the next one runs |
| SchedulerLaws.PauseWaiting | lib/async/scheduler.cpp:200-203 | a waiting task that is paused is marked, and nothing else changes |
| SchedulerLaws.CancelActive | lib/async/scheduler.cpp:140-143 | an active task that is cancelled stays active, stopping or stopped |
| SchedulerLaws.CancelWaiting | lib/async/scheduler.cpp:144-151 | a waiting one is taken out if it was never started and marked otherwise |
| SchedulerLaws.CancelDelayed | lib/async/scheduler.cpp:152-159 | a delayed one is marked and comes to the scheduler |
| SchedulerLaws.FinishActive | lib/async/scheduler.cpp:294-301 | when the active task has finished the next one runs |
| SchedulerLaws.PausedStaysAside | lib/async/scheduler.cpp:190-204 | once paused a task does not come to run until it is resumed or cancelled while it is delayed |
| SchedulerLaws.CancelledStops | lib/async/scheduler.cpp:138-161 | once cancelled a task is stopping or stopped whenever it is active |
| SchedulerLaws.ComesUp | lib/async/scheduler.cpp:292-339 | a waiting task not asked to pause comes to run once those before it have finished |
| SchedulerLaws.ResumeHeededIff | lib/async/scheduler.cpp:206-210 | to resume a waiting task is heeded if and only if it was not asked to pause |
| SchedulerLaws.UnheededExample | lib/async/scheduler.cpp:321-333 | a run in which it is not |
| SchedulerInvariant.HomesStep | lib/async/scheduler.cpp:98-339 | each operation moves ids as it says: one arrives with push, one leaves as Leaves says, the others stay |
| Scheduler.Impl.FindTaskById | lib/async/scheduler.cpp:246-258 | the first task with the id, or the end |
| Scheduler.Impl.Schedule | lib/async/scheduler.cpp:260-277 | starts, preempts or queues; its assertion holds |
| Scheduler.Impl.QueueTask | lib/async/scheduler.cpp:279-286 | inserted at the lower bound |
| SchedulerWaits.ResolvesIff | lib/async/scheduler.cpp:321-339 | an operation resolves the promises of waitAll exactly when it is the finish callback of the active task and leaves no task at all |
| SchedulerWaits.WaitAllIff | lib/async/scheduler.cpp:292-339 | whatever takes the last task out of a scheduler someone waits for resolves the promises if and only if that task was the active one |
| SchedulerWaits.WaitAllServed | lib/async/scheduler.cpp:292-339 | while tasks leave from the active place an empty scheduler keeps no one waiting |
| SchedulerWaits.StrandedExample | lib/async/scheduler.cpp:190-204 | a run that empties the scheduler and leaves waitAll unresolved |
| Scheduler.Impl.ResumeNextTask | lib/async/scheduler.cpp:321-339 | pops, passes over tasks asked to pause, and resolves the promises of waitAll when both lists are at their end |
| Scheduler.Impl.MakeWaitAllPromise | lib/async/scheduler.cpp:116-122 | ready at once with nothing active, one promise more otherwise |
| Scheduler.Impl.Push | lib/async/scheduler.cpp:98-106 | the step of push, with a new id; no promise of waitAll is touched |
| Scheduler.Impl.Pause | lib/async/scheduler.cpp:190-204 | the step of pause; the future is ready, or on the pause list of a waiting task |
| Scheduler.Impl.Resume | lib/async/scheduler.cpp:206-220 | the step of resume; the future is on the resume list of a waiting or delayed task, or ready |
| Scheduler.Impl.CancelTask | lib/async/scheduler.cpp:138-161 | the step of cancel; the future is the end of the active task, on the stop list of another, or ready |
| Scheduler.Impl.TaskFinished | lib/async/scheduler.cpp:292-302 | the step of the finish callback, waitAll included; its assertion holds |
| Scheduler.Impl.EraseTask | lib/async/scheduler.cpp:306-319 | the task is erased where it is found |
| Scheduler.Impl.Size | lib/async/scheduler.cpp:222-225 | the number of tasks |
| StrandModel.OneAtATime | lib/async/strand-executor.cpp:41-72 | at most one work runs; busy exactly while one origin job is out; a queue with works is never idle |
| StrandModel.InOrder | lib/async/strand-executor.cpp:18-33 | each call of exec submits one work; works start in submission order, once at most, and each is started, queued or cleared |
| StrandModel.StartedIsPrefix | lib/async/strand-executor.cpp:18-27 | without clear the started works are a prefix of the submissions and the queue is the rest |
| StrandModel.ClearedIff | lib/async/strand-executor.cpp:29-33 | a work submitted is neither started nor queued, now or ever, if and only if a clear found it waiting |
| StrandModel.ClearDrops | lib/async/strand-executor.cpp:29-33 | a work that a clear found waiting is never started |
| StrandModel.Drains | lib/async/strand-executor.cpp:50-71 | left to the origin executor the strand empties its queue in a bounded number of job steps |
| StrandExecutor.Impl.Exec | lib/async/strand-executor.cpp:18-27 | the critical section is the step |
| StrandExecutor.Impl.Clear | lib/async/strand-executor.cpp:29-33 | the queue is dropped |
| StrandExecutor.Impl.BeginJob | lib/async/strand-executor.cpp:50-61 | the job takes the front of the queue or goes idle; its assertion holds |
| StrandExecutor.Impl.EndJob | lib/async/strand-executor.cpp:63-70 | after the work the next job is posted, or the strand is idle |
| Rfc1321.BitByBit | lib/utils/md5.cpp:46-64 | f, g, h and i are the conditional, the other conditional, the parity and y xor (x or not z) in each bit |
| Rfc1321.InitBytes | lib/utils/md5.cpp:243-252 | the initial words are the bytes section 3.3 of RFC 1321 lists |
| SineTable.TIsSine | lib/utils/md5.cpp:151-221 | the sixty-four constants are the integer parts of 2^32 times the absolute sine of 1 to 64 |
| Rfc1321.ZeroCount | lib/utils/md5.cpp:270-272 | the padding leaves 56 modulo 64 |
| MD5.RotateIs | lib/utils/md5.cpp:67-70 | the two shifts come to the circular shift, one place at a time |
| MD5.Accumulate | lib/utils/md5.cpp:75-105 | the wrapping sums and the rotation of ff, gg, hh and ii, whose mixing function is the argument |
| MD5.Rounds | lib/utils/md5.cpp:151-221 | the 64 written-out operations are the operations of RFC 1321, indices, shifts and constants included |
| MD5.DecodeIsWords | lib/utils/md5.cpp:127-139 | the recursive decode gives the low-order-first words of the block |
| MD5.WordsRoundTrip | lib/utils/md5.cpp:113-130 | decoding an encoded 32-bit word, low-order byte first, gives it back |
| MD5.IndexIs | lib/utils/md5.cpp:289-292 | the index from the wrapped bit count is the length modulo 64, for messages of any length |
| MD5.PaddingIs | lib/utils/md5.cpp:261-276 | what digest appends is the padding and length of RFC 1321 |
| MD5.MD5.Transform | lib/utils/md5.cpp:141-232 | one step of RFC 1321 on the four words |
| MD5.MD5.Update | lib/utils/md5.cpp:286-316 | the state folds the full blocks, the buffer holds the rest, the count is the length in bits modulo 2^64 |
| MD5.MD5.Digest | lib/utils/md5.cpp:259-284 | the RFC 1321 digest of everything since the last reset, and a fresh context |
| MD5.MD5.Reset | lib/utils/md5.cpp:254-257 | the context of the empty message |
| MD5.DigestOf | lib/utils/md5.cpp:318-323 | the one-shot digest |
| MD5.DigestChunks | lib/utils/md5.cpp:286-316 | every split into update calls gives the digest of the whole |
| MD5.DigestStream | lib/utils/md5.cpp:325-343 | the digest of a stream, or its error |
| Readers.ReadKeeps | lib/io/io-device.cpp:251-280 | a read with room in its buffer, of any reader however nested, gives a prefix of what is left, empty only at the end, and loses nothing when it fails |
| Readers.ReadsConcat | lib/io/io-device.cpp:251-280 | any sequence of such reads yields the content in order |
| Readers.EmptyReadDrops | lib/io/io-device.cpp:251-280 | what a read with an empty buffer drops, up to the end or to the reader that fails, is the front of the content and what it leaves the rest |
| Readers.KeptExactly | lib/io/io-device.cpp:251-280 | a read keeps the content, failing or not, if and only if its buffer has room or there is nothing to drop |
| Readers.KeptIff | lib/io/io-device.cpp:251-280 | reads of a size keep the content of every ConcatReader if and only if the size is not zero |
| Readers.LossWithFailure | lib/io/io-device.cpp:264-273 | an empty read that fails and has dropped a reader before |
| Readers.UnreadPrepends | lib/io/pushback-reader.cpp:34-37 | unread puts the bytes in front of the stream |
| Readers.UnreadRestores | lib/io/pushback-reader.cpp:34-63 | unreading what was just read restores the stream |
| Readers.ConcatReader.Read | lib/io/io-device.cpp:251-280 | the loop over readers is the read of the model |
| Readers.PushbackReader.Read | lib/io/pushback-reader.cpp:40-63 | the reversed tail of the buffer first, then the origin |
| Readers.PushbackReader.Unread | lib/io/pushback-reader.cpp:34-37 | the buffer grows by the reversed bytes |
| StreamOps.ReadOp.Start | lib/io/io-device.cpp:48-82 | portions are non-empty and no larger than asked for, and the operation ends exactly when the handler says so or the stream ends; it fails exactly when a read does |
| StreamOps.Read | lib/io/io-device.cpp:309-316 | one portion of at most so many bytes |
| StreamOps.ReadExactly | lib/io/io-device.cpp:324-333 | the prefix of that length, or all there is |
| StreamOps.NeverTooMuch | lib/io/io-device.cpp:326-330 | the assertion of readExactly |
| StreamOps.ReadUntil | lib/io/io-device.cpp:341-349 | the shortest prefix that ends with the marker, or all there is |
| StreamOps.EveryPrefix | lib/io/io-device.cpp:343-346 | byte by byte no prefix is passed over |
| StreamOps.ReadLine | lib/io/io-device.cpp:295-363 | up to the first end-line marker and without it, for the marker of either platform |
| StreamOps.ReadAll | lib/io/io-device.cpp:365-373 | the whole stream |
| StreamOps.WriteOp | lib/io/io-device.cpp:120-144 | what has been delivered is a prefix of the data, the whole of it when all is to be written |
| StreamOps.Write | lib/io/io-device.cpp:318-322 | at least one byte of any data |
| StreamOps.WriteExactly | lib/io/io-device.cpp:335-339 | all of it |
| StreamOps.CopyOp.Start | lib/io/io-device.cpp:176-194 | delivers exactly the source and returns its length; an error leaves a prefix delivered |
| StreamOps.CopyOp.WritePortion | lib/io/io-device.cpp:196-220 | what was read goes out whole before more is read |
| StreamOps.Copy | lib/io/io-device.cpp:382-386 | the same for copy |
| Fifo.NextPowerOf2 | include/nhope/seq/fifo.h:19-30 | the least power of two from 2 on that is not below the value; the 32-bit int of the code holds it exactly for values up to 2^30 |
| Fifo.MaskIsSlot | include/nhope/seq/fifo.h:58-63 | the mask is the remainder by the capacity |
| Fifo.Fifo.Push | include/nhope/seq/fifo.h:48-68 | what fits is appended, what an overrun puts in its place, and whether the second copy leaves the array |
| Fifo.Fifo.PushOne | include/nhope/seq/fifo.h:70-73 | one element is appended if there is room |
| Fifo.Fifo.Pop | include/nhope/seq/fifo.h:81-100 | the oldest elements leave in order |
| Fifo.Fifo.PopOne | include/nhope/seq/fifo.h:102-109 | the oldest element, or nothing |
| Fifo.Fifo.Clear | include/nhope/seq/fifo.h:43-46 | empty |
| Fifo.PushAppendsIff | include/nhope/seq/fifo.h:56-65 | a push of so many elements appends whatever they are if and only if it does not overrun |
| Fifo.LeavingOverruns | include/nhope/seq/fifo.h:60-65 | a push that leaves the array is one that overruns |
| Fifo.OverrunExample | include/nhope/seq/fifo.h:60-65 | a push that replaces the oldest element |
| Base64.DecodeInverts | lib/utils/base64.cpp:16-39 | decode inverts the table and rejects every other character |
| Base64.RoundTrip | lib/utils/base64.cpp:41-144 | decoding an encoded sequence gives it back |
| Base64.EncodedShape | lib/utils/base64.cpp:99-144 | four characters for every three bytes begun, with the padding of section 4 of RFC 4648 |
| Base64.GroupIs | lib/utils/base64.cpp:99-144 | the 24 bits of a group are those of its four symbols, with one symbol more than there are bytes written out |
| Base64.Examples | lib/utils/base64.cpp:99-144 | examples of section 10 of RFC 4648 |
| Base64.AcceptsIff | lib/utils/base64.cpp:41-82 | a text is accepted if and only if its length is a multiple of four and all before the padding is in the alphabet |
| Base64.ToBase64 | lib/utils/base64.cpp:99-144 | the loop gives the encoding of RFC 4648, 24 bits at a time |
| Base64.FromBase64Impl | lib/utils/base64.cpp:41-82 | the loop gives the decoding, or the error of the first bad character |
| Base64.FromBase64 | lib/utils/base64.cpp:90-97 | with or without white space taken out |
| Base64.RemoveWhitespaces | lib/utils/string-utils.cpp:8-19 | every other character, in order |
| Base64.SpacesIgnored | lib/utils/base64.cpp:90-97 | space, tab, newline, vertical tab, form feed and carriage return put in anywhere change nothing when white space is skipped |
| Base64.OthersKept | lib/utils/string-utils.cpp:8-19 | any other character stays where it is |
| Base64.SpacedRoundTrip | lib/utils/base64.cpp:90-97 | whatever comes to an encoded text without its white space decodes to the bytes |
| Base64.EncodeAndDecode | lib/utils/base64.cpp:90-144 | toBase64 and then fromBase64, with the flag either way |

## Left out

- Contexts with children: the close properties are stated for a context that is the only member of its group, as its wait compares its own counter with a count per group and thread. Child contexts release early as close handlers on purpose.
- Callers of exec, addCloseHandler, removeCloseHandler and close are taken to hold a handle of the context, and each handler to be removed once at most.
- Termination of the spins: a close from inside the function started by startCancellableTask waits for its own block for ever. The close theorems are about safety.
- Weak memory orders, the yield in the spins, and exhaustion of the 32-bit and 24-bit counters beyond what ContextState states of it.
- The protocols of AOContextImpl and FutureState are step systems on values; their objects are not heap classes, save the word, the handler list and the promise.
- Future: wait, waitFor and get, and the checks that reject a second use of a moved-from future, are not modelled; the cancel token is one shared flag.
- StageOnContext.Allowed: a sequential executor takes the stage's closure up on no thread that is in work of the context, as StrandModel.OneAtATime shows of the strand.
- StageServed.ServedIff: the losing half is stated for a context in which only the closing thread is at work, as a thread stuck in user code can keep a close from ending; ServedOnceSure is stated for every state.
- Promises.Promise.Set: setValue of an unsatisfied promise that was assigned to itself goes to a null state, which the source does not guard; PromiseModel.UsableIff says when there is none.
- Scheduler::clear and the destruction of a scheduler, which move delayed tasks into the waiting list while finish callbacks run; the moment the futures of pause, resume and cancel are resolved.
- SchedulerModel: a pause of a running task ends in Paused or Stopped, a resume in Running or Stopped and a stop in Stopped, as ManageableTask.Settles proves of one controller; the task identifiers do not wrap.
- ManageableTask: what beforePause and afterPause do; a throw from them reaches the task function or ends the task, which the step of a finishing function covers.
- Readers.Reader: a device follows a script of short reads and failures; the buffer of a read is the bytes it returns, handlers run in turn, and reads do not overlap.
- MD5: the sine is known by its recurrence and first values; opening files is not modelled, and clearing the decoded block has no effect to state.
- Fifo.NextPowerOf2: what a Size above 2^30 comes to, which the int of the code does not hold.
- Fifo.Fifo.Push: what a copy that leaves the array does to memory beyond it; the fields are described, and how much strays.
- Base64: characters outside the basic Latin range in isspace, and reserved capacity.
- Sockets, serial ports, files, timers, thread executors, TSQueue, Chan, ConsumerList, DelayedProperty, StateObserver, WeakList, LockableValue, hex, BitSeqReader and HTML escaping: input and output, real time, or easy members.
