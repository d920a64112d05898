# Verified model of stdexec's run-time cores

stdexec is a C++ implementation of `std::execution`. Most of it is compile-time machinery; this project models
the parts that have run-time state worth proving something about, and proves what they are for.

Two kinds of code are modelled in two ways.

* Sequential code that relinks pointers or fills arrays is imperative here too: the timer heap, the callback
  list of the stop source, the trampoline, the Asio frame stack and the Sudoku search are classes, arrays and
  loops, proved against ghost sequences or against pure specifications.
* Concurrent protocols are state machines on values. In each such module `State` holds the shared memory and
  where every thread is, a `Label` is one step of one thread, `Enabled` and `Next` say what the step does, and
  a run is a sequence of states and labels from an `Init` state (`IsRun`). Each atomic access, lock operation
  and queue operation is one indivisible step, and atomics are sequentially consistent. `Inv` is kept by every
  step (`StepKeeps`), and the theorems speak about every state of every run.

## The components

| files | component |
|---|---|
| TimerKey, HeapPath, HeapShape, IntrusiveHeap | `intrusive_heap`: insertion steered by the bits of the size, removal of the front and of any node, the two sift loops with their deferred parent links |
| TimerLoop | the heap side of `timed_thread_context::run`: stamping, cancelling and expiring |
| TimedProtocol, TimedShutdown, TimedRuns, TimedProgress | the reference-count protocol between `timed_thread_schedule_at_op`, its stop callback and the run loop, the closing of the context, the signals sent and progress |
| StopCallbackList, StopProtocol, StopProgress | `inplace_stop_source`: the list with slot back links, and the locking, notification and deregistration protocol |
| EvenShare, BulkProtocol | parallel `bulk` on the static thread pool |
| Wakeup, PackedCounter | how its workers sleep, wake and count themselves |
| AtomicQueue | the lock-free queue that feeds it, and the reversal of what a pop has taken |
| FutureProtocol, FutureRuns, FutureSignals, ScopeWaiters | `async_scope`: ownership of the future state with its two stop callbacks, the signal a future sends, and the emptiness waiters |
| Trampoline, RepeatN | the trampoline scheduler and `repeat_n` on it |
| FrameSpec, AsioFrames | completion of an Asio operation under a stack of executor frames, with its stop callback |
| WhenAny | `when_any` |
| SudokuBoard, SudokuSearch | the Sudoku example: the set of valid completions, and the search that counts them |
| Sequences | removing an element from a sequence of distinct elements |

Where the code and what it is used for disagree, the model follows the code:

* The Sudoku search counts a full start board without checking it. `CreditIsExact` says for which boards the
  count is right (all but full ones with a conflict), and `FullConflictIsCounted` gives such a board.
* A timed operation may never complete if its command is pushed while the run loop shuts down. `LeftAtShutdown`
  says exactly which operations are left behind, and `ShutdownStrands` gives a run that leaves one.
* A stop request that comes after the start of a timed operation has raised its count, but whose command
  overtakes the schedule command in the queue, is lost: the timer runs on. `StopTakenExactly` says exactly when a
  stop command that has been taken prevents a value, and `StopIsLost` gives a run in which it does not.
* After the shutdown of the timed context a submission is refused exactly while fewer than 2^62 have come since
  (`RefusedExactly`): the reset of the counter that the code attempts does not take effect, so each adds one.
* A future that is connected and then dropped before its result is stored hands its state over before its own
  stop callback is deregistered. The state is used after its deletion exactly if that callback runs after the
  state has deleted itself (`UsedAfterDeletion`, `LateMeansDropped`); `DroppedThenStopped` is such a run.
* The packed worker count is right from the start if and only if there are fewer than 2^16 threads
  (`InitialWord`).
* An Asio operation is used again after its completion when something comes late: an exception that reaches a
  released frame, a frame entered afterwards, or a stop request whose emission completes the operation under
  its own lock guard. `CleanLife` gives the exact condition on what happens, and `ThrowAfterInvoke` and
  `EmissionInvokes` two cases of it.
* A child of `when_any` that completes inside its own stop callback may be the last one: it deregisters the outer
  stop callback from inside, without waiting, and completes the receiver, and then that callback goes on to lock
  the stop source in the operation. `UsedAfterCompletion` says that a started operation is used after its
  completion exactly in this way, `LateUseFollows` that it then always is, and `StoppedFromInside` is such a run.

## Model

| member | source | states |
|---|---|---|
| TimerKey.LessIsStrictTotalOrder | include/exec/timed_thread_scheduler.hpp:79-83 | deadlines compare as a strict total order, so two submissions never tie |
| HeapPath.PathStep | include/exec/detail/intrusive_heap.hpp:94-138 | following one bit of the path moves from a slot to the child that the bit names, and the last bit ends at the wanted slot |
| HeapPath.BitsLeadToSlot | include/exec/detail/intrusive_heap.hpp:67-70 | for every n >= 1 the bits of n below its top bit lead from the root to slot n |
| HeapShapes.HandRight | include/exec/detail/intrusive_heap.hpp:103-110 | a step of the replacing walk to the right: links of the taken slot are right, and the displaced node is next in hand |
| HeapShapes.HandLeft | include/exec/detail/intrusive_heap.hpp:111-121 | the same to the left, with or without a right child |
| HeapShapes.RootIsMin | include/exec/detail/intrusive_heap.hpp:172-175 | heap order puts the least key at the root |
| HeapShapes.OrderHandedOn | include/exec/detail/intrusive_heap.hpp:101-124 | handing a displaced node down one level keeps heap order along the path |
| HeapShapes.SiftDownOrder | include/exec/detail/intrusive_heap.hpp:294-338 | swapping a sinking node with its smaller child restores order everywhere but below its new slot |
| HeapShapes.RiseStepOrder | include/exec/detail/intrusive_heap.hpp:251-289 | swapping a rising node with its parent restores order everywhere but above its new slot |
| IntrusiveHeaps.Heap.constructor | include/exec/detail/intrusive_heap.hpp:227-229 | a new heap is empty and well formed |
| IntrusiveHeaps.Heap.Insert | include/exec/detail/intrusive_heap.hpp:85-148 | adds exactly the new node; complete shape, order, child and parent links hold again |
| IntrusiveHeaps.Heap.PushDown | include/exec/detail/intrusive_heap.hpp:101-128 | the inner loop hands every node on the path down one level and ends with a leaf whose right child is null |
| IntrusiveHeaps.Heap.FindLastLeaf | include/exec/detail/intrusive_heap.hpp:343-361 | walking the bits of the size reaches the last leaf and the pointer that holds it |
| IntrusiveHeaps.Heap.RemoveLastLeaf | include/exec/detail/intrusive_heap.hpp:343-361 | cuts off the last leaf and leaves a heap without it |
| IntrusiveHeaps.Heap.PopFront | include/exec/detail/intrusive_heap.hpp:150-170 | removes exactly the root, and an empty heap stays empty |
| IntrusiveHeaps.Heap.FrontIsLeast | include/exec/detail/intrusive_heap.hpp:172-175 | the front has a least key among all nodes |
| IntrusiveHeaps.Heap.Erase | include/exec/detail/intrusive_heap.hpp:177-225 | returns whether the node was in the heap; removes exactly it and clears its parent link, or changes nothing |
| IntrusiveHeaps.Heap.Substitute | include/exec/detail/intrusive_heap.hpp:193-224 | putting the last leaf in the place of another node and sifting it either way gives a heap of the same nodes but one |
| IntrusiveHeaps.Heap.CanClimb | include/exec/detail/intrusive_heap.hpp:274-285 | a node that is smaller than its parent is at least two levels below the root: the grandparent is not null |
| IntrusiveHeaps.Heap.SiftUp | include/exec/detail/intrusive_heap.hpp:251-289 | ends with a well-formed heap of the same nodes, all parent links told |
| IntrusiveHeaps.Heap.SiftDown | include/exec/detail/intrusive_heap.hpp:291-341 | ends with the node at rest, the nodes the same, and only the link from above left to the caller |
| IntrusiveHeaps.Heap.SwapWithRightChild | include/exec/detail/intrusive_heap.hpp:231-239 | the child takes the parent's children and the parent the child's |
| IntrusiveHeaps.Heap.SwapWithLeftChild | include/exec/detail/intrusive_heap.hpp:241-249 | the same for the other side |
| TimerLoop.Context.TakeSchedule | include/exec/timed_thread_scheduler.hpp:158-163 | the new timer gets a submission number above all queued ones and joins the heap |
| TimerLoop.Context.TakeStop | include/exec/timed_thread_scheduler.hpp:164-173 | a stop command removes its target if and only if the timer is pending |
| TimerLoop.Context.FireFront | include/exec/timed_thread_scheduler.hpp:177-182 | each expired task comes strictly after all before it in the batch |
| TimerLoop.Context.Expire | include/exec/timed_thread_scheduler.hpp:175-182 | a batch expires exactly the due tasks, in the order of deadline and then of submission |
| TimedProtocol.StepKeeps | include/exec/timed_thread_scheduler.hpp:152-239 | every step of every thread keeps the invariant that ties reference counts to outstanding commands |
| TimedProtocol.CompletedAtMostOnce | include/exec/timed_thread_scheduler.hpp:275-355 | no interleaving completes a receiver twice |
| TimedProtocol.CountIsOutstanding | include/exec/timed_thread_scheduler.hpp:314-355 | after a successful start the count equals the outstanding commands, and the operation is uncompleted if and only if there are some |
| TimedProtocol.CompletedByTheLastConsumer | include/exec/timed_thread_scheduler.hpp:277-311 | completion begins in exactly the step that consumes the last command |
| TimedProtocol.ValueMeansExpired | include/exec/timed_thread_scheduler.hpp:175-182 | a receiver gets a value only after its timer expired, and with no stop command outstanding |
| TimedRuns.SentExactly | include/exec/timed_thread_scheduler.hpp:175-182 | a receiver gets a value if and only if its timer has expired and the completion function called for that was its last outstanding command |
| TimedRuns.CompletionWaits | include/exec/timed_thread_scheduler.hpp:275-345 | a stop callback under way has returned by the completion, unless it completes the receiver itself |
| TimedRuns.StoppedHasReason | include/exec/timed_thread_scheduler.hpp:275-345 | a receiver is stopped only if stop was requested for it or the context has been closed |
| TimedRuns.StartsExactly | include/exec/timed_thread_scheduler.hpp:314-328 | the start submits the operation if and only if no stop request came before its exchange |
| TimedRuns.StopIsSent | include/exec/timed_thread_scheduler.hpp:347-355 | a stop request sends the stop command if and only if the operation has started and has a command outstanding |
| TimedRuns.StopTakenExactly | include/exec/timed_thread_scheduler.hpp:164-173 | once its stop command has been taken, a receiver gets a value if and only if the schedule command had not been taken before and the timer expires |
| TimedRuns.StopIsLost | include/exec/timed_thread_scheduler.hpp:314-355 | a run in which a stop request comes between the exchange of the start and the push of the schedule command, and a value is sent |
| TimedProgress.NeverStuck | include/exec/timed_thread_scheduler.hpp:152-355 | an operation that has been started and not completed can go on, or waits for the run loop, which can, unless its command was left behind |
| TimedProgress.CompletedInTheEnd | include/exec/timed_thread_scheduler.hpp:152-355 | where nothing can go on, every operation that was started has been completed exactly once or left behind |
| TimedProgress.ExitedInTheEnd | include/exec/timed_thread_scheduler.hpp:184-231 | where nothing can go on and stop was requested of the context, the run loop has exited |
| TimedProgress.ClosesOnlyIfAsked | include/exec/timed_thread_scheduler.hpp:184-196 | the run loop closes the context only after a stop request |
| TimedProgress.EveryStepCounts | include/exec/timed_thread_scheduler.hpp:152-355 | every step but a repeated stop request lowers a rank |
| TimedProgress.RunsAreShort | include/exec/timed_thread_scheduler.hpp:152-355 | so every run without such repetitions comes to its end |
| TimedProtocol.NeverUsedAfterCompletion | include/exec/timed_thread_scheduler.hpp:152-239 | no step reads or writes an operation that has been completed |
| TimedProtocol.LeftAtExit | include/exec/timed_thread_scheduler.hpp:187-207 | after the run loop has exited, an operation that holds no command is uncompleted if and only if one of its commands is still queued |
| TimedProtocol.ShutdownStrands | include/exec/timed_thread_scheduler.hpp:154-207 | a run in which shutdown leaves a started operation uncompleted |
| TimedShutdown.RunsCount | include/exec/timed_thread_scheduler.hpp:212-239 | while open the counter is the number of submissions in flight; once closed it is the closed value plus the number of late submissions, as long as those are at most 2^62 |
| TimedShutdown.ClosedForGood | include/exec/timed_thread_scheduler.hpp:187-231 | once closed, the context stays closed and nothing is pushed any more, through up to 2^62 late submissions |
| TimedShutdown.RefusedExactly | include/exec/timed_thread_scheduler.hpp:212-231 | a submission is refused if and only if the context has been closed and fewer than 2^62 have come since |
| TimedShutdown.LeftAtShutdown | include/exec/timed_thread_scheduler.hpp:187-207 | after the exit an operation that holds no command is uncompleted if and only if one of its commands was in the queue at the step that closed the context |
| StopCallbackList.CallbackList.Add | include/stdexec/stop_token.hpp:358-364 | the new callback becomes the head; forward links and back links are right |
| StopCallbackList.CallbackList.PopFront | include/stdexec/stop_token.hpp:263-267 | takes the head and clears its back link; the rest is well linked |
| StopCallbackList.CallbackList.Remove | include/stdexec/stop_token.hpp:371-386 | the back link is set if and only if the callback is in the list, and then exactly that callback leaves it |
| StopProtocol.StepKeeps | include/stdexec/stop_token.hpp:253-412 | every step of every thread keeps the invariant about the lock word, the list, each callback and the notifier |
| StopProtocol.ExecutedAtMostOnce | include/stdexec/stop_token.hpp:260-282 | no callback runs twice, from the list or inline |
| StopProtocol.MutualExclusion | include/stdexec/stop_token.hpp:289-348 | the lock bit excludes all other critical sections, including the notifier's |
| StopProtocol.UnlockKeeps | include/stdexec/stop_token.hpp:309-312 | storing back the word read at locking never changes the stop flag |
| StopProtocol.StopStays | include/stdexec/stop_token.hpp:253-348 | the stop flag never clears and the notifying thread never changes |
| StopProtocol.OneRequestRunsCallbacks | include/stdexec/stop_token.hpp:253-258 | at most one request wins the right to run callbacks |
| StopProtocol.UnlinkedNeverRuns | include/stdexec/stop_token.hpp:376-386 | a removal that unlinks the callback means that it never runs |
| StopProtocol.ForeignRemovalWaits | include/stdexec/stop_token.hpp:401-410 | a removal on another thread returns only when the callback has run to its end or never will |
| StopProtocol.InsideRemovalDoesNotWait | include/stdexec/stop_token.hpp:394-400 | a removal on the notifying thread never waits |
| StopProtocol.NeverTouchedAfterRemoval | include/stdexec/stop_token.hpp:271-282 | the source touches no callback whose removal has returned, nor one not yet constructed |
| StopProtocol.RanInReverseOrder | include/stdexec/stop_token.hpp:260-287 | when the request is done, every callback registered has run once or was unlinked before, last registered first |
| StopProgress.StartedIsUnderway | include/stdexec/stop_token.hpp:253-412 | a registration, removal or request that is started is then under way |
| StopProgress.DiscardedIsDead | include/stdexec/stop_token.hpp:371-412 | the destruction of a callback that was refused is over at once |
| StopProgress.NeverStuck | include/stdexec/stop_token.hpp:253-412 | while a registration, a removal, an inline call, a request or the notification is under way, some step other than the start of something new can be taken |
| StopProgress.QuietInTheEnd | include/stdexec/stop_token.hpp:253-412 | where no such step is left, everything has returned |
| StopProgress.OperationCounts | include/stdexec/stop_token.hpp:339-412 | a registration or removal has at most five steps of its own |
| StopProgress.NotificationCounts | include/stdexec/stop_token.hpp:260-287 | the notification lowers a rank in each of its steps and nothing else raises it, so it comes to its end |
| StopProgress.StopExactly | include/stdexec/stop_token.hpp:253-258 | stop has been requested exactly if somebody has asked for it |
| StopProgress.RefusedExactly | include/stdexec/stop_token.hpp:349-369 | a registration is refused if and only if stop was requested before |
| StopProgress.RegisteredMeans | include/stdexec/stop_token.hpp:349-369 | a callback whose registration has returned is in the list, or has been taken by the notifier, or was refused and has run exactly once |
| EvenShare.SharesAreAdjacent | include/exec/static_thread_pool.hpp:89-105 | the shares follow one another from 0 to n without gap or overlap |
| EvenShare.SharesAreEven | include/exec/static_thread_pool.hpp:89-105 | any two shares differ by at most one item |
| EvenShare.SharesPartition | include/exec/static_thread_pool.hpp:89-105 | every item below n lies in the share of exactly one rank |
| BulkProtocol.StepKeeps | include/exec/static_thread_pool.hpp:1349-1415 | every step of enqueuer and workers keeps the invariant |
| BulkProtocol.EnqueueStep | include/exec/static_thread_pool.hpp:933-942 | there are no more agents than workers, so task i goes alone to remote queue i |
| BulkProtocol.TaskRunsItsOwnShare | include/exec/static_thread_pool.hpp:994-1034 | however tasks are stolen, task i runs with index i and calls the function for share i at most once |
| BulkProtocol.CompletedAtMostOnce | include/exec/static_thread_pool.hpp:1388-1403 | the number of completions is one if a signal has been sent and zero otherwise |
| BulkProtocol.CompletedAfterAllShares | include/exec/static_thread_pool.hpp:1363-1403 | if the values were stored and there are items, completion comes after every share has been called once, with an error if and only if some call threw, and else a value |
| BulkProtocol.EachItemOnce | include/exec/static_thread_pool.hpp:1354-1361 | by then, under the same condition, every item of the shape has been covered by exactly one call |
| BulkProtocol.CompletedWithoutTasks | include/exec/static_thread_pool.hpp:1489-1533 | otherwise the first step completes the receiver, without any call: with the predecessor's error or stopped signal, with an error if the values could not be stored, with a value if there are no items |
| BulkProtocol.NothingHappensAfterwards | include/exec/static_thread_pool.hpp:1388-1403 | after the completion no task uses the operation: there is no step left |
| BulkProtocol.NeverStuck | include/exec/static_thread_pool.hpp:933-946 | before the completion some step can be taken |
| BulkProtocol.EveryStepCounts | include/exec/static_thread_pool.hpp:1349-1415 | every step lowers a rank |
| BulkProtocol.CompletedExactlyOnce | include/exec/static_thread_pool.hpp:1349-1415 | every run is finite, and where no step can be taken any more the receiver has been completed exactly once |
| Wakeup.StepKeeps | include/exec/static_thread_pool.hpp:1116-1193 | every step of a worker and of those who notify it keeps the invariant |
| Wakeup.NoLostWakeUp | include/exec/static_thread_pool.hpp:1147-1182 | while a worker is blocked beside a task in a remote queue, either it is marked asleep and a thread that pushed to that queue has yet to mark it notified, or it is marked notified and a thread that found it asleep has the notification to deliver |
| Wakeup.NoLostStop | include/exec/static_thread_pool.hpp:1186-1193 | while a worker is blocked with stop requested, the requester has its notification to deliver |
| Wakeup.WakeUpIsDelivered | include/exec/static_thread_pool.hpp:1173-1184 | each step from the push to the waking of the blocked worker is open, or waits only for a holder of the mutex that can give it back |
| Wakeup.StopIsDelivered | include/exec/static_thread_pool.hpp:1186-1193 | a request of stop is delivered to a blocked worker without its help, and wakes it |
| Wakeup.StopExactly | include/exec/static_thread_pool.hpp:1186-1193 | stop is recorded if and only if some request has recorded it |
| Wakeup.LeavesExactly | include/exec/static_thread_pool.hpp:1143-1149 | a worker leaves if and only if it finds a stop request recorded |
| Wakeup.QueuesHoldUnseen | include/exec/static_thread_pool.hpp:920-942 | a remote queue holds exactly the tasks pushed to it since the worker has last looked, the latest first |
| Wakeup.Looks | include/exec/static_thread_pool.hpp:994-1019 | between its rounds a worker may look at each of its queues, and takes all that is in it |
| Wakeup.GoesToSleep | include/exec/static_thread_pool.hpp:1143-1160 | a worker that nobody has notified looks at all its queues and, with nothing to do, blocks without its mutex |
| Wakeup.StaysAwake | include/exec/static_thread_pool.hpp:1150-1168 | a worker that has been notified does not block, and resets its word |
| Wakeup.WokenGoesOn | include/exec/static_thread_pool.hpp:1157-1168 | a woken worker needs only its mutex to go back to its queues with its word reset |
| PackedCounter.InitialWord | include/exec/static_thread_pool.hpp:776-776 | the initial word decodes to all workers active if and only if there are fewer than 2^16 |
| PackedCounter.StepKeeps | include/exec/static_thread_pool.hpp:1062-1096 | each wrapping mixed-half addition keeps the word equal to the two packed counts |
| PackedCounter.WordDecodes | include/exec/static_thread_pool.hpp:1085-1096 | in every reachable state the halves are the numbers of active workers and of thieves |
| PackedCounter.NotifiesWhenNeeded | include/exec/static_thread_pool.hpp:1068-1096 | a waking worker notifies exactly when all slept; a leaving thief exactly when it is the last and some are active |
| AtomicQueue.StepKeeps | include/exec/detail/atomic_intrusive_queue.hpp:55-101 | every step keeps the chain from the head linked, the nodes in one place each, and the order of arrival |
| AtomicQueue.DeliveredInOrder | include/exec/detail/atomic_intrusive_queue.hpp:55-101 | what reversed pops have taken is a prefix of the batches whose exchange took effect, in that order, and all of them when the queue is empty |
| AtomicQueue.PushAdds | include/exec/detail/atomic_intrusive_queue.hpp:55-79 | a push whose exchange finds the head it read puts its batch in front of what is reached from the head |
| AtomicQueue.MayBegin | include/exec/detail/atomic_intrusive_queue.hpp:55-101 | an idle thread may begin a pop, and a push of free nodes that are linked |
| AtomicQueue.AlonePushes | include/exec/detail/atomic_intrusive_queue.hpp:55-79 | a thread that has just read the head, also in a failed exchange, gets through if nobody interferes |
| AtomicQueue.AlonePops | include/exec/detail/atomic_intrusive_queue.hpp:91-101 | the same for a pop, which empties the queue |
| AtomicQueue.PopTakesAll | include/exec/detail/atomic_intrusive_queue.hpp:81-101 | a pop takes the whole list behind the pointer it read, even if the head changed away and back |
| AtomicQueue.WalkGoesOn | include/stdexec/__detail/__intrusive_queue.hpp:62-72 | however other threads push meanwhile, the reversing walk meets the nodes taken, moves one in each step, and can go on to its end |
| AtomicQueue.ReturnedInOrder | include/stdexec/__detail/__intrusive_queue.hpp:62-78 | the queue that a pop returns links, from its head to its tail, what it took in the order of arrival, and the nodes may be pushed again |
| AtomicQueue.ChainPrepend | include/exec/detail/atomic_intrusive_queue.hpp:66-79 | a linked batch whose tail points to the head extends the list by the batch |
| AtomicQueue.NodesHaveOnePlace | include/exec/detail/atomic_intrusive_queue.hpp:55-101 | a node being pushed or being reversed after a pop is held by no other thread and is not in the list |
| FutureProtocol.StepKeeps | include/exec/async_scope.hpp:282-710 | every step of the operation, of the consumer and of the two stop callbacks keeps the invariant |
| FutureRuns.NeverBroken | include/exec/async_scope.hpp:504-528 | every step assertion holds and the invalid-state branches are unreachable |
| FutureRuns.StepsInOrder | include/exec/async_scope.hpp:317-353 | what each step assertion and the check of a completion find: the state in the step they expect, and the result stored |
| FutureRuns.DeletedOnceAfterCompletion | include/exec/async_scope.hpp:545-565 | the state is deleted at most once, and not before its started operation has completed |
| FutureRuns.DeletedInPeace | include/exec/async_scope.hpp:504-531 | at its deletion its mutex is free and its own stop callback is not running |
| FutureRuns.UsedAfterDeletion | include/exec/async_scope.hpp:282-396 | a step uses the state after its deletion if and only if it is the one of the connected operation's stop callback and comes after the state has deleted itself |
| FutureRuns.LateMeansDropped | include/exec/async_scope.hpp:379-396 | that callback belongs to an operation that was connected and dropped before the result was stored |
| FutureRuns.DroppedThenStopped | include/exec/async_scope.hpp:361-396 | a run that uses the deleted state: connected, dropped, completed, and then the receiver's token is stopped |
| FutureRuns.NotUsedAfterDeletion | include/exec/async_scope.hpp:379-396 | a step uses no deleted state unless it is the one of a stop callback that runs while its dropped operation is being destroyed |
| FutureRuns.CompletedAtMostOnce | include/exec/async_scope.hpp:310-353 | a started future is completed at most once, and no other one is |
| FutureRuns.InTheEnd | include/exec/async_scope.hpp:379-420 | when both sides are through, the state has been deleted and a started future completed |
| FutureRuns.NeverStuck | include/exec/async_scope.hpp:310-710 | until then some step can be taken |
| FutureRuns.EveryStepCounts | include/exec/async_scope.hpp:310-710 | every step lowers a rank |
| FutureRuns.TheEndIsReached | include/exec/async_scope.hpp:310-710 | no run has more than 37 steps, and where neither thread can go on the state has been deleted once and a started future completed once |
| FutureSignals.ForwardsOnlyIfAsked | include/exec/async_scope.hpp:282-290 | a stop request is forwarded only after the token of the receiver has been stopped |
| FutureSignals.ForwardEnds | include/exec/async_scope.hpp:310-396 | the connected operation's stop callback, once entered, is over before it is deregistered |
| FutureSignals.ScopeEnds | include/exec/async_scope.hpp:504-565 | so is the stop callback of the state |
| FutureSignals.SentExactly | include/exec/async_scope.hpp:310-353 | the receiver of a started future is stopped if its token was stopped by the time the completion looks, and otherwise gets the result that the operation has stored |
| ScopeWaiters.StepKeeps | include/exec/async_scope.hpp:84-175 | every step keeps the invariant about lock, count and waiter list |
| ScopeWaiters.WaitersImplyActive | include/exec/async_scope.hpp:84-175 | whenever the lock is free, a non-empty waiter list implies a positive count |
| ScopeWaiters.InnerStartedAtMostOnce | include/exec/async_scope.hpp:84-108 | an inner operation is started at most once |
| ScopeWaiters.StartedWhenEmpty | include/exec/async_scope.hpp:84-108 | it is started only after its own look at a zero count, or after the count fell to zero while it waited |
| ScopeWaiters.NoneLeftBehind | include/exec/async_scope.hpp:158-175 | once the count is zero and the last completer is through, no started waiter is left |
| ScopeWaiters.NeverStuck | include/exec/async_scope.hpp:84-175 | while an inner operation has yet to be started for a waiter, some step can be taken |
| ScopeWaiters.StartedInTheEnd | include/exec/async_scope.hpp:84-175 | when all nested operations have completed and nothing can go on, each inner operation has been started exactly once |
| Trampoline.Frame.Defer | include/exec/trampoline_scheduler.hpp:166-181 | an operation beyond the limits joins the end of the doubly linked list |
| Trampoline.Frame.Resume | include/exec/trampoline_scheduler.hpp:285-312 | the first deferred operation leaves the list, unlinked, and the depth restarts at one |
| Trampoline.Frame.TryInline | include/exec/trampoline_scheduler.hpp:155-164 | a nested operation is executed at once if and only if the stack is small and the depth below its limit, and then counts |
| Trampoline.Frame.Start | include/exec/trampoline_scheduler.hpp:151-182 | a nested start runs the operation at once if and only if the limits allow it, and otherwise puts it last in the list; nothing is lost and the nesting stays within the depth |
| Trampoline.Frame.Execute | include/exec/trampoline_scheduler.hpp:135-138 | executing an operation accounts for it and for everything it starts |
| Trampoline.Frame.Drain | include/exec/trampoline_scheduler.hpp:283-316 | runs until the list is empty, resuming in the order of deferral |
| Trampoline.StartOrigin | include/exec/trampoline_scheduler.hpp:140-150 | every operation of any tree is executed exactly once, deferred ones first in first out, nested no deeper than max(1, depth); a chain is executed in its order |
| RepeatN.CountDownAt | include/exec/repeat_n.hpp:161-182 | the k-th repetition to begin finds the counter at the count minus k |
| RepeatN.Operation.Execute | include/exec/repeat_n.hpp:71-98 | run by the trampoline, the child is started, and completes at once or is left pending: a value goes on to the next repetition, an error or a stop ends everything |
| RepeatN.Operation.Repeat | include/exec/repeat_n.hpp:161-182 | inside the execution the counter drops by one; zero completes the receiver and anything else starts the next repetition, inline or deferred |
| RepeatN.Operation.StartAfresh | include/exec/repeat_n.hpp:136-182 | on a thread without a frame the trampoline is drained: at the end a child is pending or everything is over, and the nesting has stayed within the default depth |
| RepeatN.Operation.Start | include/exec/repeat_n.hpp:136-146 | a count of zero completes at once, and any other begins the first repetition |
| RepeatN.Operation.CompleteLater | include/exec/repeat_n.hpp:71-98 | a pending child completes after its execution has returned: a value begins the next repetition afresh, an error or a stop ends everything |
| RepeatN.Operation.Run | include/exec/repeat_n.hpp:136-182 | however children complete, at once or later, the receiver gets one signal, that of the last child run: the first that does not succeed, or the one that is number count; the repetitions begin in order |
| FrameSpec.OneSignalPerLife | include/exec/asio/completion_token.hpp:186-336 | for any nesting and any point of invocation, drop, stop request or exception: one signal once the handler is consumed, none before |
| FrameSpec.SentBySignals | include/exec/asio/completion_token.hpp:186-404 | what a life sends is read off its scripts: a value for an invocation unless its conversion throws or an exception reached a frame before, stopped for a dropped handler unless an exception reached a frame before the frames around it were left, and else an error |
| FrameSpec.PlainLives | include/exec/asio/completion_token.hpp:292-336 | a plain call sends a value, a call whose arguments cannot be converted an error, no call stopped, and an exception before either an error |
| FrameSpec.StartIs | include/exec/asio/completion_token.hpp:372-404 | `start()` uses no completed operation if and only if nothing in it is late; the handler is still held if and only if neither initiation nor emission uses it, and then the stop callback is installed |
| FrameSpec.CleanLife | include/exec/asio/completion_token.hpp:186-404 | over a whole life the operation is used after its completion if and only if something comes late: an exception or a frame after the use of the handler, or a completion inside an emission |
| FrameSpec.ThrowAfterInvoke | include/exec/asio/completion_token.hpp:372-404 | an exception that escapes the initiation after it has invoked the handler reaches a released operation |
| FrameSpec.EmissionInvokes | include/exec/asio/completion_token.hpp:260-269 | a stop request whose emission invokes the handler unlocks the mutex of a completed operation |
| AsioFrames.Operation.Enter | include/exec/asio/completion_token.hpp:186-192 | a new frame takes the lock and becomes the innermost |
| AsioFrames.Operation.Leave | include/exec/asio/completion_token.hpp:196-218 | a released frame does nothing; the last one of an abandoned operation completes it with no frame holding the lock |
| AsioFrames.Operation.Release | include/exec/asio/completion_token.hpp:225-238 | all frames are unlocked and unlinked, from the innermost outwards |
| AsioFrames.Operation.InvokeHandler | include/exec/asio/completion_token.hpp:305-336 | releases all frames, then sends one signal: the recorded exception, a conversion error or the value |
| AsioFrames.Operation.DropHandler | include/exec/asio/completion_token.hpp:292-302 | completes at once without frames, and leaves it to the last frame otherwise |
| AsioFrames.Operation.Run | include/exec/asio/completion_token.hpp:242-258 | the linked frames do what the specification of a frame says |
| AsioFrames.Operation.RunScript | include/exec/asio/completion_token.hpp:242-336 | the same for anything that may happen inside a frame, at any depth |
| AsioFrames.Operation.RequestStop | include/exec/asio/completion_token.hpp:260-269 | the stop callback emits the signal under a lock guard of its own, which outlives a completion inside the emission |
| AsioFrames.Operation.Start | include/exec/asio/completion_token.hpp:372-404 | the initiation runs in the first frame; only while that frame is still there is the stop callback constructed, which emits at once if stop was requested before |
| AsioFrames.Live | include/exec/asio/completion_token.hpp:186-404 | over its whole life the linked frames send what the scripts say |
| WhenAny.StepKeeps | include/exec/when_any.hpp:101-215 | every step of start, children and the outer stop callback keeps the invariant about count, winner, callback and completion |
| WhenAny.CompletedOnceAfterAll | include/exec/when_any.hpp:130-215 | the receiver is completed at most once: after every child has notified, or by a refusal to start, which sends stopped, follows a stop request and starts no child |
| WhenAny.FirstResultWins | include/exec/when_any.hpp:101-143 | what is forwarded is the result of the child whose notification came first, or stopped if the outer token was stopped |
| WhenAny.OthersAreStopped | include/exec/when_any.hpp:101-128 | once the first child to notify is past storing its result and requesting stop, and in any case by the completion, the children have been told to stop |
| WhenAny.OuterStopIsForwarded | include/exec/when_any.hpp:203-215 | a request of the outer token has reached the children, or the callback that tells them can run, or all of them have notified |
| WhenAny.StoppedExactly | include/exec/when_any.hpp:101-215 | the children are told to stop if and only if the winner, the outer callback, or a start after an outer request has done so |
| WhenAny.RefusedExactly | include/exec/when_any.hpp:203-215 | the start is refused if and only if stop was requested before it or the outer callback has run before its check |
| WhenAny.RunsCallbacksExactly | include/stdexec/stop_token.hpp:253-287 | the outer callback runs the stop callbacks of the children if and only if nobody has asked them to stop before |
| WhenAny.StoppedBeforeStart | include/exec/when_any.hpp:203-215 | if stop was requested before the start, no child is ever started and the check refuses |
| WhenAny.UsedAfterCompletion | include/exec/when_any.hpp:130-143 | after its completion a started operation is used by a step if and only if that is the outer stop callback's, still in its request, and the last child has deregistered the callback from inside it |
| WhenAny.CompletionWaits | include/exec/when_any.hpp:130-143 | an outer stop callback that has begun to run the children's callbacks is over by the completion, unless it was deregistered from inside |
| WhenAny.LateUseFollows | include/stdexec/stop_token.hpp:253-287 | after such a deregistration the use comes in every run that goes on until only the outer token has a step |
| WhenAny.StoppedFromInside | include/exec/when_any.hpp:101-143 | a run that uses a completed operation: the only child completes inside its stop callback |
| WhenAny.NothingHappensAfterwards | include/exec/when_any.hpp:130-143 | if no child has deregistered the callback from inside it, no step uses a started operation after its completion |
| WhenAny.NeverStuck | include/exec/when_any.hpp:101-215 | some step of the start, of a child or of the callback under way can be taken until the receiver is completed |
| WhenAny.EveryStepCounts | include/exec/when_any.hpp:101-215 | every step lowers a rank |
| WhenAny.CompletedExactlyOnce | include/exec/when_any.hpp:101-215 | every run is finite, and where start, children and a callback under way cannot go on the receiver has been completed exactly once |
| SudokuBoard.CompletionsAre | examples/sudoku.cpp:157-181 | the enumerated set holds exactly the valid boards that extend the given one |
| SudokuBoard.ConflictMeansNone | examples/sudoku.cpp:201-215 | a board with a conflict has no valid completion |
| SudokuBoard.OnlyPotentials | examples/sudoku.cpp:183-199 | in a completion an empty cell holds a digit that no peer has |
| SudokuBoard.ForcedCell | examples/sudoku.cpp:217-286 | filling in what every completion has there keeps the set of completions |
| SudokuBoard.BranchingSplits | examples/sudoku.cpp:328-349 | branching on any one empty cell splits the completions among the nine boards |
| SudokuSearch.InRow | examples/sudoku.cpp:157-163 | whether another cell of the row holds the digit |
| SudokuSearch.InCol | examples/sudoku.cpp:165-171 | whether another cell of the column holds it |
| SudokuSearch.InBlock | examples/sudoku.cpp:173-181 | whether another cell of the block holds it |
| SudokuSearch.ScansFindPeers | examples/sudoku.cpp:157-181 | the three scans together look at exactly the peers of a cell |
| SudokuSearch.AddedBit | examples/sudoku.cpp:195-196 | setting the bit of a digit adds exactly that digit to the mask |
| SudokuSearch.CalculatePotentials | examples/sudoku.cpp:183-199 | every mask holds exactly the digits no peer has, and no cell changes |
| SudokuSearch.FixedBoard | examples/sudoku.cpp:149-155 | whether no cell is empty |
| SudokuSearch.ValidBoard | examples/sudoku.cpp:201-215 | whether no two peers hold the same digit |
| SudokuSearch.ExaminePotentials | examples/sudoku.cpp:217-289 | failure means that there is no completion; success keeps the set of completions and leaves a valid board, and progress means that a cell was filled |
| SudokuSearch.NextEmpty | examples/sudoku.cpp:330-333 | the branching index stops at an empty cell of the board |
| SudokuSearch.Branch | examples/sudoku.cpp:334-346 | a digit is spawned exactly when it can have completions, and the spawned board is counted right |
| SudokuSearch.Search.SpawnBranches | examples/sudoku.cpp:334-350 | the spawned tasks account for exactly the completions of the board, with less work left |
| SudokuSearch.Search.PartialSolve | examples/sudoku.cpp:297-351 | one task keeps the solutions found plus the completions of all pending boards, and lowers the work left |
| SudokuSearch.Search.Run | examples/sudoku.cpp:353-368 | in any order of tasks the search ends, with the count that was accounted for at the start |
| SudokuSearch.CreditIsExact | examples/sudoku.cpp:308-319 | the count of a board is its number of valid completions if and only if it is not a full board with a conflict |
| SudokuSearch.FullConflictIsCounted | examples/sudoku.cpp:308-319 | a full board with a conflict that is counted as a solution |
| SudokuSearch.Solve | examples/sudoku.cpp:370-395 | the search returns the number of valid completions of every start board but a full one with a conflict |

## Left out

- Weak memory orders: every atomic access is one step of a sequentially consistent memory.
- Update in place in the concurrent components: their state machines are on values, so aliasing of the shared objects is only modelled where a step names what it touches.
- Machine widths of sizes and counts: `size_t`, the reference counts and the solution counter are unbounded; the packed counter, the potential masks and the closed-context constant have their real widths.
- RepeatN.Operation.Run: a pending child completes after the execution that started it has returned, on a thread without a trampoline frame; one that completes inside the frame of other work, and the re-emplaced child operation, are not modelled.
- TimedShutdown.ClosedForGood: speaks of up to 2^62 late submissions; what follows the first one that is not refused is not modelled.
- TimedProtocol.StepKeeps: the run loop may take its steps in any order while it runs, a superset of the order the code fixes, without the wait for the deadline and its two-second default.
- Wakeup.NoLostWakeUp: follows a task until the worker has taken it out of its remote queue; the worker's pending and local queues are not part of the model.
- WhenAny.StepKeeps: the winner's own request of stop is one step; all its accesses come before the winner's subtraction, so before any completion.
- StopProtocol.OneRequestRunsCallbacks: says which call runs the callbacks and nothing about the value returned by `request_stop`.
- Trampoline.StartOrigin: the stack-size test may come out either way, so the size limit itself is not modelled; nor are operations stopped before they execute.
- FutureProtocol.StepKeeps: exceptions thrown by locking the mutex are not modelled; an exception thrown in storing a result is a result like any other. A forwarded stop request reaches nobody, since the spawned operation listens to the token of the scope (include/exec/async_scope.hpp:500-501).
- AsioFrames.Operation.Start: a stop request may be noticed more than once, a superset of what the token allows; an exception that escapes an emission, which terminates the program, only ends the emission.
- Liveness under a scheduler: the `NeverStuck` and rank lemmas show that runs cannot get stuck and are finite where stated; for the wake-up handshake and the atomic queue it is only stated which steps are open.
- The locking and condition variable of the timed context's own wait, and the queues it uses: the command queue is a first-in first-out sequence, the pool's local queues are bags.
- Nested execution of the pool's tasks, local pushes by pool threads, NUMA placement and `schedule_all`.
- The `find_one` and race statistics of the Sudoku example, its printing and timing, and its debug assertion on cells that are not singletons.
- Everything that exists at compile time only: completion signatures, environments, domains, concepts and the adaptors made of them.
- Coroutine support, the other thread pools, networking and all other I/O.
