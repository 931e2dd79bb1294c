# Queues, a shell line, a relay and HTTP messages

A Dafny model of the parts of this repository that have real state: the worker pool of the
scheduler, three bounded buffers, the line pipeline of `mojbash`, the `select` loop of the relay and
the message handling of the HTTP server. `dafny verify dfyconfig.toml` checks all of it.

## How it is modelled

**Threads.** `ThreadPool`, `BoundedBuffer`, `HandOff` and `StoppableBuffer` are step relations: a
state holds the shared variables and the program counter of every thread, an `Action` is one atomic
region of one thread, `Enabled` says when it may happen, `Do` what it does, and `Reaches(.., acts, ..)`
is a run. Results hold for any number of threads, any capacity, any number of items and every
interleaving. Mutexes and condition variables behave as in section 33.5.3 of ISO C++17: `notify_one`
wakes one sleeper chosen by the action, a notify without a sleeper is lost, a sleeper may wake
spuriously at any time. A state is *quiescent* when nothing but a spurious wake-up (and, where said,
a call from outside) can happen. Flags stored without the mutex (`stop_`, `done`) are separate steps,
so a thread can find its predicate false, have the flag set behind its back, and block all the same.

Beside each step relation stands a class with the program's own variables, one method for each atomic
region in the shape of the code. Its `View()` is the state, and each method is proved to be the step
of that name, so that what is proved about all runs holds of the object. `Pool.WorkerPool` keeps its
queue in `TaskHeap.TaskQueue`, an array heap; the step relation only knows a multiset and that some
first task is taken. Each class has a method for every action, `Perform`, and `RunSchedule`, which runs
the object under any schedule: its final state is the one the step relation reaches, and the results
about runs are among its postconditions.

**Memory.** `Scanner`, `Redirection` and `Echo` work in place on `array`s: a line is characters with a
NUL, tokens are an array of addresses into it with `NULL` at the end. The specification is on values
(`Tokens.Tokenized`, `Redirection.Parse`).

**The world outside** enters as parameters that may take any value: what `select`, `accept`, `read`,
`open` and `write` answer (`Relay.Answers`, `HttpRequest.Read`, `chunks`), how far `malloc` can go
(`memory`), the clock (`Tick`, `WakeAt`), the iteration order of an unordered map (`order`). In the relay each
descriptor carries a ghost connection number, so reuse of a descriptor is visible.

## Where the code does not do what it is written for

- **`producer_finished`** (threads/multiple_cons_work.cpp:16) is loaded but never stored, although a message in the
  code speaks of consumers that detect the end. No consumer ever returns
  (`BoundedBuffer.ReachableInv`); every run ends with the consumers asleep on an empty buffer. Since
  `main` also puts the consumer threads into the vector `producers` (line 88), its first join loop
  waits for them for ever.
- **`stop_`** (scheduler/src/threadpool.cpp:38) is stored outside the mutex, so `~ThreadPool` may hang:
  `ThreadPool.ShutdownCanHang` is a run that does. `ThreadPool.ShutdownCanHangFromStopIff` gives the exact
  condition at the call, for every shutdown and whatever calls are under way: some run comes to rest with
  the destructor still waiting if and only if, as `stop_` is stored, a worker stands between a false
  predicate and blocking and no call of `enqueue` is waiting for the mutex. The same condition is exact at
  `notify_all` (`ThreadPool.ShutdownCanHangIff`), and `ThreadPool.ShutdownCompletesIff` decides every single run.
  "At rest" leaves spurious wake-ups aside; one of those can end a hang.
- **`done`** (threads/elements.cpp:69) is stored outside the mutex as well, so `main` may wait for ever:
  `Stopping.StopCanHang` shows it for any number of producers and any consumers.
  `Stopping.StopCanHangFromStoreIff` is exact: some run comes to rest with a thread not returned if and only if,
  as `done` is stored, a consumer stands between an unset `done` and blocking with no element in any
  producer's hand, or a producer does with no consumer that sleeps or wants the mutex. Every run after that
  ends (`Stopping.StopEnds`); where the condition does not hold, all threads return.
- **A task enqueued after `stop_` is set** may stay in the queue for good: `ThreadPool.LateTaskStranded` is a
  run to its very end. `ThreadPool.NoTaskStranded` is exact, for every run and any number of workers: at rest
  the queue holds as many tasks as were pushed when every worker had returned, so nothing is stranded if and
  only if no push found all workers gone.
- **`consumer` in threads/elements.cpp** moves `buffer.back()` but pops the front. An `Element` is empty,
  so only counts can be observed, and those are what is modelled.
- **A header name that holds a colon followed by a blank, or a line break in a text, name or value**, is
  not read back: `HttpResponse.ReadsBackIff` is exact, for every message. A colon without a blank
  after it does no harm, as the reader splits at colon and blank; RFC 9112, section 5, allows neither.

## Model

| member | source | states |
|---|---|---|
| BoundedBuffer.ReachableInv | threads/multiple_cons_work.cpp:20-71 | In every reachable state: the buffer is within capacity; pushed = consumed followed by buffer (FIFO); granted tickets are exactly 0, 1, 2, ... below `total`; the counter is grants plus pending undos, and an undo is pending only when all is granted; a sleeping consumer (producer) leaves no more items (free slots) than threads on their way to them; no consumer ever returns |
| BoundedBuffer.NoLostWakeup | threads/multiple_cons_work.cpp:20-71 | When nothing can move any more: every producer has finished, all consumers sleep, the buffer is empty, exactly the items 0 .. min(total, offered)-1 were consumed, each once; a producer was cut short if and only if more was offered than `total` |
| BoundedBuffer.NoOverrun | threads/multiple_cons_work.cpp:20-31 | When the quotas do not exceed `total`, the add-then-undo branch is unreachable and the counter is the number of tickets granted |
| BoundedBuffer.OfferedByQuotas | threads/multiple_cons_work.cpp:21-23 | The two quotas of the code add up to `total`, also when it is odd; one producer alone offers the larger half, each further one the smaller |
| BoundedBuffer.StepTickets | threads/multiple_cons_work.cpp:26-31 | Every step of any thread keeps the ticket invariant |
| BoundedBuffer.StepTicketAt | threads/multiple_cons_work.cpp:26-41 | Every step keeps: a ticket is in some producer's hand or pushed as often as it was granted |
| BoundedBuffer.StepFifo | threads/multiple_cons_work.cpp:37-63 | Every step keeps pushed = consumed followed by buffer |
| BoundedBuffer.StepWake | threads/multiple_cons_work.cpp:33-68 | Every step keeps both wake-up invariants, lost notifies and spurious wake-ups included |
| BoundedBuffer.QuiescentThreads | threads/multiple_cons_work.cpp:33-71 | Where nothing can move, every thread sleeps or has finished, and no consumer has finished |
| BoundedBuffer.FinishedTickets | threads/multiple_cons_work.cpp:20-45 | When all producers have finished, min(total, offered) tickets were granted and no undo is pending |
| BoundedBuffer.StepUsesWork | threads/multiple_cons_work.cpp:20-71 | Every step that is not a spurious wake-up lowers a measure, and those raise it by at most two |
| BoundedBuffer.RunBound | threads/multiple_cons_work.cpp:20-71 | The length of a run is bounded by that measure and the number of spurious wake-ups |
| BoundedBuffer.RunsToQuiescence | threads/multiple_cons_work.cpp:20-71 | From every state a run without spurious wake-ups leads to a quiescent state |
| BoundedBuffer.AnySleeperMayWake | threads/multiple_cons_work.cpp:35-68 | Any sleeping thread may wake by itself, and may be the one that an owed notify of the other side wakes |
| BoundedBuffer.Program.constructor | threads/multiple_cons_work.cpp:10-18 | The globals and threads as they are at the start |
| BoundedBuffer.Program.FetchAdd | threads/multiple_cons_work.cpp:26-28 | Taking a ticket is the step `TakeTicket`: overrun when the counter has reached `total` |
| BoundedBuffer.Program.FetchSub | threads/multiple_cons_work.cpp:29-30 | Undoing an overrun is the step `UndoTicket`, which ends the loop |
| BoundedBuffer.Program.EndLoop | threads/multiple_cons_work.cpp:25-45 | A producer that has made its quota finishes |
| BoundedBuffer.Program.AcquireForProducer | threads/multiple_cons_work.cpp:34-35 | A producer takes the free mutex with its item in hand |
| BoundedBuffer.Program.Produce | threads/multiple_cons_work.cpp:33-40 | Under the mutex: push at the back, or block on `cv_producer` when full |
| BoundedBuffer.Program.NotifyConsumer | threads/multiple_cons_work.cpp:41-42 | The producer's notify wakes the chosen sleeper or is lost, then the next turn begins |
| BoundedBuffer.Program.AcquireForConsumer | threads/multiple_cons_work.cpp:50-51 | A consumer takes the free mutex |
| BoundedBuffer.Program.Consume | threads/multiple_cons_work.cpp:49-66 | Under the mutex: block, leave, or pop the front |
| BoundedBuffer.Program.NotifyProducer | threads/multiple_cons_work.cpp:68-69 | The consumer's notify wakes the chosen sleeper or is lost |
| BoundedBuffer.Program.RunSchedule | threads/multiple_cons_work.cpp:20-71 | Under any schedule the running program reaches the state of the step relation: items leave in the order pushed, tickets are granted once each, and when nothing can move the items 0 .. min(total, offered)-1 have been consumed, each once |
| ThreadPool.ReachableInv | scheduler/src/threadpool.cpp:6-60 | In every reachable state: a sleeping worker leaves no more queued tasks than threads on their way to them, and every task is queued, carried or executed exactly as often as it was pushed |
| ThreadPool.NoTaskStranded | scheduler/src/threadpool.cpp:9-60 | At rest, for any number of workers, the queue holds exactly as many tasks as were pushed when every worker had returned; so every task ran exactly as often as it was pushed if and only if there was no such push, and in particular when a worker still sleeps or, with a worker, nothing was pushed after `stop_` |
| ThreadPool.DrainingShutdown | scheduler/src/threadpool.cpp:12-44 | When `~ThreadPool` has returned, every worker has, and every task has run exactly once if and only if none was pushed when all workers had returned; with a worker, so whenever nothing was pushed after `stop_` |
| ThreadPool.UnservedLeft | scheduler/src/threadpool.cpp:9-60 | Along every run: once all workers have returned, the queue holds what it held then and what was pushed since |
| ThreadPool.LastLeaves | scheduler/src/threadpool.cpp:15-16 | The last worker returns on an empty queue |
| ThreadPool.ShutdownCanHangIff | scheduler/src/threadpool.cpp:13-60 | For every reachable state before `notify_all`, whatever calls are under way: some run from there comes to rest with the destructor waiting if and only if a worker stands between a false predicate and blocking and no call of `enqueue` waits for the mutex |
| ThreadPool.ShutdownCanHangFromStopIff | scheduler/src/threadpool.cpp:13-60 | The exact condition at the call of the destructor, for every reachable state and any calls under way: some run from `stop_ = true` comes to rest with the destructor waiting if and only if a worker then stands between a false predicate and blocking and no call of `enqueue` waits for the mutex |
| ThreadPool.ShutdownCompletes | scheduler/src/threadpool.cpp:13-60 | Its first half, run by run: when no worker stands there, or some call waits for the mutex, every run to rest from `notify_all` ends with the destructor returned, whatever is enqueued and whichever wake-ups are spurious |
| ThreadPool.ShutdownCompletesFromStop | scheduler/src/threadpool.cpp:13-60 | When no worker stands between a false predicate and blocking as `stop_` is stored, or some call of `enqueue` waits for the mutex, every run to rest ends with the destructor returned |
| ThreadPool.InformedStep | scheduler/src/threadpool.cpp:13-60 | Every step keeps: at most one worker has missed `stop_`, and a call still to notify will reach it |
| ThreadPool.StoppedStep | scheduler/src/threadpool.cpp:38-60 | Before `notify_all` a worker about to block keeps the mutex from the calls that wait for it |
| ThreadPool.ShutdownCompletesIff | scheduler/src/threadpool.cpp:37-60 | Every run to rest from `notify_all`, whatever calls and wake-ups it holds: the destructor has returned if and only if the worker that then stood between a false predicate and blocking, if any, was woken in the course of it |
| ThreadPool.ShutdownCanHang | scheduler/src/threadpool.cpp:13-44 | A run of one worker after which the destructor waits in `join` and nothing can move |
| ThreadPool.LateTaskStranded | scheduler/src/threadpool.cpp:15-60 | A run to rest, with the destructor returned, in which a task enqueued after `stop_` is still queued |
| ThreadPool.NoNewSleeper | scheduler/src/threadpool.cpp:13-16 | Once `stop_` is set, only a worker that had already found the predicate false can fall asleep |
| ThreadPool.MissedStays | scheduler/src/threadpool.cpp:39-44 | After `notify_all`, whether some worker missed `stop_` does not change on any run without calls or spurious wake-ups |
| ThreadPool.NeverEarly | scheduler/src/threadpool.cpp:22-31 | Under a clock that never goes back no task runs before its start time |
| ThreadPool.EarlierTakenFirst | scheduler/src/threadpool.cpp:18-19 | Across any pushes and workers: while a queued task is not taken, no task with a later start time, or with the same and a greater priority number, is taken |
| ThreadPool.StepWake | scheduler/src/threadpool.cpp:9-60 | Every step keeps the wake-up invariant |
| ThreadPool.StepConserved | scheduler/src/threadpool.cpp:18-57 | Every step keeps pushed = queued + carried + executed, task by task |
| ThreadPool.StepLock | scheduler/src/threadpool.cpp:12-58 | Every step keeps the mutex with exactly the thread inside a region |
| ThreadPool.StepStop | scheduler/src/threadpool.cpp:15-43 | Every step keeps: who has returned saw `stop_` and, without late pushes, an empty queue; who has been joined has returned |
| ThreadPool.QuiescentThreads | scheduler/src/threadpool.cpp:9-44 | At rest the mutex is free, clients are idle, workers sleep or have returned, and a waiting `join` waits for a sleeper |
| ThreadPool.EmptyIffExecuted | scheduler/src/threadpool.cpp:9-33 | With no task in a worker's hand, the queue is empty if and only if all was executed |
| ThreadPool.StepUsesWork | scheduler/src/threadpool.cpp:9-44 | Every step the pool takes by itself lowers a measure over queued tasks, carried tasks, live workers and the destructor |
| ThreadPool.RunsToQuiescence | scheduler/src/threadpool.cpp:9-44 | Left to itself the pool comes to rest |
| ThreadPool.AnySleeperMayWake | scheduler/src/threadpool.cpp:13-59 | Any sleeping worker may wake by itself, and may be the one that an owed notify wakes |
| Pool.WorkerPool.constructor | scheduler/src/threadpool.cpp:6-35 | A fresh pool is the initial state of the step relation |
| Pool.WorkerPool.AcquireForClient | scheduler/src/threadpool.cpp:48-56 | `enqueue` takes the mutex when it is free |
| Pool.WorkerPool.AcquireForWorker | scheduler/src/threadpool.cpp:12-13 | A worker takes the mutex on entry and after a wake-up, then evaluates the predicate |
| Pool.WorkerPool.BlockOn | scheduler/src/threadpool.cpp:13 | Blocking releases the mutex, whatever became of `stop_` since the predicate was false |
| Pool.WorkerPool.PushTask | scheduler/src/threadpool.cpp:47-58 | `enqueue` under the mutex, on the array heap, is the step that adds the task to the multiset |
| Pool.WorkerPool.NotifyOneWorker | scheduler/src/threadpool.cpp:51-59 | The notify wakes the chosen sleeper or is lost |
| Pool.WorkerPool.EvaluatePredicate | scheduler/src/threadpool.cpp:13 | The predicate is true if and only if `stop_` is set or a task is queued |
| Pool.WorkerPool.TakeOrReturn | scheduler/src/threadpool.cpp:15-20 | The worker returns if and only if `stop_` is set and the queue is empty; otherwise it takes a task that is first in the dispatch order |
| Pool.WorkerPool.TakeTop | scheduler/src/threadpool.cpp:18-19 | Top and pop of the heap are the step that takes a first task out of the multiset |
| Pool.WorkerPool.CompareClock | scheduler/src/threadpool.cpp:22-25 | A task not yet due sleeps until its start time, any other runs at once |
| Pool.WorkerPool.WakeOnTime | scheduler/src/threadpool.cpp:24 | `sleep_until` ends no earlier than the start time |
| Pool.WorkerPool.RunTask | scheduler/src/threadpool.cpp:27-32 | The task is recorded as run and the worker is back at the loop top |
| Pool.WorkerPool.StoreStop | scheduler/src/threadpool.cpp:38 | `stop_` is set whoever holds the mutex |
| Pool.WorkerPool.NotifyAllWorkers | scheduler/src/threadpool.cpp:39 | Exactly the sleeping workers are woken |
| Pool.WorkerPool.JoinNext | scheduler/src/threadpool.cpp:40-44 | The destructor passes a worker only when that one has returned |
| Pool.WorkerPool.Perform | scheduler/src/threadpool.cpp:6-60 | Every step of the step relation is one the object makes, and the object makes no other |
| Pool.WorkerPool.RunSchedule | scheduler/src/threadpool.cpp:6-60 | Under any schedule the pool on its array heap makes a run of the step relation that follows the schedule: no task is lost or doubled, none starts early, a sleeping worker leaves no more tasks than threads on their way, and at rest or after the destructor the tasks left are those pushed when all workers had returned |
| TaskOrder.LaterIsStrictWeakOrder | scheduler/src/task_comparator.cpp:3-6 | The comparator is a strict weak order whose ties are equal start time and priority; the greater start time, or with the same the greater priority number, is dispatched later |
| TaskOrder.FirstExists | scheduler/src/task_comparator.cpp:3-6 | Every non-empty queue has a first task |
| TaskOrder.FirstIsLeast | scheduler/src/task_comparator.cpp:3-6 | A first task is exactly one with the least start time and, among those, the least priority number |
| TaskOrder.PopRunExists | scheduler/src/threadpool.cpp:18-19 | Every queue can be emptied by such pops, each task once |
| TaskOrder.PopRunByTime | scheduler/src/threadpool.cpp:18-19 | A push-free run of pops ascends by start time, then by priority number |
| TaskOrder.PopRunSorted | scheduler/src/threadpool.cpp:18-19 | A push-free run of pops is sorted, takes queued tasks only, and leaves nothing strictly earlier than what it took |
| TaskOrder.EarlierPoppedFirst | scheduler/src/threadpool.cpp:18-19 | Of two tasks queued together, the one with the earlier start time, or with the same and the smaller priority number, is popped first |
| TaskOrder.LeftNotEarlier | scheduler/src/threadpool.cpp:18-19 | A task still queued is not earlier than one popped |
| TaskHeap.RootBeforeAll | scheduler/include/threadpool.h:24 | In heap order nothing is strictly earlier than the root |
| TaskHeap.RootIsFirst | scheduler/src/threadpool.cpp:18 | So the root is a first task of the multiset the heap holds |
| TaskHeap.RiseStep | scheduler/src/threadpool.cpp:49-57 | Lifting a task past its parent moves the one place out of order up (section 28.7.7 of ISO C++17) |
| TaskHeap.SinkStep | scheduler/src/threadpool.cpp:19 | Exchanging a task with its earlier child moves the one place out of order down |
| TaskHeap.SettledStep | scheduler/src/threadpool.cpp:19 | When neither child is earlier, the whole array is heap-ordered |
| TaskHeap.TaskQueue.Push | scheduler/src/threadpool.cpp:49-57 | `push_heap` keeps heap order and adds exactly the task |
| TaskHeap.TaskQueue.Pop | scheduler/src/threadpool.cpp:19 | `pop_heap` keeps heap order and removes exactly the root |
| TaskHeap.TaskQueue.Top | scheduler/src/threadpool.cpp:18 | The top has the least start time and, among those, the least priority number |
| TaskHeap.TaskQueue.Empty | scheduler/src/threadpool.cpp:13-15 | Empty if and only if the multiset is |
| HandOff.AlwaysInOrder | threads/cond.cpp:13-42 | Always: consumed followed by buffer is 0, 1, 2, ... up to the last item pushed, and the two threads are never both asleep |
| HandOff.NeverStuck | threads/cond.cpp:13-42 | A run that cannot go on has finished both loops and consumed exactly 0 .. N-1 in order |
| HandOff.RunsToCompletion | threads/cond.cpp:13-42 | From every reachable state a run without spurious wake-ups finishes both loops with 0 .. N-1 consumed in order |
| HandOff.RunBound | threads/cond.cpp:13-42 | A run takes at most 12 N + 2 steps and three for each spurious wake-up |
| HandOff.StepUsesWork | threads/cond.cpp:13-42 | Every step lowers a measure, spurious wake-ups aside |
| HandOff.StepInOrder | threads/cond.cpp:17-38 | Every step keeps the order of items, none lost or doubled |
| HandOff.StepNotified | threads/cond.cpp:17-39 | Every step keeps: a thread asleep although it could go on has a notify on its way from the other |
| HandOff.SleeperMayWake | threads/cond.cpp:17-39 | The sleeping thread may wake by itself, and an owed notify of the other wakes it |
| HandOff.Exchange.TestLoop | threads/cond.cpp:14-29 | The loop condition sends a thread on or ends it |
| HandOff.Exchange.Produce | threads/cond.cpp:16-22 | Under the mutex: push the loop's number, or block |
| HandOff.Exchange.Consume | threads/cond.cpp:31-38 | Under the mutex: pop the front, or block |
| HandOff.Exchange.NotifyOne | threads/cond.cpp:23-39 | The notify wakes the other thread if it sleeps, and the turn ends |
| HandOff.Exchange.RunSchedule | threads/cond.cpp:13-53 | Under any schedule the running object keeps the order, and is complete when it cannot go on |
| StoppableBuffer.ElementsAccounted | threads/elements.cpp:14-60 | In every reachable state: produced = consumed + buffered + in hand + given up on a full buffer; the buffer is within capacity |
| StoppableBuffer.PrintedCounters | threads/elements.cpp:62-80 | When all threads have returned, the printed numbers differ by exactly the producers that gave up, at most one each, and not at all if and only if none did |
| StoppableBuffer.RunsUntilDone | threads/elements.cpp:28-60 | Until `done` is set some thread can always move: no wake-up is lost |
| StoppableBuffer.AnySleeperMayWake | threads/elements.cpp:36-57 | Any sleeping thread may wake by itself, and may be the one that an owed notify of the other side wakes |
| Stopping.StopCanHangIff | threads/elements.cpp:28-80 | Exact, for every reachable state between `done = true` and the first `notify_all`: some run comes to rest with a thread not returned if and only if a consumer stands between an unset `done` and blocking with no element in any producer's hand, or a producer does with no consumer that sleeps or wants the mutex |
| Stopping.StopCanHangFromStoreIff | threads/elements.cpp:28-80 | The same condition, exact as `done` is stored |
| Stopping.StopEnds | threads/elements.cpp:28-80 | Every run after `done = true` ends, spurious wake-ups included: within 7 steps for each producer, 8 for each consumer, and 2 |
| Stopping.StopCompletesFromStore | threads/elements.cpp:28-80 | Unless that condition holds as `done` is stored, every run to rest ends with all threads returned and the printed numbers differ by the producers that gave up |
| Stopping.StopCompletes | threads/elements.cpp:28-80 | So it does when a consumer about to block at the first `notify_all` leaves a producer with an element in hand, and a producer about to block at the second leaves a consumer that wants one |
| Stopping.StopCanHang | threads/elements.cpp:28-77 | For any number of producers and any consumers there is a reachable state from which `done = true` leaves a program that can hang |
| Stopping.SavedStepC | threads/elements.cpp:28-72 | Every step keeps: at most one consumer has missed `done`, and a notify is owed that will reach it, or an element is in hand that will find the buffer empty |
| Stopping.SavedStepP | threads/elements.cpp:28-72 | The same for producers, and a consumer that will find the buffer full |
| Stopping.HangC | threads/elements.cpp:28-77 | With a consumer about to block and no element in hand, the run that gives all owed notifies and both `notify_all` first comes to rest with the consumer asleep |
| Stopping.HangP | threads/elements.cpp:28-77 | The same for a producer about to block with no consumer that sleeps or wants the mutex |
| StoppableBuffer.StepAccounted | threads/elements.cpp:14-60 | Every step keeps the account |
| StoppableBuffer.StepThreadsOk | threads/elements.cpp:32-56 | Every step keeps mutual exclusion and the capacity, and no thread returns before `done` is set |
| StoppableBuffer.StepWakeC | threads/elements.cpp:33-56 | Every step keeps: a sleeping consumer leaves no more elements than threads on their way to them |
| StoppableBuffer.StepWakeP | threads/elements.cpp:33-57 | The same for sleeping producers and free places |
| StoppableBuffer.QuiescentThreads | threads/elements.cpp:28-60 | Where nothing can move, every thread sleeps or has returned |
| StoppableBuffer.Program.TestAndProduce | threads/elements.cpp:29-30 | Leave when `done` is set, otherwise produce and count |
| StoppableBuffer.Program.AcquireForProducer | threads/elements.cpp:32-36 | A producer takes the free mutex with its element in hand |
| StoppableBuffer.Program.StoreOrWait | threads/elements.cpp:33-38 | Store unless the buffer is full |
| StoppableBuffer.Program.GiveUpOrBlock | threads/elements.cpp:34-36 | On a full buffer: return with the element in hand when `done` is set, otherwise go on to block |
| StoppableBuffer.Program.BlockProducer | threads/elements.cpp:36 | Blocking releases the mutex, also when `done` was stored since it was tested |
| StoppableBuffer.Program.NotifyConsumer | threads/elements.cpp:40-41 | The notify wakes the chosen sleeper or is lost |
| StoppableBuffer.Program.TestDone | threads/elements.cpp:46 | A consumer leaves when `done` is set |
| StoppableBuffer.Program.AcquireForConsumer | threads/elements.cpp:48-52 | A consumer takes the free mutex |
| StoppableBuffer.Program.LeaveOrBlock | threads/elements.cpp:50-52 | On an empty buffer: return when `done` is set, otherwise go on to block |
| StoppableBuffer.Program.BlockConsumer | threads/elements.cpp:52 | Blocking releases the mutex |
| StoppableBuffer.Program.TakeOrWait | threads/elements.cpp:49-55 | Take unless the buffer is empty |
| StoppableBuffer.Program.ConsumeElement | threads/elements.cpp:58 | The element in hand is counted |
| StoppableBuffer.Program.NotifyProducer | threads/elements.cpp:57 | The notify wakes the chosen sleeper or is lost |
| StoppableBuffer.Program.StoreDone | threads/elements.cpp:69 | `done` is set whoever holds the mutex |
| StoppableBuffer.Program.NotifyAllConsumers | threads/elements.cpp:71 | Exactly the sleeping consumers are woken |
| StoppableBuffer.Program.NotifyAllProducers | threads/elements.cpp:72 | Exactly the sleeping producers are woken |
| StoppableBuffer.Program.RunSchedule | threads/elements.cpp:28-80 | Under any schedule the running program reaches the state of the step relation, keeps the account and the capacity, and prints numbers that differ by the producers that gave up |
| Relay.RelayServer.constructor | relay-server/src/RelayServer.cpp:49-54 | The listener alone is in the set |
| Relay.RelayServer.SelectPass | relay-server/src/RelayServer.cpp:57-76 | Exactly the ready descriptors are read, in ascending order, once each, each still the connection it was when `select` returned although numbers may be reused within the pass; afterwards the set is exactly what it was, without the connections that ended and with the client accepted under a number free at the listener's turn, `maxFd` follows, and the pipe has got exactly what was read |
| Relay.RelayServer.Serve | relay-server/src/RelayServer.cpp:64-75 | One descriptor of the pass: accept, read or nothing; the set stays below `maxFd` with the listener in it |
| Relay.RelayServer.HandleClientData | relay-server/src/RelayServer.cpp:169-183 | A chunk goes to the pipe unchanged; at the end of a connection its descriptor is closed and leaves the set, and nothing else does |
| Relay.RelayServer.Forward | relay-server/src/RelayServer.cpp:176-181 | The pipe gets the whole chunk; the FIFO gets the part of it that one write takes when it opens, and nothing otherwise; the pipe restricted to each connection stays what was read from it |
| Relay.RelayServer.Drop | relay-server/src/RelayServer.cpp:173-174 | A connection that ends loses its descriptor and its place in the set, and is marked as ended |
| Relay.RelayServer.PassStep | relay-server/src/RelayServer.cpp:63-76 | One turn of the inner loop keeps, exactly: which connections are in the set under which numbers, what was read, and what the pipe and the FIFO got |
| Relay.PassAccepts | relay-server/src/RelayServer.cpp:67-72 | After a pass whose listener is ready, a client that comes under a free number, or under one the pass closed before the listener's turn, is in the set with `maxFd` at least that number; nobody else is new |
| Relay.PassReads | relay-server/src/RelayServer.cpp:63-75 | A connection not reported ready stays as it is; one that is has been read, and stays with its bytes added to the pipe, or is gone if it ended |
| Relay.PassFifo | relay-server/src/RelayServer.cpp:177-181 | Where the FIFO opens and takes whole chunks, it gets exactly what the pipe gets |
| Relay.RelayServer.RunTurns | relay-server/src/RelayServer.cpp:56-78 | Any number of turns, each a whole pass from the state the one before left; the listener stays in the set and all of it below `maxFd`, the pipe carries the bytes of each connection in order, no connection is read again after it has ended although its number may be reused, and the loop only ends by a failing `select` |
| Relay.CallsOncePerPass | relay-server/src/RelayServer.cpp:63-75 | The reads of a pass are on ready descriptors in strictly ascending order, each as the connection of the moment of `select` |
| Relay.CallsAllReady | relay-server/src/RelayServer.cpp:63-75 | No ready descriptor is left out |
| Relay.TracksAccepted | relay-server/src/RelayServer.cpp:68-72 | At the listener's turn the client is in the set, under a number free just then, also one closed earlier in the pass, and no connection still to be read is disturbed |
| Relay.TracksHandled | relay-server/src/RelayServer.cpp:172-175 | Dropping an ended connection disturbs no other |
| Relay.Kernel.Open | relay-server/src/RelayServer.cpp:68-70 | What is assumed of `accept` and `open`: a number not in use, or failure |
| Relay.Receive | relay-server/src/RelayServer.cpp:110-114 | The receiver's output is always a prefix of the pipe, and all of it when the reads suffice |
| Relay.Log | relay-server/src/RelayServer.cpp:131-136 | The log file is a subsequence of the FIFO, however short the writes, and all of it when reads and writes suffice |
| Relay.LogIsPartOfPipe | relay-server/src/RelayServer.cpp:106-182 | What the log holds of a connection is a subsequence of the bytes read from that connection |
| Streams.RestrictAppend | relay-server/src/RelayServer.cpp:176 | A stream restricted to one connection grows chunk by chunk |
| Streams.RestrictSubsequence | relay-server/src/RelayServer.cpp:176-179 | Leaving out bytes of a stream leaves out bytes of each connection, in order |
| Streams.SubsequenceIff | relay-server/src/RelayServer.cpp:176-179 | A stream is such a subsequence exactly if its elements stand in the other at ascending places |
| Tokens.SplitIsUnique | mojbash/scanner.c:9-34 | However a line is written as whitespace-free tokens kept apart by whitespace, those tokens are the ones computed |
| Tokens.SplitExists | mojbash/scanner.c:9-34 | Every line can be so written: the tokens are its maximal whitespace-free runs |
| Tokens.TokensKeepText | mojbash/scanner.c:9-34 | The tokens put together are the line without its whitespace, and each is non-empty and whitespace-free |
| Tokens.SpaceCodes | mojbash/scanner.c:9 | The separators are the characters of codes 9 to 13 and 32 |
| Tokens.TwoWords | mojbash/scanner.c:9-34 | Two words without those codes and any gap of them are those two tokens |
| Tokens.TokensByCode | mojbash/scanner.c:9-34 | No token of any line holds such a character, and all others are kept in order |
| Scanner.Strtok | mojbash/scanner.c:19-33 | `strtok` yields the next token as a NUL-terminated string in place, leaves the rest to scan, and touches nothing before or after (section 7.24.5.8 of ISO C11) |
| Scanner.Append | mojbash/scanner.c:21-32 | The array grows by doubling just when only the terminator's slot is left, keeping the tokens stored; failure only when memory is short |
| Scanner.Turn | mojbash/scanner.c:20-34 | One turn stores one token, and every address stored before still points to its token |
| Scanner.ScanAll | mojbash/scanner.c:20-34 | The loop stores the address of every token, in an array that always has room for one more |
| Scanner.Tokenize | mojbash/scanner.c:8-37 | The addresses returned point to the tokens of the line in order, then NULL, all within a capacity of at least 10 and at most max(10, 2 tokens); it fails if and only if the capacity needed cannot be had |
| Scanner.Grown | mojbash/scanner.c:11-22 | The capacity exceeds the number of tokens and is at most max(10, 2 tokens) |
| CStrings.StringAtIsText | mojbash/scanner.c:31 | Characters followed by a NUL are the string at that address |
| CStrings.StringEndsAtZero | mojbash/scanner.c:31 | Characters that are not zero, then a zero, are the string at their address |
| Scanner.LineInBuffer | mojbash/main.c:27-30 | So does a line end in its buffer |
| Redirection.ParseRedirection | mojbash/utils.c:44-78 | The loop that compacts in place computes the one-pass specification: arguments left, input and output file; NULL is stored behind them and nothing outside the arguments and their terminator changes |
| Redirection.Compact | mojbash/utils.c:53-74 | The loop alone: the arguments left and the files are those of the one-pass specification |
| Redirection.AllTurns | mojbash/utils.c:53-74 | Turn by turn the final result stays in sight, until the arguments left are that result |
| Redirection.MoveDown | mojbash/utils.c:59-68 | The `memmove` stays in bounds and shifts by two |
| Redirection.Turn | mojbash/utils.c:53-74 | Each turn leaves the final result unchanged and brings it nearer |
| Redirection.Redirect | mojbash/utils.c:55-69 | Noting a redirection and taking its two arguments out in place leaves the final result unchanged |
| Redirection.TakeInput | mojbash/utils.c:54-61 | Removing an input redirection in place does not change the final result |
| Redirection.TakeOutput | mojbash/utils.c:63-70 | The same for an output redirection |
| Redirection.KeepArgument | mojbash/utils.c:72-73 | Stepping past an argument does not change the final result |
| Redirection.TwoArgumentsEach | mojbash/utils.c:53-77 | Old count = new count + 2 redirections, and there is none if and only if neither file is set |
| Redirection.OperatorOnlyLast | mojbash/utils.c:54-63 | An operator survives only as the last argument |
| Redirection.SecondPassIdle | mojbash/utils.c:53-77 | A second pass changes nothing |
| Redirection.NothingToParse | mojbash/utils.c:72-73 | Arguments with no operator before the last are left as they are |
| Redirection.ArgumentsKeepOrder | mojbash/utils.c:59-73 | Arguments are dropped, never changed or reordered |
| Redirection.LastRedirectionWins | mojbash/utils.c:54-70 | One more redirection at the end overrides the file of its kind, truncated to 63 characters, and nothing else; after a lone operator at the end it is taken as that one's file name, and its own file becomes an argument |
| Echo.MojEcho | mojbash/utils.c:121-128 | The loop over pointers prints each argument and a blank, then a line feed |
| Echo.TokensOfPrinted | mojbash/utils.c:121-128 | Scanning what is printed gives back any non-empty, whitespace-free arguments |
| Echo.PrintedReadsBackIff | mojbash/utils.c:121-128 | And only those |
| Echo.PrintedGrows | mojbash/utils.c:122-127 | What is printed, character by character: each argument, a blank behind it, and one line feed at the end |
| Echo.ArgumentsSolid | mojbash/utils.c:53-74 | Compaction keeps every argument non-empty and whitespace-free |
| Echo.RoundTrip | mojbash/main.c:29-57 | For every line with a command, scanning what `mojecho` prints gives exactly the arguments that `parse_redirection` left |
| Echo.EchoLine | mojbash/main.c:29-57 | The same of the code in place: scanner, compaction and printer on one buffer; it fails only for an empty line or for want of memory |
| HttpRequest.ReadPayload | http-server/src/HTTPServer.cpp:160-174 | The read loop collects up to the end of the head, the end of the stream or an error |
| HttpRequest.ChunkingDoesNotMatter | http-server/src/HTTPServer.cpp:163-180 | However the stream is cut into reads, the request or the error is that of the whole stream |
| HttpRequest.CutsAgree | http-server/src/HTTPServer.cpp:163-180 | Any two ways of cutting a stream into non-empty reads give the same outcome, that of the stream |
| HttpRequest.CollectedPart | http-server/src/HTTPServer.cpp:163-168 | What is collected is the stream or an initial part of it that holds the end of the head |
| HttpRequest.ReadErrorOnlyBeforeHeadEnd | http-server/src/HTTPServer.cpp:163-174 | A read error is answered with 500 if it comes before the end of the head; otherwise it is never seen |
| HttpRequest.FailuresHaveReasons | http-server/src/HTTPServer.cpp:170-191 | Every failure to read or parse a request is answered with a status of the server under its own text |
| HttpRequest.ParseByFirstLine | http-server/src/HTTPRequest.cpp:11-23 | The result depends only on the bytes before the first line feed (RFC 9112, section 3) |
| HttpRequest.RequestLineByWords | http-server/src/HTTPRequest.cpp:11-41 | For any three words: the first is the method, the second the endpoint, the third the version; an endpoint that starts with two slashes, alone or after http: or https:, gives 400, one with two dots in a row 403 |
| HttpRequest.TooFewWords | http-server/src/HTTPRequest.cpp:19-30 | A first line of fewer than three words gives 400 |
| HttpRequest.ParseRaw | http-server/src/HTTPRequest.cpp:11-23 | `parse` on a stream of the head refines the specification on the text |
| HttpRequest.HTTPRequest.ParseRequestLine | http-server/src/HTTPRequest.cpp:25-41 | The first three words fill the fields; too few words, an absolute form or two dots in a row give the error of the code, in that order |
| HttpRequest.Extract | http-server/src/HTTPRequest.cpp:27 | `>>` takes the next token and leaves the later ones, or an empty word when there is none |
| HttpRequest.HandleConnection | http-server/src/HTTPServer.cpp:157-191 | From the reads to the request or the error answered |
| HttpResponse.ReadsBack | http-server/src/HTTPResponse.cpp:24-32 | A message without line breaks in its parts and without colon and blank in names is read back whole, in whatever order the headers are iterated (RFC 9112, sections 2.1, 4, 5) |
| HttpResponse.ReadIsClean | http-server/src/HTTPResponse.cpp:24-32 | Whatever bytes come, only such a message can be read |
| HttpResponse.ReadsBackIff | http-server/src/HTTPResponse.cpp:24-32 | So the round trip holds for exactly those messages |
| HttpResponse.WireByLines | http-server/src/HTTPResponse.cpp:26-30 | The bytes sent: version, code and text, each header on a line of its own, an empty line, the body |
| HttpResponse.OrderExists | http-server/src/HTTPResponse.cpp:27 | Whatever the headers, there is an order to iterate them in |
| HttpResponse.HTTPResponse.SetStatus | http-server/src/HTTPResponse.cpp:9-12 | Code and text change, nothing else |
| HttpResponse.HTTPResponse.SetBody | http-server/src/HTTPResponse.cpp:14-17 | Body and Content-Length change together, and Content-Length read as decimal is the length of the body |
| HttpResponse.HTTPResponse.AddHeader | http-server/src/HTTPResponse.cpp:19-22 | One header is set or replaced |
| HttpResponse.HTTPResponse.ToString | http-server/src/HTTPResponse.cpp:24-32 | The printing loop gives the wire form, which is read back if and only if the message is clean |
| HttpResponse.Build | http-server/src/HTTPServer.cpp:238-249 | A response built with a one-line text and content type is read back with its status, body and two headers, and its Content-Length is the length of its body (RFC 9112, section 6.2) |
| HttpResponse.ServerTextsOneLine | http-server/src/HTTPServer.cpp:27-37 | The statuses, their texts and the content types that the server sends, and that none of them holds a line break |
| HttpResponse.Respond | http-server/src/HTTPServer.cpp:194-249 | So every response the server sends, with its own texts, is read back whole |
| HttpServer.HandleConnection | http-server/src/HTTPServer.cpp:157-249 | From the reads to what the client reads, however the request is cut: a page found comes under 200 OK with its own type, a failure to read, parse or look up under its own status and text as plain text without a body; two headers and no more, and the length is that of the body |
| HttpServer.FoundPage | http-server/src/HTTPServer.cpp:176-249 | A request for a page that exists, word by word, and the whole message read back for it |
| HttpResponse.HeadRecovered | http-server/src/HTTPResponse.cpp:26-30 | Head and body are told apart at the first empty line, and the lines are recovered |
| HttpResponse.ReadHeadersOf | http-server/src/HTTPResponse.cpp:27-29 | The header lines in any order give back the names and values they were printed from |
| HttpResponse.ReadStatusOf | http-server/src/HTTPResponse.cpp:26 | The status line gives back code and text, whatever they are |
| Search.Find | http-server/src/HTTPServer.cpp:165 | `find` gives the first occurrence, or none if and only if there is none |
| Search.FindInPrefix | http-server/src/HTTPServer.cpp:164-165 | More bytes behind do not move the first occurrence |
| Search.DecimalReadsBack | http-server/src/HTTPResponse.cpp:16 | A size printed in decimal reads back as that size |
| Sockets.DescriptorOwnership | http-server/src/Socket.cpp:4-21 | Over every sequence of constructions, moves (onto itself included) and destructions: at most one live owner, never closed more often than opened, open while owned, and closed exactly as often as opened once no socket is left |
| Sockets.OwnedAfter | http-server/src/Socket.cpp:4-21 | Which descriptors are owned after each operation: only a destruction and an assignment over an owner end ownership |
| Sockets.MovesTransfer | http-server/src/Socket.cpp:4-21 | A move is possible from any live variable; the one moved to then has the descriptor and the one moved from has none, and onto itself nothing changes |
| Sockets.StepInv | http-server/src/Socket.cpp:4-21 | Every operation keeps single ownership and the account of openings and closings |
| Sockets.Socket.constructor | http-server/src/Socket.cpp:4 | Takes the descriptor given |
| Sockets.Socket.Move | http-server/src/Socket.cpp:6 | The new object takes the descriptor and the old one is left with none |
| Sockets.Socket.Assign | http-server/src/Socket.cpp:8-16 | Self-assignment does nothing; otherwise the old descriptor is closed once and the other's is taken |
| Sockets.Socket.Destroy | http-server/src/Socket.cpp:18-21 | Closes the descriptor owned, if any |
| Sockets.Program.MoveConstructAt | http-server/src/Socket.cpp:6 | On objects, a move construction is the step of the ownership model |
| Sockets.Program.MoveAssignAt | http-server/src/Socket.cpp:8-16 | The same for move assignment, with source and target possibly one object |
| Sockets.Program.DestroyAt | http-server/src/Socket.cpp:18-21 | The same for destruction |
| Sockets.Program.RunSequence | http-server/src/Socket.cpp:4-21 | Over every sequence of operations on socket objects: one live owner at most, never closed more often than opened, open while owned, and closed exactly as often as opened once no socket is left |

## Left out

- ThreadPool.NoTaskStranded: calls on a pool already destroyed have no defined behaviour and are not modelled.
- Stopping.StopCanHangIff: takes a capacity of at least one; the source has 10.
- ThreadPool.NeverEarly: takes a clock that never goes back; `system_clock` may be set back, and the source does not guard against it.
- Relay.RelayServer.Forward: a write to the pipe takes the whole chunk, as a blocking pipe write does; the result of that write is not looked at in the source either.
- Relay.RelayServer.RunTurns: descriptors are below FD_SETSIZE; the source does not check it.
- Relay.Log: the child stops at the first end of file on the FIFO, so what it logs ends there; only the part it copied is described.
- Echo.EchoLine: ends where memory runs out; `main` does not check for that before it uses the tokens.
- Redirection.ParseRedirection: each flag and its file buffer are one optional string, cut to 63 characters; the bytes behind the terminator are not modelled.
- HttpRequest.HTTPRequest.ParseRequestLine: the two regular expressions are predicates on the text (`IsAbsolute` and containing two dots).
- System calls and processes: sockets, fork, exec, stat, open, dup2, signals, terminals; only the effects named above.
- `mojcat`, `mojtouch`, `mojls`, prompt and environment of the shell: file-system and terminal input and output.
- File lookup and the mapping of `errno` to a status in `handleRequest`; `Port`, `isHTML`, `format_path`, `validateArgs`: small and easy.
- `Logger`, `Log::print`, `timeToString` and console output.
- The work of a task: running it is one recorded step that terminates and does not touch the pool.
- Integer overflow of the counters, which would take more than 2^31 items.
- Weak memory order: the flags and counters are sequentially consistent atomics, all else is under a mutex.
- Fairness and time limits: which enabled thread moves next is arbitrary.
- The smaller producer/consumer variants, `pipe-fifo/`, `temp/`, `terminal/`, `signali/`, `provjera3/` and `provjera4/`: variants of what is modelled, or demonstrations without an invariant.
