# Boost.CMT, modelled and proved in Dafny

Boost.CMT runs cooperative contexts ("fibers") inside OS threads. This project
models three of its parts and proves what they promise:

1. **The scheduler of one `cmt::thread`**: contexts threaded through an
   intrusive ready list and an intrusive blocked list, a binary heap of
   sleepers, and two heaps of tasks fed from a lock-free inbox.
2. **The protocols between threads**: completing a promise against waiting on
   it, and posting a task against the owner's parking.
3. **The buffered TCP socket**: a double-buffered writer with a background
   loop, and a read-ahead reader, end to end.

## How it is built

Code that updates objects in place is modelled as classes whose methods are
proved against operations on values; the deeper properties are then proved of
the values, over all inputs and all runs.

| file | module | what it holds |
|---|---|---|
| `wrappers.dfy` | `Wrappers` | options, bytes, facts about sequences |
| `heap.dfy` | `Heaps` | `push_heap`, `pop_heap`, `make_heap` with real sifting, for any strict weak order |
| `schedule.dfy` | `Schedule` | the scheduler as a value: notify, timeouts, switch, wait, sleep |
| `completion.dfy` | `Completions` | a promise's state as the fold of its completions |
| `tasks.dfy` | `Tasks` | tasks, the inbox chain, the two task heaps, `enqueue` and `dequeue` |
| `scheduler.dfy` | `Scheduler` | classes `Context`, `Promise`, `ThreadPrivate`, each method proved against `Schedule` |
| `runs.dfy` | `Runs` | whole runs of one thread |
| `turns.dfy` | `Turns` | round robin |
| `dispatch.dfy` | `Dispatch` | the task heap refines a sorted queue |
| `inbox.dfy` | `Inbox` | posters against the owner, any number of threads |
| `promise_protocol.dfy` | `PromiseProtocol` | setters against a waiter, any number of setters |
| `socket_writer.dfy` | `SocketWriter` | the writer as a value, and class `WriteSide` |
| `socket_reader.dfy` | `SocketReader` | the reader as a value, and class `ReadSide` |
| `socket_stream.dfy` | `SocketStream` | writer, pipe and reader together |

A context switch is a change of `current`: a method that gives way ends where
the code jumps, and `FinishWait` and `FinishSleep` are what the context does
once it has been jumped back to. Clock readings, the results of the transport
and the answers of `available()` are parameters, so every theorem holds for
all of them; readings of the clock do not decrease. In `Inbox` and
`PromiseProtocol` atomics are sequentially consistent, a step is one access to
shared memory or one critical section, and the weak exchange may fail for no
reason. A heap algorithm takes a vector and returns it, where the library
works between two iterators. The sleep heap is ordered by the deadlines of its
contexts as they stand when the algorithm runs; no deadline changes meanwhile.

`Schedule.Settled` is the consistency of the structures in one predicate:
every context is in exactly one of running, ready, blocked and only sleeping;
neither list has a duplicate; every blocked context has a promise; and a
sleeper has a promise exactly if it is blocked too. `Schedule.OneWaiter` says
that no two blocked contexts wait on the same promise.

## Where the code and its documentation part

- `task_when_less` puts the latest task in front of the scheduled heap
  (`src/thread.cpp:173-177`), while `schedule` says that a task runs as soon as
  possible after its time (`include/boost/cmt/thread.hpp:54`). A due task is
  served only while no scheduled task lies in the future:
  `Tasks.DueTaskServed`, and `Tasks.DueTaskPassedOver` where one does.
- For the same reason `check_for_timeouts` does not return "the time the next
  task needs to be run" (`src/thread.cpp:334`). The
  returned time is no later than every scheduled task if and only if all
  scheduled tasks share one time, or some sleeper precedes them all:
  `Scheduler.NextTimeCoversTasks`, with a family of inputs where it does not in
  `Scheduler.EarlierTaskOverslept`.
- `notify` loops over all blocked contexts (`src/thread.cpp:514-538`) but stops
  after the first match, whose `next_blocked` it has zeroed, and searches the
  sleep heap separately. With two waiters it can take a different context out
  of each, which breaks the structures:
  `Schedule.NotifySettled` gives the exact condition, and
  `Schedule.TwoWaitersComeApart` a state in which it fails.
- `BOOST_ASSERT(p->ready())` in `notify` can fail (`src/thread.cpp:504`,
  `src/future.cpp:17`), because a waiter that receives an error clears it:
  `PromiseProtocol.NotifyMayFindNotReady` is a run in which it does, and
  `PromiseProtocol.ReadyWhenNotified` is the exact condition.
- `BOOST_ASSERT(next != current)` (`src/thread.cpp:234`) fails when the running
  context expires in the very call that suspends it: `Turns.SwitchToSelf` says
  exactly when, and `Turns.SleeperSwitchesToSelf` shows a case. The model lets
  the context switch to itself.
- `yield` does not return at once when nothing else is ready, as
  `src/thread.cpp:566-567` says; it makes a new context that processes tasks
  (`src/thread.cpp:248-263`): `Turns.YieldGivesWay`.
- After a transport error a waiting `flush` consumes the error
  (`include/boost/cmt/future.hpp:75-79`, `src/asio/tcp/socket.cpp:210-213`);
  then `write` accepts bytes again, which no loop will ever send: the run
  `SocketWriter.AcceptedNeverSent`. What was accepted can still be sent if and
  only if no loop has failed or nothing is left: `SocketWriter.CanBeSent`.
- Because a wait consumes the error it throws, waiting on a promise a second
  time is not safe: where the assertion above is compiled out, a notify that
  comes late wakes the second wait with nothing to return
  (`include/boost/cmt/future.hpp:81`). A wait throws `future_value_not_ready`
  exactly if nothing completed its promise since it began:
  `Runs.NoSpuriousReturn`, and the run `Runs.SecondWaitFindsNothing`.

## Model

| member | source | states |
|---|---|---|
| Heaps.PushHeap | src/thread.cpp:184-190 | push_heap: a permutation of the vector that is a heap, for any strict weak order, given all but the last element form one |
| Heaps.PopHeap | src/thread.cpp:204-212 | pop_heap: the old front ends up last and what is before it is a heap, with nothing lost |
| Heaps.MakeHeap | src/thread.cpp:546 | make_heap: any vector becomes a heap with the same contents |
| Heaps.FrontIsGreatest | src/thread.cpp:200-213 | nothing in a heap exceeds its front, which is why taking the front is right |
| Schedule.NotifyMovesTheWaiter | src/thread.cpp:515-549 | with one waiter per promise, notify unlinks exactly the waiter from any position, keeps everyone else's order in both lists, puts it at the ready front, and takes it off the sleep heap exactly if its wait was timed |
| Schedule.NotifyWithoutWaiter | src/thread.cpp:515-549 | notify changes nothing when nobody waits on the promise |
| Schedule.NotifyTwice | src/thread.cpp:502-550 | a second notify of the same promise changes nothing |
| Schedule.NotifySettled | src/thread.cpp:515-549 | for any number of waiters: notify keeps every context in exactly one place if and only if what it takes off the sleep heap is the context it unblocked; with one waiter per promise it always does |
| Schedule.TwoWaitersComeApart | src/thread.cpp:515-549 | a state with two waiters on one promise in which notify takes one off the blocked list and the other off the sleep heap |
| Schedule.ExpireAllResult | src/thread.cpp:352-361 | the timeout loop: sleepers that ran out leave both structures, the ready list becomes reverse(timed-out waiters) ++ old ready ++ expired sleepers, and consistency is kept |
| Schedule.ExpireAllDue | src/thread.cpp:336-363 | the same for the contexts whose deadline has come, in deadline order |
| Schedule.StartNextConsistent | src/thread.cpp:222-269 | a switch, with everything that expires before it, keeps every context in exactly one place and adds none but the new ones |
| Schedule.BeginWaitSettled | src/thread.cpp:471-486 | waiting keeps the structures consistent, and one waiter per promise exactly if nobody waited on that promise |
| Schedule.BeginSleepSettled | src/thread.cpp:432-442 | sleeping keeps the structures consistent |
| Schedule.EndConsistent | src/thread.cpp:446-494 | what a context does to itself once it is back keeps them so |
| Completions.ExceptionWins | include/boost/cmt/future.hpp:61-118 | if an exception was set, a single wait throws the last one, whatever values came before or after |
| Completions.LastValueWins | include/boost/cmt/future.hpp:61-118 | without an exception it returns the last value |
| Completions.ValueAfterErrorIgnored | include/boost/cmt/future.hpp:110-118 | a value set after an error nobody consumed changes nothing |
| Completions.FoldReady | include/boost/cmt/future.hpp:62-65 | a promise nobody has waited on is ready exactly if something completed it |
| Completions.PlayIsFold | include/boost/cmt/future.hpp:61-118 | until a blocked wait returns a promise holds the fold of its completions |
| Completions.TookLeavesTheValue | include/boost/cmt/future.hpp:75-80 | a blocked wait that returns clears the error and leaves the value |
| Completions.PlayAfterTook | include/boost/cmt/future.hpp:61-118 | and after it the last exception wins again, and without one the last value, or the value that was left |
| Scheduler.Promise.CheckAndRegister | include/boost/cmt/future.hpp:67-73 | the locked part of wait answers at once exactly if the promise is ready, and otherwise registers the thread |
| Scheduler.Promise.Consume | include/boost/cmt/future.hpp:74-83 | the last part of wait reports the state and clears an error |
| Scheduler.Promise.Notify | src/future.cpp:16-19 | the registered thread is told: by a call on its own thread, else by a post |
| Scheduler.Promise.SetException | include/boost/cmt/future.hpp:103-109 | an error overwrites an error, and the waiter is told |
| Scheduler.Promise.SetValue | include/boost/cmt/future.hpp:110-118 | a value after an error is dropped and nobody is told; otherwise it is stored and the waiter told |
| Scheduler.PushByDeadline | src/thread.cpp:440-442 | pushing keeps the earliest deadline in front, with the same contents |
| Scheduler.PopByDeadline | src/thread.cpp:353-355 | popping takes the front and leaves such a heap |
| Scheduler.MakeByDeadline | src/thread.cpp:546 | rebuilding makes such a heap of any vector |
| Scheduler.FrontIsEarliest | src/thread.cpp:97-101 | the front of the sleep heap has the earliest deadline |
| Scheduler.NextTimeCoversTasks | src/thread.cpp:331-349 | the returned time is no later than every scheduled task if and only if all scheduled tasks share one time or some sleeper precedes them all |
| Scheduler.EarlierTaskOverslept | src/thread.cpp:342-349 | whenever a later task is scheduled and no sleeper is earlier, the returned time misses the earlier task |
| Scheduler.ThreadPrivate.AddToBlocked | src/thread.cpp:138-141 | the context becomes the first of the blocked list |
| Scheduler.ThreadPrivate.ReadyPopFront | src/thread.cpp:142-152 | the first ready context is unlinked, head and tail stay right |
| Scheduler.ThreadPrivate.ReadyPushFront | src/thread.cpp:153-158 | the context becomes the first of the ready list |
| Scheduler.ThreadPrivate.ReadyPushBack | src/thread.cpp:159-167 | the context becomes the last of the ready list |
| Scheduler.ThreadPrivate.Unlink | src/thread.cpp:523-529 | the blocked context at any position leaves, the others keep their order |
| Scheduler.ThreadPrivate.UnblockWaiter | src/thread.cpp:515-538 | the loop over the blocked list moves the first waiter on the promise to the ready front, if there is one |
| Scheduler.ThreadPrivate.RemoveSleeper | src/thread.cpp:541-549 | the first entry of the sleep heap with that promise loses it and leaves the heap, which is rebuilt |
| Scheduler.ThreadPrivate.Notify | src/thread.cpp:502-550 | notify on pointers and heap does what `NotifyResult` does on values, and keeps the structures consistent, whether or not the promise is ready |
| Scheduler.ThreadPrivate.PushSleeper | src/thread.cpp:437-442 | the context joins the sleepers |
| Scheduler.ThreadPrivate.PopSleeper | src/thread.cpp:353-355 | the sleeper with the earliest deadline leaves |
| Scheduler.ThreadPrivate.ExpireFront | src/thread.cpp:353-360 | one pass of the loop: the promise of a timed waiter fails and the context is woken, a sleeper goes to the ready end |
| Scheduler.ThreadPrivate.ExpireDue | src/thread.cpp:352-361 | the loop ends and has expired exactly the contexts with a deadline not after now, earliest first |
| Scheduler.ThreadPrivate.NextTime | src/thread.cpp:342-346 | the earlier of the earliest sleeper and the latest task |
| Scheduler.ThreadPrivate.CheckForTimeouts | src/thread.cpp:336-363 | expires all that is due, fails the promises of exactly the expired waiters, and what it returns |
| Scheduler.ThreadPrivate.JumpToNext | src/thread.cpp:231-263 | switches to the first ready context, or to a new one when none is ready; a rescheduled context goes last |
| Scheduler.ThreadPrivate.StartNextTask | src/thread.cpp:222-269 | the whole switch does what `StartNext` does on values, and leaves every context in exactly one place |
| Scheduler.ThreadPrivate.Wait | src/thread.cpp:464-487 | returns at once if the promise is ready, times out if the deadline has passed, and otherwise blocks the running context and switches; the structures stay consistent |
| Scheduler.ThreadPrivate.WaitAndSwitch | src/thread.cpp:471-487 | the running context blocks and another one runs, every context in exactly one place afterwards |
| Scheduler.ThreadPrivate.FinishWait | src/thread.cpp:490 | a context that is back has a null promise pointer; the structures stay consistent |
| Scheduler.ThreadPrivate.SleepUntil | src/thread.cpp:426-445 | the running context joins the sleepers and another one runs, every context in exactly one place afterwards |
| Scheduler.ThreadPrivate.FinishSleep | src/thread.cpp:449 | a context that is back has the greatest deadline; the structures stay consistent |
| Scheduler.ThreadPrivate.Yield | src/thread.cpp:578-580 | the running context goes to the end of the ready list and the next one runs, every context in exactly one place afterwards |
| Runs.ContextsConserved | src/thread.cpp:138-550 | after every step of every run, late notifies and repeated waits on one promise included, each context is in exactly one place, none is lost, the lists have no duplicates, and the sleep heap meets the blocked list in exactly the waiters with a deadline |
| Runs.NoSpuriousReturn | src/thread.cpp:426-494 | in every run a sleep returns only when its time has come and a wait reports a timeout only after its deadline; a wait throws `future_value_not_ready` exactly if nothing completed its promise since it began, and never if each promise is waited on once |
| Runs.WakesForAReason | src/thread.cpp:336-363 | in every run a suspended context is made ready only for its own reason: a sleeper at its deadline, a waiter by a notify of the very promise it is blocked on or at its deadline; if each promise is waited on once, that promise then has a value or an error |
| Runs.AwakeForAReason | src/thread.cpp:464-550 | in every run, whoever is awake inside a wait was woken since that wait began, by a notify that found it blocked or by its deadline; what ended an earlier wait on the same promise does not count |
| Runs.RunInv | src/thread.cpp:222-550 | every step of every run keeps the structures consistent, each suspended context where its call put it, and each awake sleeper past its time; nobody else is inside a wait on the same promise, and the promise of a wait is ready exactly if it was completed since the wait began |
| Runs.RunAnswers | include/boost/cmt/future.hpp:67-101 | if each promise is waited on once, a completed promise has an answer until its wait returns |
| Runs.StateIsPlay | include/boost/cmt/future.hpp:61-118 | in every state of every run each promise holds exactly what its completions, timeouts and returned waits come to, in their order |
| Runs.FirstWaitReportsTheFold | include/boost/cmt/future.hpp:74-83 | over whole runs a first wait throws the last exception set before it returned, timeouts included, and without one returns the last value; the value stays, an error goes |
| Runs.SecondWaitFindsNothing | include/boost/cmt/future.hpp:74-81 | a run, with two errors and a second wait, in which a wait is woken and finds neither value nor error |
| Turns.YieldRotates | src/thread.cpp:578-580 | a yield moves the context behind everybody ready by then and touches nothing else |
| Turns.YieldGivesWay | src/thread.cpp:222-263 | from any consistent state, whatever expires, a yield has another context run and leaves the yielding one ready; with nobody ready the other one is new |
| Turns.ManyYields | src/thread.cpp:222-246 | for every k, k yields turn the line by k modulo its length, from any consistent state with somebody ready |
| Turns.TurnsConsistent | src/thread.cpp:222-494 | every state that yields, sleeps and waits lead to from a consistent one is consistent |
| Turns.NobodyOvertakes | src/thread.cpp:142-167 | from any consistent state, whether the contexts yield, sleep or wait, with sleepers waking on the way: those ahead of one that gives way, then those that woke with it, then it if it yielded, run in order; later arrivals overtake none of them |
| Turns.SwitchToSelf | src/thread.cpp:231-234 | a suspending context is itself the next one exactly if it expired in that call and is the last waiter to time out, or the first sleeper with nobody else ready |
| Turns.SleeperSwitchesToSelf | src/thread.cpp:231-234 | a context that sleeps until 3 at the time 5 is itself the next one |
| Tasks.TaskQueues.Post | src/thread.cpp:624-629 | a successful exchange puts the task in front of the chain |
| Tasks.TaskQueues.Enqueue | src/thread.cpp:179-194 | walks the chain into the two heaps by the clock, as multisets, both staying heaps |
| Tasks.TaskQueues.Dequeue | src/thread.cpp:195-215 | empties the inbox and hands out a task that is never before its time; the scheduled heap is served if and only if it holds a task and every task in it is due, and then with a latest one |
| Tasks.TaskQueues.FrontIsLatest | src/thread.cpp:173-177 | the front of the scheduled heap is a latest task |
| Tasks.TaskQueues.FrontIsBest | src/thread.cpp:168-172 | the front of the other is one with the highest priority, and among those the first posted |
| Tasks.ChainSplit | src/thread.cpp:179-194 | sorting a chain loses nothing, doubles nothing and misplaces nothing |
| Tasks.DueTaskPassedOver | src/thread.cpp:201-208 | with one task due and a later one scheduled dequeue hands out nothing |
| Dispatch.SortedUnique | include/boost/cmt/task.hpp:17-32 | priority and order of posting leave one way to sort |
| Dispatch.BatchOrderIrrelevant | src/thread.cpp:179-198 | that the inbox hands over a batch reversed makes no difference |
| Dispatch.HeapRefinesSorted | src/thread.cpp:179-215 | for any interleaving of batches and takes a heap hands out what a sorted queue would, for any total order |
| Dispatch.TakenTask | src/thread.cpp:209-213 | the task that dequeue takes from the priority heap has the highest priority, and the lowest number among equals, of all that was in it |
| Dispatch.TaskDispatchOrder | src/thread.cpp:168-192 | of tasks with different numbers a heap run hands out what the queue sorted by priority, then by number, would |
| Dispatch.DequeueIsHeapRun | src/thread.cpp:179-215 | any calls of dequeue, over any inbox chains, are a run of the heap, and its outputs are the results of the calls that do not serve the scheduled heap |
| Dispatch.DequeueOrder | src/thread.cpp:168-215 | so those calls return what a queue would that is sorted by priority and then by order of posting and gets every batch in the order of posting, although the inbox hands it over reversed |
| Dispatch.TasksNeverTie | include/boost/cmt/task.hpp:28-32 | different tasks with different numbers never tie |
| Inbox.RunInv | src/thread.cpp:624-636 | in every interleaving with failing and spuriously failing exchanges the chain is well formed, tasks are conserved, the mutex is exclusive and nothing is left unannounced |
| Inbox.ExactlyOnce | src/thread.cpp:179-215 | a task that was pushed is in exactly one place: inbox, chain being sorted, heaps or dequeued |
| Inbox.NothingLost | src/thread.cpp:195-215 | once nothing is under way, what was dequeued is what was posted, each once |
| Inbox.NoLostWakeup | src/thread.cpp:313-324 | while the owner is parked and unsignalled with a task in the inbox, another thread has done its exchange and has still to notify |
| Inbox.OwnerNeverNotifies | src/thread.cpp:631-634 | that thread is never the owner |
| Inbox.InboxIsReversed | src/thread.cpp:626-629 | the inbox holds the latest posts, the last one first |
| Inbox.RetryCanSucceed | src/thread.cpp:626-629 | a failed exchange has read the head again: with nobody in between the retry pushes the task |
| Inbox.FirstTryCanSucceed | src/thread.cpp:626-629 | and so does the first try after the load |
| Inbox.PostCanLand | src/thread.cpp:624-629 | from any point of any run a post under way can be brought to its end by its own thread alone |
| Inbox.EveryTaskCanBeDequeued | src/thread.cpp:195-215 | from any point of any run, whatever the threads are in the middle of, every task begun to be posted can still be dequeued |
| Inbox.PostWakesTheOwner | src/thread.cpp:313-324 | a run in which the owner parks and only the post of another thread wakes it |
| PromiseProtocol.RunInv | include/boost/cmt/future.hpp:67-118 | the invariant of the protocol, over all interleavings of one untimed wait and any number of setters |
| PromiseProtocol.NoLostWakeup | src/thread.cpp:464-508 | while the context is blocked on a ready promise, a setter is between its write and its notify, or a notify is posted and has not run |
| PromiseProtocol.QuiescentMeansWoken | src/future.cpp:6-19 | once all setters and notifies are through, a completed promise has no blocked waiter |
| PromiseProtocol.OutcomeIsFold | include/boost/cmt/future.hpp:61-118 | in every run the wait reports the last exception set before it resumed, else the last value, never `future_value_not_ready` |
| PromiseProtocol.ReadyWhenNotified | src/future.cpp:16-19 | the asserted readiness fails exactly if the waiter has consumed an error, nothing completed the promise since, and no value came before the error |
| PromiseProtocol.NotifyMayFindNotReady | src/thread.cpp:502-508 | a run, with two exceptions, in which the assertion fails |
| PromiseProtocol.WaitCanFinish | src/thread.cpp:464-508 | from any point of any run, the wait can finish without another completion if and only if it has finished or the promise has been completed |
| PromiseProtocol.NotifiesAddUp | src/thread.cpp:502-508 | one notify is posted for each setter on another thread that finds a registered waiter, and each runs at most once |
| PromiseProtocol.OnlyIgnoredValuesAreSilent | include/boost/cmt/future.hpp:103-118 | every completion is told except a value after an unconsumed error, which changes nothing |
| PromiseProtocol.BlocksOnlyUnready | src/thread.cpp:467 | a wait blocks only after both checks have found the promise not ready |
| SocketWriter.NextKeeps | src/asio/tcp/socket.cpp:145-200 | every step keeps the discipline of the two buffers and the bytes in order |
| SocketWriter.AcceptKeeps | src/asio/tcp/socket.cpp:176-200 | a write keeps them too, and never touches the buffer in flight |
| SocketWriter.RunInv | src/asio/tcp/socket.cpp:145-200 | so in every interleaving the filling index is the other one than the loop's, the loop has something to send, and sent ++ in flight ++ filling is all that was accepted |
| SocketWriter.WriterIsFifo | src/asio/tcp/socket.cpp:145-200 | what was sent is a prefix of what was accepted, also after an error; without one, of what was written; and the loop stops, both buffers empty and the pointer null, exactly when all is sent |
| SocketWriter.AllAccepted | src/asio/tcp/socket.cpp:176-200 | without a transport error every write is accepted in full, in order |
| SocketWriter.WriteTakesAllOrNothing | src/asio/tcp/socket.cpp:176-200 | in every run a write that throws leaves everything as it was, and any other takes all of its data |
| SocketWriter.SentExactly | src/asio/tcp/socket.cpp:145-200 | in every run, also after errors, the bytes sent are, of the data of the writes that did not throw, the first so many as the transport reported |
| SocketWriter.SentGrows | src/asio/tcp/socket.cpp:155-160 | what the transport took stays taken |
| SocketWriter.InFlightUntouched | src/asio/tcp/socket.cpp:176-187 | whatever is written while the loop waits, the buffer it is sending stays as it was |
| SocketWriter.BrokenForGood | src/asio/tcp/socket.cpp:177-193 | after a transport error nothing more is ever sent, whatever a flush does to the error |
| SocketWriter.AcceptedNeverSent | src/asio/tcp/socket.cpp:176-213 | a run in which a flush waits, the transport fails, the flush clears the error and a write is accepted: neither it nor anything else is sent in any continuation |
| SocketWriter.Drain | src/asio/tcp/socket.cpp:149-173 | from any point of any run without a failed loop, a transport that takes what it is given has everything accepted sent and the loop stopped |
| SocketWriter.CanBeSent | src/asio/tcp/socket.cpp:149-200 | some continuation sends everything accepted so far if and only if the loop has not failed or nothing is left to send |
| SocketWriter.LoopIsRun | src/asio/tcp/socket.cpp:149-173 | what the loop does between the writes of others is a run of the writer's events that performs all their writes, in order, up to where it stops; it stops early only when it is through or has failed |
| SocketWriter.WriteSide.Write | src/asio/tcp/socket.cpp:176-200 | throws and changes nothing while the loop's error is set, takes nothing for size 0, and otherwise takes all bytes, starting a loop if none is live |
| SocketWriter.WriteSide.Flush | src/asio/tcp/socket.cpp:210-213 | returns when no loop is live, throws an error that is there, and otherwise blocks |
| SocketWriter.WriteSide.FlushFails | include/boost/cmt/future.hpp:75-79 | a flush that blocked throws the error of the loop and clears it |
| SocketWriter.WriteSide.TurnOver | src/asio/tcp/socket.cpp:162-171 | the sent buffer is emptied and the loop goes on with the other one, or stops |
| SocketWriter.WriteSide.SendBuffer | src/asio/tcp/socket.cpp:151-161 | the inner loop sends one buffer whole, however little the transport takes at a time |
| SocketWriter.WriteSide.WriteLoop | src/asio/tcp/socket.cpp:149-173 | for every script of the transport and of other writers: all writes of the turns used are accepted in order, the transport has taken a prefix, everything if the loop has finished, and it ends finished with both buffers empty, thrown out by the turn that failed, or still waiting at the end of the script |
| SocketReader.ReadSide.TakeHeld | src/asio/tcp/socket.cpp:100-110 | copies held bytes to the front of the caller's buffer, byte for byte, moves on, and empties a buffer used up |
| SocketReader.ReadSide.Receive | src/asio/tcp/socket.cpp:117-128 | puts the next bytes of the socket into the caller's buffer at a place, byte for byte, and touches no other |
| SocketReader.ReadSide.UseHeld | src/asio/tcp/socket.cpp:95-114 | takes the smaller of what is held and what is asked if an int can count it, and is done exactly if that is enough |
| SocketReader.ReadSide.Fetch | src/asio/tcp/socket.cpp:117-128 | takes the rest from the socket, and reads ahead all that is available if that is more |
| SocketReader.ReadSide.Read | src/asio/tcp/socket.cpp:95-128 | fills the caller's buffer, byte for byte, with exactly the next `size` bytes of the stream, touches no other byte of it, and leaves the rest in order, with so much read ahead as was available; at the end of the stream it throws; the count is lost exactly if 2^31 bytes or more would be copied from the read-ahead buffer |
| SocketReader.RunInv | src/asio/tcp/socket.cpp:95-128 | over any reads, each as `ReadSide.Read` is proved to be: delivered ++ held ++ unread is the incoming stream, for all sizes and all answers of available() |
| SocketReader.ReaderRefinesPlain | src/asio/tcp/socket.cpp:95-128 | over any such reads the reader has returned what a reader without a buffer would have |
| SocketStream.EndToEnd | src/asio/tcp/socket.cpp:95-200 | what was read is a prefix of what was accepted and the rest is on its way in order, also after an error; without one, of what was written, and all of it when nothing is on its way |
| SocketStream.EachReadIsAPiece | src/asio/tcp/socket.cpp:95-200 | the n bytes one read returns are the n bytes written at that place of the stream |
| SocketStream.CanBeRead | src/asio/tcp/socket.cpp:95-200 | some continuation has everything accepted so far read on the other side if and only if the writer's loop has not failed or nothing is left to send |
| SocketStream.Projection | src/asio/tcp/socket.cpp:149-200 | the writer's part of a run of both sides is a run of the writer |

## Left out

- Runs.NoSpuriousReturn: that a wait never throws `future_value_not_ready` is stated for promises waited on once, and `Runs.SecondWaitFindsNothing` shows why; two contexts inside a wait on one promise at the same time do not occur in a run.
- Runs.WakesForAReason: errors set by callers are not `future_wait_timeout`, so that a reported timeout is the scheduler's own; a notify may come for any promise completed before, which is more than the code posts.
- Schedule.ExpireAllResult: assumes one waiter per promise, the case for which the code is written; what notify needs in general is the weaker condition in `Schedule.NotifySettled`.
- SocketWriter.WriteSide.Flush: one flush waits at a time; a flush that blocks after an error was cleared waits for ever, as in the code.
- Turns.NobodyOvertakes: nobody notifies and no wait times out meanwhile; both put a context at the front of the ready list.
- SocketReader.ReadSide.UseHeld: stops where the count in an int is lost; the code goes on to copy.
- SocketReader.ReadSide.Read: when the count in an int is lost (`SocketReader.CountSurvives`) the result says so and what the code then does is not modelled: a negative count goes to memcpy, a truncated one leaves held bytes behind.
- SocketWriter.WriteSide.WriteLoop: the inner loop's body and the outer loop's body are methods of their own, and when the script of the transport is used up the method returns with the loop still waiting.
- Dispatch.DequeueOrder: posting numbers are assumed different; the counter they come from is not atomic.
- PromiseProtocol.NoLostWakeup: the waiter is untimed, and the promise's mutex is an atomic critical section; what the library's own mutex does under contention is not modelled.
- `process_tasks` as a loop (its dequeues and its parking are in `Inbox`, its timeouts and switches in `Runs`), and liveness of ready contexts or scheduled tasks: it can park while a context is ready and with a timeout that is out of date.
- `thread::quit` and shutdown: it walks the blocked list through `next` while that is being relinked, so the invariants do not hold across it.
- Cancellation of tasks and contexts, and exceptions thrown out of a switch.
- `read_some` of the socket, which assigns `read_pos` where it would have to advance it.
- `promise::set_timeout` and the disabled `blocking_promise`, which nothing calls.
- Several contexts reading one socket at the same time.
- `rtask::run`, futures as handles, and reference counts (`retainable`).
- Overflow in `now + timeout`; times are integers with a least and a greatest value.
- Weak memory orders of the atomics.
- `spin_lock`, `mutex`, strands, actors, delegates and signals, the socket's stream buffer, acceptor, resolver, UDP, ASIO itself, stacks and `fcontext` jumps, logging.
