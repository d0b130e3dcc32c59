# Small async runtimes and actor protocols, verified

Each group of files models one of the repository's hand-written runtimes as a state
machine whose steps lie between the points where the source takes or releases a lock,
sends on a channel, suspends, or makes a system call; proves what holds after every run
of that machine, for every interleaving; and gives the source's own loops and methods as
imperative Dafny, proved either equal to the specification functions or to be runs of the
machine.

| files | what they model |
|---|---|
| `EpollIo`, `EpollSelector`, `EpollMachine`, `EpollProofs`, `EpollTheorems`, `EpollProgress`, `EpollExecutor` | the epoll selector thread, the task executor, the accepting and echoing tasks, and the kernel's interest list, with descriptor reuse |
| `KeyValueModel`, `KeyValueMachine`, `KeyValueLog`, `KeyValueDriving`, `KeyValueExact`, `KeyValueTheorems`, `KeyValueActors` | the key-value actor, its writer and the data file over any number of Resets |
| `ParkModel`, `ParkTheorems`, `ParkDispatcher` | the park/unpark dispatcher and its three workers |
| `Futures`, `WakeModel`, `WakeTheorems`, `WakeExecutor` | the wake-driven executor |
| `RoundRobinSpec`, `RoundRobin` | the round-robin executors and their completion times |
| `EventBusModel`, `EventBusTheorems`, `EventBus` | the event bus and its garbage collector |
| `ThermostatModel`, `ThermostatTheorems`, `Thermostat` | the three thermostat pollers |
| `StealingModel`, `StealingTheorems`, `Stealing` | the two-queue work-stealing runtime |
| `CodecModel`, `CodecText`, `CodecTheorems`, `Codec` | the binary record format and the chunked TCP receiver |
| `LinesModel`, `LinesTheorems`, `LineCoroutines` | the coroutine that reads numbers from a file and the one that writes them to another |

## Assumptions

Channels are FIFO and mutexes exclude one another. The kernel reports an armed, readable
descriptor (level-triggered) and disarms a one-shot entry when it reports it; a
registration belongs to the pair of descriptor number and open file, and disappears with
the file's last descriptor. What the network, the clock and the scheduler do is left to
the environment: their answers are action parameters, chosen freely at every step. JSON
encoding and decoding are inverse, and a strict prefix of a text cannot be read. A
future's outcome depends on the task and on how often it was polled; a future that reads a
clock or a socket is such a future in any one run.

## What turned out not to hold

* **Epoll server, task bound.** No send on the task channel blocks while at most 1024
  tasks are unfinished, and no spawn with 1025 (`SendsNeverBlock`). Both bounds are exact:
  with 1025 tasks a wake can block (`WakeBlocks`), and with 1026 the executor deadlocks
  on the channel that only it drains (`BurstDeadlocks`). For any number of tasks, a spawn
  into the full channel is the only deadlock there is (`StalledIff`), and both threads can
  finish all there is to do if and only if the executor is not bound to send more tasks
  than the channel has room for before it receives again (`ProgressIff`).
* **Key-value store, recovery.** The router does not wait for the old writer, and
  `File::create` empties the file: an acknowledged write, or the whole stored table, can
  be lost (`UndrainedResetLosesWrite`, `UnansweredGetLosesFile`). The exact condition
  when the serving side's writer loads the file: no older actor may answer any more, and
  the table in the file treats the queued requests like the acknowledged table and is
  equal to it afterwards; with nothing queued, the file holds the acknowledged table
  (`LoadIsExact`, an if-and-only-if over all continuations). If every load finds the
  older actors stopped and the acknowledged table in the file, any run with any number of
  Resets refines one table (`ResetsRefineOneTable`); waiting until every older actor has
  stopped and every older writer has answered its opening Get, emptied its channel and
  finished writing is enough for that (`QuietResetsRefineOneTable`), but more than is needed
  (`QuietIsNotNeeded`).
* **Park/unpark.** A connection can be left in a parked worker's channel
  (`WindowStrands`): exactly those sent, and their flag checked, between the failing
  `try_recv` and the flag store (`ParkedLeavesItsWindow`), and only until the next
  connection for that worker (`NextConnectionRescues`).
* **Key-value store, file.** While two writers are at work on the file, one writes in place
  over what the other has written, and the file may read as a table that neither has
  (`OverlapLeavesAnything`). It holds a prefix of its last writer's writes as long as no
  writer writes after another has touched the file it emptied (`ExclusiveFileIsAPrefix`).
* **Thermostat.** Being within 3 of the desired value after the display has acted does not
  mean staying there, for two reasons. The first: even when the display is polled between
  any two changes and at most two losses come before each tick, the losses can take the
  temperature out of the band (`BandIsLeft`, from the source's own start). The second:
  the heater loads the switch before it adds, and the display may turn the heater off in
  between; then a temperature already above the desired value rises by 3 more
  (`LateAddLeavesBand`, also from the source's start, to 5 above). So the discipline asks
  in addition that the display had acted on the temperature when the heater loaded the
  switch for the poll in which it adds. Under it the band is kept if and only if the heater
  is off or `temp + losses >= desired - 1`, and a heater about to add does not find the
  temperature above the desired value (`BandKeptIff`).
* **Event bus.** An id dropped between the collector's clone and its clear leaks: its queue
  stays, and keeps growing, until the id is used again (`DropDuringCollectionLeaks`,
  `MissedUntilReused`), so for good before the ids wrap around (`MissedForever`). After
  2^32 subscriptions ids are used again. That does no harm, in runs of any length, as long
  as the id belongs to no live handle and to no dropped one still to be collected
  (`ChamberIsExact`, `EveryEventOnce`); otherwise a poll can panic, and this condition is
  exact (`ReuseIsExact`).
* **Codec.** The length is cast to u32, so a string of 2^32 bytes or more never reads back
  (`RoundTripIff`).

## Model

| member | source | states |
|---|---|---|
| EpollTheorems.OneTokenPerTask | kohno_book_chap5/io_multiplexing.rs:65-122 | after every run of both threads, the tasks and the kernel, each unfinished task has exactly one wake token (task channel, current poll, queued ADD, waker map, or wake being sent) and a finished task none; the `assert!` at 79, the `unwrap` at 111 and the panic at 74 never happen; the eventfd counts the queued requests whenever the queue lock is free |
| EpollTheorems.PolledInOrder | kohno_book_chap5/io_multiplexing.rs:256-292 | in every run the executor polls the tasks in the order in which they were spawned or woken, and the rest is in the channel |
| EpollTheorems.SleeperIsWatched | kohno_book_chap5/io_multiplexing.rs:66-80 | a task in the waker map owns the open descriptor it is filed under, and that descriptor is armed if and only if its event is not in the batch being handled |
| EpollTheorems.RemoveDiscardsNoWaker | kohno_book_chap5/io_multiplexing.rs:83-87 | performing any queued REMOVE, in any reachable state, changes no waker and disarms no descriptor, although the number may already belong to a newer connection |
| EpollTheorems.ReadNeverBlocks | kohno_book_chap5/io_multiplexing.rs:98-108 | once the queue is drained the eventfd counter is positive, so the selector's `read` does not block |
| EpollTheorems.SendsNeverBlock | kohno_book_chap5/io_multiplexing.rs:257-309 | with at most 1024 unfinished tasks the wake on the selector's thread, and with at most 1025 the spawn on the executor's thread, finds room in the task channel |
| EpollTheorems.StalledIff | kohno_book_chap5/io_multiplexing.rs:89-116 | after every run, with any number of tasks: neither thread can move if and only if both wait with no request queued and every unfinished task asleep on an armed descriptor with nothing to read, or the executor spawns into a full channel and the selector waits too |
| EpollTheorems.StalledMeansNothingToDo | kohno_book_chap5/io_multiplexing.rs:271 | with at most 1025 unfinished tasks only the first of these is possible: no deadlock and no lost wakeup |
| EpollTheorems.BatchNeverFails | kohno_book_chap5/io_multiplexing.rs:95-115 | in every reachable state in which a batch is being handled and the queue lock is free, for any number of tasks, `select` handles the rest of the batch without a panic and without blocking on the eventfd |
| EpollTheorems.SelectNeverFails | kohno_book_chap5/io_multiplexing.rs:95-115 | from such a state with at most 1024 unfinished tasks, what `select` computes is what the selector thread's atomic steps do one after the other |
| EpollProgress.ProgressIff | kohno_book_chap5/io_multiplexing.rs:89-116 | after every run, with any number of tasks: the two threads have a continuation without the network to a state with nothing to do, if and only if the executor is not bound to send more tasks than the channel has room for before it receives again |
| EpollProgress.FewTasksProgress | kohno_book_chap5/io_multiplexing.rs:268-309 | with at most 1024 unfinished tasks there always is such a continuation |
| EpollProgress.DoomedForever | kohno_book_chap5/io_multiplexing.rs:301-309 | an executor so bound stays so until the network does something |
| EpollTheorems.FullSpawnIsForever | kohno_book_chap5/io_multiplexing.rs:301-309 | an executor that spawns into a full channel never moves again, in any continuation |
| EpollTheorems.BurstDeadlocks | kohno_book_chap5/io_multiplexing.rs:268-309 | a run from `main` with 1025 connections that ends in such a deadlock |
| EpollTheorems.WakeBlocks | kohno_book_chap5/io_multiplexing.rs:256-261 | a run from `main` with 1025 tasks in which the selector's wake finds the channel full |
| EpollTheorems.RunInv | kohno_book_chap5/io_multiplexing.rs:312-339 | the conjunction of the file, token, waker, queue and counter invariants is kept by every run |
| EpollProofs.StepInv | kohno_book_chap5/io_multiplexing.rs:65-309 | every atomic step of the executor, the selector, the tasks and the network keeps the invariant |
| EpollProofs.PushRemoveQueue | kohno_book_chap5/io_multiplexing.rs:215-219 | when a reader is dropped, no waker and no earlier ADD for its descriptor number can exist |
| EpollProofs.PerformAddSafe | kohno_book_chap5/io_multiplexing.rs:65-81 | the ADD at the head of the queue names an open descriptor of its own task that has no waker, so the `assert!` and `epoll_ctl` succeed |
| EpollProofs.HitsAreDistinct | kohno_book_chap5/io_multiplexing.rs:94-95 | the descriptor numbers one `epoll_wait` reports are distinct and each has a waker, although interest entries are keyed by number and file |
| EpollIo.HandleBatchSnoc | kohno_book_chap5/io_multiplexing.rs:97-114 | handling a batch event by event is handling its front and then its last event |
| EpollIo.FailureSticks | kohno_book_chap5/io_multiplexing.rs:97-114 | a panic or a blocked read in the middle of a batch ends it |
| EpollIo.PerformAllFails | kohno_book_chap5/io_multiplexing.rs:65-81 | performing the queued requests panics if and only if some ADD finds its descriptor closed, or with a waker from before or from an earlier ADD with no REMOVE in between |
| EpollIo.LastRequestDecides | kohno_book_chap5/io_multiplexing.rs:98-105 | otherwise the last request for a descriptor decides: after an ADD its waker is that task and it is armed, after a REMOVE it has no waker and no entry |
| EpollIo.UnaskedStays | kohno_book_chap5/io_multiplexing.rs:98-105 | descriptors without a request keep waker and entries, the queue is empty afterwards, and nothing is opened or closed |
| EpollSelector.IOSelector.constructor | kohno_book_chap5/io_multiplexing.rs:49-63 | no wakers, no requests, a zero eventfd that is registered and armed |
| EpollSelector.IOSelector.AddEvent | kohno_book_chap5/io_multiplexing.rs:65-81 | fails exactly on a closed descriptor or an occupied waker slot; else arms (or re-arms) the entry and files the waker |
| EpollSelector.IOSelector.RmEvent | kohno_book_chap5/io_multiplexing.rs:83-87 | removes the entry of the file now behind the number, if any, and its waker; a failing `epoll_ctl` is ignored |
| EpollSelector.IOSelector.DrainQueue | kohno_book_chap5/io_multiplexing.rs:98-108 | the inner loop performs all requests in FIFO order and clears the eventfd, or reports the panic or the blocking read |
| EpollSelector.IOSelector.Select | kohno_book_chap5/io_multiplexing.rs:95-115 | the loop over one batch computes the whole new state and the wakes sent, in order; it fails exactly when some event fails |
| EpollSelector.IOSelector.Register | kohno_book_chap5/io_multiplexing.rs:118-122 | appends an ADD and adds one to the eventfd, nothing else |
| EpollSelector.IOSelector.Unregister | kohno_book_chap5/io_multiplexing.rs:124-128 | appends a REMOVE and adds one to the eventfd, nothing else |
| EpollExecutor.Executor.constructor | kohno_book_chap5/io_multiplexing.rs:312-337 | `main` starts in the machine's start state |
| EpollExecutor.Executor.Suspend | kohno_book_chap5/io_multiplexing.rs:176-189 | WouldBlock registers and returns Pending: a run of the machine that leaves the channel alone |
| EpollExecutor.Executor.DropReader | kohno_book_chap5/io_multiplexing.rs:215-219 | the REMOVE is queued before any descriptor is closed |
| EpollExecutor.Executor.CloseSockets | kohno_book_chap5/io_multiplexing.rs:194-198 | then the reader's and the writer's descriptors are closed and the task is gone |
| EpollExecutor.Executor.PollConnection | kohno_book_chap5/io_multiplexing.rs:225-247 | one poll of a connection's task consumes all ready lines and one more answer, ends the task exactly if that answer is the end of the connection, touches no other task, and is a run of the machine |
| EpollExecutor.Executor.Accept | kohno_book_chap5/io_multiplexing.rs:163-175 | an accepted stream and its clone become a new task with the next number; the server's task is unchanged |
| EpollExecutor.Executor.Arrive | kohno_book_chap5/io_multiplexing.rs:94-95 | data or a connection arrives at an open file; a step of the machine |
| EpollExecutor.Executor.Send | kohno_book_chap5/io_multiplexing.rs:301-309 | the new task joins the back of the channel exactly if there is room, and is otherwise stuck with more than 1025 tasks |
| EpollExecutor.Executor.AcceptNext | kohno_book_chap5/io_multiplexing.rs:320-334 | one turn of the server's loop: a connection is accepted if and only if one is pending and the answer is two unused descriptors of an unused file |
| EpollExecutor.ServesAtLeastOne | kohno_book_chap5/io_multiplexing.rs:320-325 | a poll that finds a connection pending spawns at least one task |
| EpollExecutor.Executor.PollServer | kohno_book_chap5/io_multiplexing.rs:317-334 | one poll of the server: every answer before the last is a connection and becomes the next task, with its own descriptors, in order, each sent to the back of the channel; it returns Pending only on an answer that is missing or that `accept` cannot give, so a pending connection is accepted; it blocks only with the channel full and more than 1025 tasks, with just the last task unsent; every other task is unchanged |
| EpollExecutor.Executor.Listen | kohno_book_chap5/io_multiplexing.rs:140-145 | the server's first poll binds the listener if and only if the answer is an unused descriptor of an unused file; its state is then exactly that of the step, and otherwise unchanged |
| EpollExecutor.Executor.PollTask | kohno_book_chap5/io_multiplexing.rs:286-290 | one poll of a task: the server binds and serves, or goes on serving; a connection is read |
| EpollExecutor.Executor.RunTask | kohno_book_chap5/io_multiplexing.rs:285-290 | one turn of the loop: the first task of the channel is received and polled |
| EpollExecutor.Executor.RunTasks | kohno_book_chap5/io_multiplexing.rs:284-292 | the executor's loop is a sequence of such turns, each polling the first task of the channel, and a run of the machine; it empties the channel, unless binding is refused, or a spawn blocks with more than 1025 tasks; it stops in the first poll of the server only after a refused bind |
| EpollExecutor.Executor.SelectorTurn | kohno_book_chap5/io_multiplexing.rs:95-115 | after any such execution with at most 1024 unfinished tasks, handling any batch `epoll_wait` may report succeeds and leaves the state the machine reaches |
| KeyValueTheorems.LogReplicates | chap8/key_value_store_actor_model.rs:64-89 | in every run, for every actor: the writes sent to its writer are its acknowledged writes in order; its map is the writer's map with the queued messages applied; its requests are answered in routed order, the rest being pending or dropped when it stopped |
| KeyValueTheorems.FileIsAPrefix | chap8/key_value_store_actor_model.rs:160-184 | in every run the file is torn, or what overlapping rewrites have left, or exactly the encoding of the table its last writer loaded with a prefix of that writer's writes applied; before any write it is untouched |
| KeyValueTheorems.PrefixByLastWrite | chap8/key_value_store_actor_model.rs:160-184 | such a file holds under each key what the last of the kept writes to it left |
| KeyValueTheorems.ExclusiveFileIsAPrefix | chap8/key_value_store_actor_model.rs:179-183 | in runs in which no writer writes while or after another has touched the file it emptied, the file is torn or holds such a prefix |
| KeyValueTheorems.OverlapLeavesAnything | chap8/key_value_store_actor_model.rs:179-183 | a run in which two writers at work on the file leave any given table in it |
| KeyValueExact.LoadIsExact | chap8/key_value_store_actor_model.rs:107-161 | when the writer of the side the router sends to loads the file, in any reachable state whose answers so far are those of one table: the answers of all continuations up to the next load are still those of that table if and only if no older actor may answer and the file's table treats the queued requests like the acknowledged table and equals it afterwards; with nothing queued and the older actors stopped, if and only if the file holds the acknowledged table |
| KeyValueExact.ExactlySound | chap8/key_value_store_actor_model.rs:52-121 | the same for every reachable state in which the newest side has its table, or at most one side may answer at all: the answers are kept in all continuations without a load if and only if they are right so far and the one side that may still answer fits them |
| KeyValueExact.GoodLoadsRefineOneTable | chap8/key_value_store_actor_model.rs:52-121 | if every load in a run is of that kind, all answers of the run are those of one table |
| KeyValueExact.TwoContradict | chap8/key_value_store_actor_model.rs:109-114 | whenever an older actor with a pending request and the newest actor can both answer, some continuation gives an answer no single table gives |
| KeyValueTheorems.ResetsRefineOneTable | chap8/key_value_store_actor_model.rs:99-120 | if every load by an actor that may answer finds the older actors stopped and the acknowledged table in the file, then over any number of Resets all answers are those of one table started from the file, requests take effect in router order side after side, and the serving actor holds that table |
| KeyValueTheorems.QuietResetsRefineOneTable | chap8/key_value_store_actor_model.rs:107-116 | that is so if each writer loads the file only when every older actor has stopped and every older writer has answered its opening Get, emptied its channel and finished writing |
| KeyValueTheorems.RefinedByLastWrite | chap8/key_value_store_actor_model.rs:64-121 | in such runs each Get, whichever actor answers it, finds what the last acknowledged Set or Delete of its key left, and the stored entry if there is none; and so does the serving actor's map |
| KeyValueTheorems.QuietIsNotNeeded | chap8/key_value_store_actor_model.rs:107-116 | a run to a load that finds the acknowledged table although the old writer has not emptied its channel |
| KeyValueTheorems.UndrainedResetLosesWrite | chap8/key_value_store_actor_model.rs:107-116 | a run in which an acknowledged Set still queued at a Reset is lost |
| KeyValueTheorems.UnansweredGetLosesFile | chap8/key_value_store_actor_model.rs:160-161 | a run in which a Reset before the opening Get is answered loses the stored table |
| KeyValueTheorems.StepRecovered | chap8/key_value_store_actor_model.rs:52-191 | every orderly step keeps the recovery invariant: older sides quiet, newer sides not loaded, file and log of the loaded side agreeing with the answers |
| KeyValueTheorems.SideBySide | chap8/key_value_store_actor_model.rs:107-114 | answers that never go back to an older side are, in order, the first side's answers, then the second's, and so on |
| KeyValueLog.StepInv | chap8/key_value_store_actor_model.rs:52-191 | every step of router, actors and writers keeps the replication invariant, orderly or not |
| KeyValueActors.KeyValueActor.Handle | chap8/key_value_store_actor_model.rs:66-83 | logs exactly the writes, answers from the map before the request, and applies it: a Set or Delete changes its own key and no other, a Get nothing; these are the actor's steps of the machine |
| KeyValueActors.KeyValueActor.Serve | chap8/key_value_store_actor_model.rs:64-89 | the loop answers every request once, in order, and logs exactly the writes; each Get is answered by the last earlier Set or Delete of its key, or by the table it started from if there is none, and the final table holds under each key what its last write left; with the writer catching up in between it is a run of the machine with the same answers |
| KeyValueActors.AnsweredByLastWrites | chap8/key_value_store_actor_model.rs:70-82 | any answers of one table to a list of requests obey this law of the last write |
| KeyValueModel.AnswersFromIff | chap8/key_value_store_actor_model.rs:70-82 | a run's answers are those of one table if and only if each Get is answered by the last acknowledged write of its key before it |
| KeyValueActors.RepliesAnswer | chap8/key_value_store_actor_model.rs:70-82 | the replies to any list of requests are those of one table, which ends as the actor's map |
| KeyValueActors.WriterActor.constructor | chap8/key_value_store_actor_model.rs:145-161 | the map is the stored table or empty, and the file is empty; the machine's steps of a load |
| KeyValueActors.WriterActor.Handle | chap8/key_value_store_actor_model.rs:168-183 | a logged Set or Delete changes its own key and no other, a Get is answered with the map, and the file is rewritten to hold the map; the machine's steps of one message |
| KeyValueActors.WriterActor.Drain | chap8/key_value_store_actor_model.rs:165-185 | the loop leaves the map, and the file if there was a message, holding under each key what the last logged write of it left; a run of the machine that empties the channel |
| KeyValueModel.ApplyAllLastChange | chap8/key_value_store_actor_model.rs:168-178 | applying a log leaves under each key what the last message about it says, and the first table's entry if there is none |
| KeyValueActors.ReplayIsTable | chap8/key_value_store_actor_model.rs:123-134 | replaying the logged writes gives the table that answered the requests |
| KeyValueActors.Router.Handle | chap8/key_value_store_actor_model.rs:100-119 | a request joins the newest actor's inbox, a Reset of either kind adds an actor with an empty inbox, a heartbeat changes nothing; a step of the machine |
| KeyValueActors.Router.Serve | chap8/key_value_store_actor_model.rs:99-120 | over any messages the router starts one actor per Reset and sends every request to exactly one actor: the inboxes, oldest first, are the requests in router order; with the actors making room in between it is a run of the machine from its start |
| KeyValueModel.ApplyAllConcat | chap8/key_value_store_actor_model.rs:168-178 | applying a log in two parts is applying it whole |
| ParkTheorems.ParkedLeavesItsWindow | chap10/server/src/main.rs:22-36 | while no connection is mid-dispatch, a worker parked without a token has no task and its flag true, and its channel holds exactly the connections sent and checked between its failing `try_recv` and its flag store |
| ParkTheorems.ServedInOrder | chap10/server/src/main.rs:24-26 | in every run each worker has received a prefix of what was sent to it, in order, and the rest is in its channel |
| ParkTheorems.ReceivedIsHandled | chap10/server/src/main.rs:24-36 | in every run each connection a worker has received is one of its tasks or has finished, each once, and only a poll that returns ready finishes one |
| ParkTheorems.TasksArePolledInTurn | chap10/async_runtime/src/executor.rs:45-62 | the tasks in a worker's queue are its next polls, in that order, whatever is received or pushed back meanwhile |
| ParkTheorems.ServesBeforeSleeping | chap10/server/src/main.rs:23-36 | whatever the other threads do, a worker that is awake receives everything sent so far before it can next go to sleep |
| ParkTheorems.NextConnectionRescues | chap10/server/src/main.rs:103-108 | once the dispatch of the next connection routed to a stuck worker is over, in any interleaving, the worker is awake or has already received everything left behind and the new connection, in order |
| ParkTheorems.WokenWorkerDrains | chap10/server/src/main.rs:31-35 | an unparked worker, left alone, receives everything left behind, in order |
| ParkTheorems.WindowStrands | chap10/server/src/main.rs:24-31 | a run that leaves a connection with a worker nothing is going to wake |
| ParkTheorems.StepInv | chap10/server/src/main.rs:23-113 | every step of a worker or the dispatcher keeps the workers' invariant |
| ParkDispatcher.Server.Dispatch | chap10/server/src/main.rs:103-113 | the whole effect of dispatching one connection: it is sent, the flag cleared and the worker unparked if the flag was up, the index moves round, no other worker changes; a run of the machine |
| ParkDispatcher.Server.Accept | chap10/server/src/main.rs:99-114 | the accept loop sends each worker every third connection, in order, and no other |
| ParkDispatcher.DealtSnoc | chap10/server/src/main.rs:110-113 | dealing one connection more adds it to exactly the worker the index points at |
| ParkDispatcher.Server.Iterate | chap10/server/src/main.rs:23-36 | one iteration of a worker: a received connection becomes its last task, the first task is polled and finishes or goes to the back, and none is lost; or it raises the flag and parks, which blocks exactly with nothing received, no task and no token |
| ParkDispatcher.PollExecutor | chap10/async_runtime/src/executor.rs:45-62 | one poll of the worker's executor: the tasks and the finished ones together stay the same, only a ready task finishes, and a pending one goes to the back |
| WakeTheorems.RecvFindsAllWaiting | executor/src/main.rs:64-73 | whenever `recv` is called nothing is queued for polling and the waiting map holds exactly the unfinished tasks |
| WakeTheorems.NoWakeIsLost | executor/src/main.rs:53-97 | a wake sent after an unfinished task's latest poll began, even in the middle of it, is in the channel, has just been received, or has requeued the task |
| WakeTheorems.BlockedMeansNobodyWoken | executor/src/main.rs:73 | if `run` blocks on an empty channel, no unfinished task has been woken since its last poll |
| WakeTheorems.WakesReceivedInOrder | executor/src/main.rs:53-76 | in every run the ids that wakers send are received in the order sent, and the rest is in the channel |
| WakeTheorems.PolledInOrder | executor/src/main.rs:60-86 | tasks are polled in the order in which they were spawned or requeued by a wake |
| WakeModel.WakesAreArrived | executor/src/main.rs:53 | every id sent arrived either while the executor slept in `recv` or while it did not, once |
| WakeTheorems.EveryHandleGetsItsResult | executor/src/main.rs:37-98 | when `run` returns, for any order of wakes including spurious ones, every handle has received exactly one value, the one its future gives when polled alone |
| WakeTheorems.StepInv | executor/src/main.rs:37-98 | every step, and every wake at any moment, keeps the invariant behind these |
| WakeExecutor.Executor.SpawnRcv | executor/src/main.rs:37-62 | the next id, a task at the back of the queue, a handle that has received nothing |
| WakeExecutor.Executor.PollFuture | executor/src/main.rs:88-96 | a ready future sends its value and is gone, a pending one goes to the waiting map |
| WakeExecutor.Executor.MoveWaiting | executor/src/main.rs:74-76 | a received id moves its task from waiting to polling, or does nothing if it is not waiting |
| WakeExecutor.Executor.Poll | executor/src/main.rs:80-98 | `poll` empties the queue, with the next ids arriving in each of its polls; a run of the machine |
| WakeExecutor.Executor.TakeWake | executor/src/main.rs:73-76 | one id leaves the channel; a run of the machine |
| WakeExecutor.Executor.Run | executor/src/main.rs:64-78 | `run` is a run of the machine that returns exactly when no task is left; otherwise it is left in `recv`, with everything sent received in order: the ids that arrive in each poll made, and every id that arrives while it sleeps; it returns if each future is ready after at most as many pending polls as it gets wakes in `recv` |
| Futures.ResultUnique | executor/src/main.rs:44-47 | a future polled alone has at most one result |
| RoundRobinSpec.FinishesOnTime | chap10/async_runtime/src/executor.rs:45-62 | the task at position i, needing k_i polls, finishes on call sum over j<=i of min(k_j, k_i) plus sum over j>i of min(k_j, k_i - 1) |
| RoundRobinSpec.LogShape | chap10/async_runtime/src/executor.rs:45-62 | every task finishes once, on strictly increasing calls, the last on call sum of all k: the queue is empty after exactly that many calls |
| RoundRobinSpec.StableByNeed | chap10/async_runtime/src/executor.rs:45-62 | completion order is spawn order stably sorted by the number of polls needed |
| RoundRobinSpec.CountingFuturesFinish | chap10/async_runtime/src/main.rs:14-27 | among n tasks of four polls, task p finishes on call 3n + p + 1 |
| RoundRobinSpec.OneCallCloser | chap10/async_runtime/src/executor.rs:56-61 | one call brings every task but the first exactly one call closer to its end |
| RoundRobin.Executor.Spawn | chap10/async_runtime/src/executor.rs:24-43 | the next handle number, which has received nothing, and its task at the back of the queue |
| RoundRobin.SpawnedInOrder | chap10/async_runtime/src/executor.rs:24-43 | after any number of spawns and no poll, handle number i is at position i of the queue, not yet polled |
| RoundRobin.Executor.SpawnAll | chap10/async_runtime/src/executor.rs:24-43 | n spawns put n tasks, numbered in order, behind those already queued |
| RoundRobin.Executor.Poll | chap10/async_runtime/src/executor.rs:45-62 | nothing on an empty queue; else the first task is polled once and leaves with its value delivered, or goes to the back |
| RoundRobin.Executor.Drain | chap5/executor.rs:73-75 | the drain loop makes exactly sum of k calls, finishes tasks on exactly the calls of the closed form, and leaves every handle with its one result |
| RoundRobin.SpawnAndDrain | chap10/async_runtime/src/executor.rs:24-62 | a new executor, n spawns, and polls until nothing is queued: each handle finishes on the call of the closed form, before another if and only if its future needs fewer polls or as many and was spawned first, and has its one result |
| RoundRobin.DrainCounting | chap10/async_runtime/src/main.rs:29-39 | n counting futures, spawned and drained: handle number p is the one that finishes on call 3n + p + 1, with the value 4 |
| RoundRobin.PollIsPollJobs | chap5/executor.rs:51-60 | one call on real futures is one step of the counting queue |
| RoundRobin.ExecutorsAgree | executor/src/main.rs:64-98 | the wake-driven executor under any wakes and the round-robin executor under any interleaving of spawns and polls deliver the same one value to every handle |
| RoundRobin.PollCounting | chap10/async_runtime/src/main.rs:14-27 | the object polled n + 1 times answers as the outcome function behind the results on counting futures says |
| RoundRobin.CountingFutures | chap10/async_runtime/src/main.rs:29-39 | n counting futures all finish with 4, in spawn order, on calls 3n + 1 to 4n |
| EventBusTheorems.ChamberIsExact | chap6/event_bus.rs:22-40 | in every run, of any length, in which ids are used again only after collection: a live handle always has its queue, so `poll` never hits the `unwrap`; the chamber holds exactly the queues of live handles, ids in `dead_ids`, ids being collected and ids pushed between a clone and its clear, and these are disjoint |
| EventBusTheorems.EveryEventOnce | chap6/event_bus.rs:22-47 | in every such run, for every handle, always while it is live and then until its queue is collected or its id used again: events delivered, then events queued, are exactly the events sent since it subscribed, in order |
| EventBusTheorems.PollsDeliverEverything | chap6/event_bus.rs:36-40 | a live handle polled as often as its queue is long, with nobody sending meanwhile, has been delivered every event since it subscribed |
| EventBusTheorems.FewSubscriptionsAreFresh | chap6/event_bus.rs:24 | runs with at most 2^32 subscriptions are such runs |
| EventBusTheorems.ReuseIsExact | chap6/event_bus.rs:22-40 | after a subscription no continuation that uses further ids properly can panic, if and only if its id belongs to no live handle and to no dropped one still to be collected |
| EventBusTheorems.CollectedThenPolled | chap6/event_bus.rs:36-40 | a collection takes the queue from a live handle whose id is also in `dead_ids`, and its next poll panics |
| EventBusTheorems.MissedUntilReused | chap6/event_bus.rs:86-90 | the queue of an id pushed between the clone and the clear is not removed and keeps every later event until the id is used again |
| EventBusTheorems.MissedForever | chap6/event_bus.rs:86-90 | within the first 2^32 subscriptions it is never removed |
| EventBusTheorems.DropDuringCollectionLeaks | chap6/event_bus.rs:86-87 | a run in which a handle is dropped, a collection ends, and its queue is left with nothing to remove it |
| EventBusTheorems.WrapAroundLosesEvents | chap6/event_bus.rs:24-25 | a run with one subscription more than 2^32 in which a live subscriber's undelivered event disappears |
| EventBus.Bus.Subscribe | chap6/event_bus.rs:22-30 | the next id, modulo 2^32, and an empty queue; a step of the machine |
| EventBus.Bus.Unsubscribe | chap6/event_bus.rs:32-34 | the id joins `dead_ids`, at any moment of a collection; the chamber is unchanged |
| EventBus.Bus.Poll | chap6/event_bus.rs:36-40 | the first event of the queue is removed and delivered; the missing-queue case is exactly the machine's panic |
| EventBus.Bus.Send | chap6/event_bus.rs:42-47 | every queue in the chamber gets the event at its end, whatever the order of the walk |
| EventBus.Bus.RemoveQueues | chap6/event_bus.rs:88-90 | the loop removes exactly the queues of the cloned ids |
| EventBus.Bus.Collect | chap6/event_bus.rs:84-91 | one round with handles dropped between the two locks removes exactly the cloned ids' queues and forgets the others; a run of the machine |
| ThermostatTheorems.BandKeptIff | chap6/thermo_control.rs:58-112 | with every load and store of the shared values a step of its own: once the display has acted within the band, the band is kept in every disciplined run if and only if the heater is off or `temp + losses >= desired - 1`, and a heater that is about to add, or may become so, does not find the temperature above the desired value |
| ThermostatTheorems.SafeForever | chap6/thermo_control.rs:58-137 | from a safe state every disciplined run, in any interleaving of the steps of the three polls, stays within 3 of the desired value, without i16 overflow |
| ThermostatTheorems.BandReached | chap6/thermo_control.rs:93-112 | from any lower start with the heater on, the safe band is reached in at most as many heater ticks as the initial gap, and the temperature never wraps around on the way |
| ThermostatTheorems.BandFromStart | chap6/thermo_control.rs:34-42 | in every disciplined run from the source's own start the temperature stays between 2087 and 2103 and is within the band after at most ten heater ticks |
| ThermostatTheorems.BandIsLeft | chap6/thermo_control.rs:35-42 | a disciplined run from the source's start that is within the band with the display up to date and then leaves it |
| ThermostatTheorems.LateAddLeavesBand | chap6/thermo_control.rs:96-108 | a run from the source's start to a safe state and on to 5 above the desired value, in which the display is polled between any two changes and acts between the heater's load of the switch and its add |
| ThermostatTheorems.TimelyIsDisciplined | chap6/thermo_control.rs:103-134 | if the heater is polled at least every three seconds, at most two losses come between its ticks or after the switch-on |
| ThermostatTheorems.ChangesAreSpaced | chap6/thermo_control.rs:95-137 | in every interleaving n gains of three units take at least 3n seconds, n losses of one more than that, and the temperature is the start plus those changes modulo 2^16 |
| Thermostat.Thermo.SetHeat | chap6/thermo_control.rs:63-75 | acts only on a loaded temperature that has changed; a step of the machine |
| Thermostat.Thermo.DisplayPoll | chap6/thermo_control.rs:58-78 | a whole poll is two steps of the machine, after which the display has acted on the current temperature: if it has changed, the heater is on below the desired value, off above it, and as before at it |
| Thermostat.Thermo.LoadHeat | chap6/thermo_control.rs:96-100 | loads the switch; while it is off the time starts anew; a step of the machine |
| Thermostat.Thermo.CheckHeater | chap6/thermo_control.rs:102-106 | decides by the clock whether to add; a step of the machine |
| Thermostat.Thermo.AddHeat | chap6/thermo_control.rs:108-109 | adds 3 and restarts the time, whatever the switch says by then; a step of the machine |
| Thermostat.Thermo.HeaterPoll | chap6/thermo_control.rs:95-112 | a whole poll without interruption adds 3 exactly if the heater is on and three seconds have passed |
| Thermostat.Thermo.CheckLoss | chap6/thermo_control.rs:130-131 | decides by the clock whether to subtract; a step of the machine |
| Thermostat.Thermo.SubLoss | chap6/thermo_control.rs:132-133 | subtracts 1 and restarts the time; a step of the machine |
| Thermostat.Thermo.HeatLossPoll | chap6/thermo_control.rs:129-137 | a whole poll without interruption subtracts 1 exactly if more than three seconds have passed |
| Thermostat.Thermo.Serve | chap6/thermo_control.rs:153-164 | performing the steps of the three polls in any disciplined order keeps the temperature in the band from a safe state on; from the source's start it stays between 2087 and 2103 and is in the band after ten heater ticks |
| StealingTheorems.RunExactlyOnce | chap3/async_queue.rs:34-98 | in every interleaving of any workers: an unfinished task has exactly one runnable, queued or running, and each of its earlier polls was run exactly once |
| StealingTheorems.OwnQueueFifo | chap3/async_queue.rs:88-96 | each channel hands out what was sent to it in order, and is only ever sent tasks of its own priority, also after a theft |
| StealingTheorems.SleeperFoundBothEmpty | chap3/async_queue.rs:38-53 | a worker sleeps only after everything sent to either channel, up to the moment it looked, had been taken |
| StealingTheorems.DrainTakesThreeRunsEach | chap3/async_queue.rs:191-207 | when nothing is queued or running, all tasks are finished after exactly the runs they need: 3n for n CounterFutures |
| StealingTheorems.StepInv | chap3/async_queue.rs:34-98 | every step of any worker and every spawn keeps the invariant |
| Stealing.PollCounter | chap3/async_queue.rs:187-207 | the object polled until it is ready takes exactly the three polls its task is given, and yields 3 |
| Stealing.Runtime.Spawn | chap3/async_queue.rs:88-98 | the new task's runnable is sent to the queue of its order; the invariant is kept |
| Stealing.Runtime.Execute | chap3/async_queue.rs:41 | one poll; an unfinished task goes back to its own order's queue |
| Stealing.Runtime.Take | chap3/async_queue.rs:39-47 | the head of the own queue, else the head of the other, else nothing; the queues change accordingly |
| Stealing.Runtime.Iterate | chap3/async_queue.rs:38-53 | one iteration runs exactly that runnable, or sleeps and changes nothing |
| Stealing.Runtime.Drain | chap3/async_queue.rs:38-53 | a worker left alone, of either kind, empties both queues in exactly the runs the tasks need |
| Stealing.DrainCounters | chap3/async_queue.rs:216-224 | any n CounterFutures of any priorities, drained by one worker of either kind, take exactly 3n runs |
| CodecTheorems.RoundTrip | chap10/data_layer/src/data.rs:13-40 | for both byte orders, an encoding inside any bytes decodes to its record and advances exactly 10 + len |
| CodecTheorems.RoundTripIff | chap10/data_layer/src/data.rs:17-18 | a record reads back from its encoding if and only if its string is shorter than 2^32 bytes |
| CodecTheorems.OnlyEncodingsDecode | chap10/data_layer/src/data.rs:23-40 | a successful decoding consumed exactly the encoding of its result, which is well typed |
| CodecTheorems.StrictPrefixRejected | chap10/data_layer/src/data.rs:26-35 | every strict prefix of an encoding fails with an unexpected end of file |
| CodecTheorems.ListRoundTrip | chap10/data_layer/src/data.rs:13-40 | any list of records encoded one after the other decodes to the same list |
| CodecTheorems.IntegerRoundTrip | chap10/data_layer/src/data.rs:15-18 | in both byte orders and any width, a number that fits is read back |
| CodecTheorems.IntegerCanonical | chap10/data_layer/src/data.rs:28-33 | in both byte orders, bytes are the bytes of the number they stand for |
| CodecTheorems.ByteOrder | chap10/data_layer/src/data.rs:15-18 | the lowest byte of a number comes first on a little-endian machine, the highest on a big-endian one |
| CodecTheorems.RecordBytes | chap10/data_layer/src/data.rs:13-20 | every byte of an encoding: four of the first field, two of the second, four of the length modulo 2^32, then the string |
| CodecTheorems.BadTextRejected | chap10/data_layer/src/data.rs:36-37 | a whole record whose string is no text is rejected as invalid data, whatever surrounds it |
| CodecText.ValidIffText | chap10/data_layer/src/data.rs:36 | the strings accepted are exactly the encodings of sequences of Unicode scalar values (section 3 of RFC 3629) |
| Codec.SerializeData | chap10/data_layer/src/data.rs:13-21 | appending the fields step by step gives the encoding |
| Codec.Cursor.ReadExact | chap10/data_layer/src/data.rs:26-27 | fills the whole buffer from the cursor and advances, or fails |
| Codec.DeserializeData | chap10/data_layer/src/data.rs:23-40 | the reads in order compute the decoding, with both error cases, and leave the cursor after the record |
| Codec.TcpReceiver.PollOnce | chap10/async_runtime/src/receiver.rs:15-42 | a chunk is appended, an end of file gives the buffer, anything else leaves the buffer alone |
| Codec.TcpReceiver.Receive | chap10/async_runtime/src/receiver.rs:15-42 | polled until ready: all bytes received before the end of file, in order, however they were cut and however often nothing was there |
| Codec.ReceiveRecords | chap10/async_runtime/src/receiver.rs:26-39 | any records, concatenated and received in any chunking with any would-blocks and lock misses, decode to the same list |
| LinesTheorems.ReadBack | chap5/coroutine_manager.rs:23-26 | cutting and parsing what the writer wrote yields the same numbers |
| LinesTheorems.SecondRunIsIdentical | chap5/coroutine_manager.rs:74-86 | a second run over the output of a first reproduces it byte for byte, whatever the first input |
| LinesTheorems.NumbersIsLongestPrefix | chap5/coroutine_manager.rs:47-58 | the numbers read are those of the longest prefix of lines that parse, all within i32 |
| LinesTheorems.NumbersUnique | chap5/coroutine_manager.rs:47-58 | and no other list of numbers is |
| LinesTheorems.FormatParses | chap5/coroutine_manager.rs:50 | the canonical decimal form of a number parses to it, exactly when it fits an i32 |
| LinesTheorems.ParsesIff | chap5/coroutine_manager.rs:50 | a line is a number exactly if it is an optional sign and one or more digits whose value, by powers of ten, is an i32 |
| LinesTheorems.MeansIff | chap5/coroutine_manager.rs:50 | the value of the digits, read from the first or from the last, is the same, and only digits have one |
| LinesTheorems.FormatIsCanonical | chap5/coroutine_manager.rs:24 | a number is written as a numeral of that value without plus sign or leading zero |
| LinesTheorems.CanonicalUnique | chap5/coroutine_manager.rs:24 | and there is no other such numeral |
| LinesTheorems.LineBreaks | chap5/coroutine_manager.rs:37 | a line ends at a newline, with a carriage return before it or not |
| LinesTheorems.LastLine | chap5/coroutine_manager.rs:37 | a last line needs no line break, and nothing follows the last line break |
| LinesTheorems.RenderedLines | chap5/coroutine_manager.rs:24 | the written text is cut into exactly the canonical forms, one line each |
| LineCoroutines.WriteCoroutine.Resume | chap5/coroutine_manager.rs:23-26 | appends the canonical line |
| LineCoroutines.ReadCoroutine.Resume | chap5/coroutine_manager.rs:47-58 | yields the next line's number or completes, at the end, on an error, or on a line that does not parse; the line is used up in any case |
| LineCoroutines.CoroutineManager.Run | chap5/coroutine_manager.rs:74-86 | terminates having appended exactly the canonical lines of the longest prefix that parses |
| LineCoroutines.RunTwice | chap5/coroutine_manager.rs:89-92 | two such runs, the second over the first's output into a new file, write the same bytes |

## Left out

- Sockets, epoll, file system and clock internals: they appear as environment steps with the properties listed under Assumptions; I/O errors other than would-block and end of file end a connection or are not modelled.
- Writing the echo: the reader's clone makes the shared socket non-blocking, so `writer.flush().unwrap()` (kohno_book_chap5/io_multiplexing.rs:329-330) can panic the executor when the peer does not read; the model takes every write to succeed.
- Tokio, flume, async_task and std::sync::mpsc internals, TLS and HTTP (`chap4`), terminal rendering, key events, logging.
- JSON text of the key-value store: encoding and decoding are taken as inverse, and a text cut short as unreadable; what overlapping writers leave may read as anything.
- `heartbeat_actor` and the heartbeats of the actors (chap8/key_value_store_actor_model.rs:85-87, 193-219): Reset is an environment message instead.
- The router's 100 ms pause after a Reset, which gives no guarantee, and the client side of the HTTP front end.
- EventBus.Bus.Unsubscribe: only the drop of a live handle calls it, as in the source's own code, although it is public.
- KeyValueExact.LoadIsExact: about the side the router sends to; for a load by an aborted side that still has requests queued beside other aborted sides, the condition of `GoodLoadsRefineOneTable` is sufficient only.
- KeyValueActors.Router.Serve: it does not wait itself when an actor's channel (capacity 32) is full; the recorded run of the machine lets the actor catch up first.
- Unbounded loops (`run`, `select`, the workers, the collector): the classes run them on finite input, the machines over runs of any length.
- EpollExecutor.Executor.RunTasks: between two of its runs the selector handles whole batches; the finer interleavings of the two threads are covered by the machine only.
- The drop of `AsyncListener` (kohno_book_chap5/io_multiplexing.rs:153-157), which the endless server task never reaches, and the text of the lines read, which `ReadLine` loses on a would-block.
- The bodies of the tasks a park/unpark worker polls (`handle_client`): whether a poll finishes is an input.
- Spawning a task on the wake-driven executor after `run` has returned.
- RoundRobin.Executor.Poll: returns quietly on an empty queue as chap10 does; chap5/executor.rs panics there, which its own loop condition excludes.
- Panicking futures caught by `catch_unwind` (chap3/async_queue.rs:41), and futures woken from outside: every future of that file wakes itself, and one that never finishes is, in any one run, one that needs more polls than the run makes.
- The thermostat's key handler, which only redraws. The display's loads of `DESIRED_TEMP` and `HEAT_ON` (chap6/thermo_control.rs:60-61) are part of the step that stores: nobody else ever stores to them.
- Codec.Cursor.ReadExact: the position after a failed read is the end of the bytes, as current versions of the Rust standard library define it.
- Sending through `TcpSender` (chap10/async_runtime/src/sender.rs:27-31), which restarts from the beginning of its buffer after a partial write.
- LineCoroutines.CoroutineManager.Run: the input and the output are different files, as in `main`, and every write succeeds.
- `raw_waker.rs`, the near-duplicates `chap3/3_1.rs`, `chap3/3_4.rs`, `kohno_book_chap5/scheduled_coroutine.rs` and the runtimes inside `chap4`, and the small demonstrations of `chap7`, `chap9`, `chap11` and `tests`, which would add only easy members.
