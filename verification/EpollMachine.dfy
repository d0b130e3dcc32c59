/** The echo server as a state machine: the executor thread, the selector thread
    and the kernel take steps in any order. A step ends where the source takes or
    releases a lock, sends on the task channel, or makes a system call. */
module EpollMachine {
  import opened Options
  import opened EpollIo

  const CAPACITY: nat := 1024    // sync_channel(1024)
  const MAX_EVENTS: nat := 1024  // length of the epoll_wait buffer

  /** The descriptors an unfinished task owns: none before `listen`; the listener;
      the reader (`fd`) and its clone inside the BufWriter; the writer alone while
      the finished task is being dropped. */
  datatype Sock =
    | Unopened
    | Listener(fd: nat, file: nat)
    | Stream(fd: nat, wfd: nat, file: nat)
    | WriterOnly(wfd: nat, file: nat)

  /** Where the executor thread is; it holds the queue lock in the two `Queued` cases. */
  datatype Exec =
    | Idle                              // in receiver.recv()
    | Polling(task: nat)                // about to call accept() or read_line()
    | Adding(task: nat)                 // saw WouldBlock, about to register
    | AddQueued(task: nat)              // ADD pushed, eventfd not yet written
    | Spawning(task: nat, child: nat)   // accepted, about to send the new task
    | Dropping(task: nat)               // the connection ended, about to unregister
    | DropQueued(task: nat)             // REMOVE pushed, eventfd not yet written
    | ClosingReader(task: nat)
    | ClosingWriter(task: nat)

  /** Where the selector thread is; it holds the waker lock outside `Waiting` and
      the queue lock in `Draining`. `batch` is what is left of the events. */
  datatype Sel =
    | Waiting
    | Handling(batch: seq<nat>)
    | Draining(batch: seq<nat>)
    | Waking(task: nat, batch: seq<nat>)
    | Panicked

  datatype State = State(
    io: Io,
    event: nat,                // descriptor of the eventfd
    readable: set<nat>,        // files with something to accept or read
    tasks: map<nat, Sock>,     // unfinished tasks
    spawned: nat,              // tasks ever spawned; also the next task number
    channel: seq<nat>,         // the executor's task channel
    exec: Exec,
    sel: Sel)

  datatype Action =
    | Recv
    | Listen(fd: nat, file: nat)
    | AcceptReady(rfd: nat, wfd: nat, file: nat, more: bool)
    | ReadReady(more: bool)
    | ReadClosed
    | WouldBlock
    | PushAdd
    | WriteAdd
    | SendSpawned
    | PushRemove
    | WriteRemove
    | CloseReader
    | CloseWriter
    | EpollReturns(hits: seq<(nat, nat)>)
    | EndBatch
    | LockQueue
    | Perform
    | ClearEventfd
    | TakeWaker
    | SendWoken
    | SetReadable(file: nat, on: bool)

  predicate QueueLockFree(s: State) {
    !s.exec.AddQueued? && !s.exec.DropQueued? && !s.sel.Draining?
  }

  predicate FreshFd(io: Io, fd: nat) { fd !in io.table }

  predicate FreshFile(io: Io, file: nat) { forall fd :: fd in io.table ==> io.table[fd] != file }

  /** Level-triggered: an armed entry is reported while its file is readable; the
      eventfd is readable while its counter is positive. */
  predicate Deliverable(s: State, hit: (nat, nat)) {
    hit in s.io.interest && s.io.interest[hit] &&
    if hit.0 == s.event then s.io.counter > 0 else hit.1 in s.readable
  }

  function Fds(hits: seq<(nat, nat)>): (fds: seq<nat>)
    ensures |fds| == |hits| && forall i :: 0 <= i < |hits| ==> fds[i] == hits[i].0
  {
    seq(|hits|, i requires 0 <= i < |hits| => hits[i].0)
  }

  predicate Distinct<T(==)>(s: seq<T>) { forall i, j :: 0 <= i < j < |s| ==> s[i] != s[j] }

  /** One-shot entries that fired are disarmed; the eventfd's is not one-shot. */
  function Disarm(interest: map<(nat, nat), bool>, event: nat, hits: seq<(nat, nat)>): map<(nat, nat), bool> {
    map p | p in interest :: interest[p] && (p.0 == event || p !in hits)
  }

  /** Closes a descriptor; the kernel drops a file's interest entries with its last descriptor. */
  function Close(io: Io, fd: nat, file: nat): Io {
    var table := io.table - {fd};
    var kept := if exists g :: g in table && table[g] == file then io.interest
                else map p | p in io.interest && p.1 != file :: io.interest[p];
    io.(table := table, interest := kept)
  }

  function SetLevel(readable: set<nat>, file: nat, on: bool): set<nat> {
    if on then readable else readable - {file}
  }

  // ---------- executor thread ----------

  /** `receiver.recv()`: the next task is polled. */
  function StepRecv(s: State): Option<State> {
    if s.exec.Idle? && s.channel != [] then
      Some(s.(channel := s.channel[1..], exec := Polling(s.channel[0])))
    else None
  }

  /** The task being polled, if it may still be polled. */
  predicate Polls(s: State) { s.exec.Polling? && s.exec.task in s.tasks }

  /** The first poll of the server binds its listener. */
  function StepListen(s: State, fd: nat, file: nat): Option<State> {
    if Polls(s) && s.tasks[s.exec.task].Unopened? && FreshFd(s.io, fd) && FreshFile(s.io, file) then
      Some(s.(io := s.io.(table := s.io.table[fd := file]),
              tasks := s.tasks[s.exec.task := Listener(fd, file)],
              readable := s.readable - {file}))
    else None
  }

  /** `accept()` succeeds: the connection gets a descriptor and its clone, and a new
      task; `more` says whether further connections are pending. */
  function StepAccept(s: State, rfd: nat, wfd: nat, file: nat, more: bool): Option<State> {
    if Polls(s) && s.tasks[s.exec.task].Listener? && s.tasks[s.exec.task].file in s.readable
       && rfd != wfd && FreshFd(s.io, rfd) && FreshFd(s.io, wfd) && FreshFile(s.io, file) then
      Some(s.(io := s.io.(table := s.io.table[wfd := file][rfd := file]),
              readable := SetLevel(s.readable, s.tasks[s.exec.task].file, more) - {file},
              tasks := s.tasks[s.spawned := Stream(rfd, wfd, file)],
              spawned := s.spawned + 1,
              exec := Spawning(s.exec.task, s.spawned)))
    else None
  }

  /** `sender.send(task)` of the spawner; blocks on a full channel. */
  function StepSendSpawned(s: State): Option<State> {
    if s.exec.Spawning? && |s.channel| < CAPACITY then
      Some(s.(channel := s.channel + [s.exec.child], exec := Polling(s.exec.task)))
    else None
  }

  /** `read_line` returns a line, possibly from its buffer; the loop reads again. */
  function StepRead(s: State, more: bool): Option<State> {
    if Polls(s) && s.tasks[s.exec.task].Stream? then
      Some(s.(readable := SetLevel(s.readable, s.tasks[s.exec.task].file, more)))
    else None
  }

  /** `read_line` returns None: the task's body ends. */
  function StepClosed(s: State): Option<State> {
    if Polls(s) && s.tasks[s.exec.task].Stream? then Some(s.(exec := Dropping(s.exec.task))) else None
  }

  /** `accept` or `read_line` finds nothing left. */
  function StepWouldBlock(s: State): Option<State> {
    if Polls(s) && (s.tasks[s.exec.task].Listener? || s.tasks[s.exec.task].Stream?)
       && s.tasks[s.exec.task].file !in s.readable then
      Some(s.(exec := Adding(s.exec.task)))
    else None
  }

  /** `register`: lock the queue and push ... */
  function StepPushAdd(s: State): Option<State> {
    if s.exec.Adding? && QueueLockFree(s) && s.exec.task in s.tasks
       && (s.tasks[s.exec.task].Listener? || s.tasks[s.exec.task].Stream?) then
      Some(s.(io := PushRequest(s.io, Add(s.tasks[s.exec.task].fd, s.exec.task)), exec := AddQueued(s.exec.task)))
    else None
  }

  /** ... write the eventfd, unlock, and return Pending. */
  function StepWriteAdd(s: State): Option<State> {
    if s.exec.AddQueued? then Some(s.(io := WriteEventfd(s.io), exec := Idle)) else None
  }

  /** Dropping the reader: `unregister` locks the queue and pushes ... */
  function StepPushRemove(s: State): Option<State> {
    if s.exec.Dropping? && QueueLockFree(s) && s.exec.task in s.tasks && s.tasks[s.exec.task].Stream? then
      Some(s.(io := PushRequest(s.io, Remove(s.tasks[s.exec.task].fd)), exec := DropQueued(s.exec.task)))
    else None
  }

  /** ... writes the eventfd and unlocks; only then are the fields dropped ... */
  function StepWriteRemove(s: State): Option<State> {
    if s.exec.DropQueued? then Some(s.(io := WriteEventfd(s.io), exec := ClosingReader(s.exec.task))) else None
  }

  /** ... which closes the reader's descriptor ... */
  function StepCloseReader(s: State): Option<State> {
    if s.exec.ClosingReader? && s.exec.task in s.tasks && s.tasks[s.exec.task].Stream? then
      var sock := s.tasks[s.exec.task];
      Some(s.(io := Close(s.io, sock.fd, sock.file),
              tasks := s.tasks[s.exec.task := WriterOnly(sock.wfd, sock.file)],
              exec := ClosingWriter(s.exec.task)))
    else None
  }

  /** ... and then the writer's; the task is finished. */
  function StepCloseWriter(s: State): Option<State> {
    if s.exec.ClosingWriter? && s.exec.task in s.tasks && s.tasks[s.exec.task].WriterOnly? then
      var sock := s.tasks[s.exec.task];
      Some(s.(io := Close(s.io, sock.wfd, sock.file), tasks := s.tasks - {s.exec.task}, exec := Idle,
              readable := s.readable - {sock.file}))
    else None
  }

  // ---------- selector thread ----------

  /** `epoll_wait` returns some deliverable events; the waker lock is taken. */
  function StepEpoll(s: State, hits: seq<(nat, nat)>): Option<State> {
    if s.sel.Waiting? && 0 < |hits| <= MAX_EVENTS && Distinct(hits)
       && (forall i :: 0 <= i < |hits| ==> Deliverable(s, hits[i])) then
      Some(s.(io := s.io.(interest := Disarm(s.io.interest, s.event, hits)), sel := Handling(Fds(hits))))
    else None
  }

  function StepEndBatch(s: State): Option<State> {
    if s.sel == Handling([]) then Some(s.(sel := Waiting)) else None
  }

  /** The next event is the eventfd's: lock the queue. */
  function StepLockQueue(s: State): Option<State> {
    if s.sel.Handling? && s.sel.batch != [] && s.sel.batch[0] == s.event && QueueLockFree(s) then
      Some(s.(sel := Draining(s.sel.batch[1..])))
    else None
  }

  /** Carry out the oldest request. */
  function StepPerform(s: State): Option<State> {
    if s.sel.Draining? && s.io.queue != [] then
      match PerformHead(s.io)
      case None => Some(s.(sel := Panicked))
      case Some(io) => Some(s.(io := io))
    else None
  }

  /** `read` of the eventfd, which blocks on a zero counter; unlock the queue. */
  function StepClear(s: State): Option<State> {
    if s.sel.Draining? && s.io.queue == [] && s.io.counter > 0 then
      Some(s.(io := s.io.(counter := 0), sel := Handling(s.sel.batch)))
    else None
  }

  /** The next event is a socket's: take its waker, panic if there is none. */
  function StepTakeWaker(s: State): Option<State> {
    if s.sel.Handling? && s.sel.batch != [] && s.sel.batch[0] != s.event then
      var fd := s.sel.batch[0];
      if fd !in s.io.wakers then Some(s.(sel := Panicked))
      else Some(s.(io := s.io.(wakers := s.io.wakers - {fd}), sel := Waking(s.io.wakers[fd], s.sel.batch[1..])))
    else None
  }

  /** `wake_by_ref` sends the task; blocks on a full channel. */
  function StepSendWoken(s: State): Option<State> {
    if s.sel.Waking? && |s.channel| < CAPACITY then
      Some(s.(channel := s.channel + [s.sel.task], sel := Handling(s.sel.batch)))
    else None
  }

  // ---------- network ----------

  /** Data or a connection arrives at an open file, or a pending connection goes away. */
  function StepLevel(s: State, file: nat, on: bool): Option<State> {
    if FreshFile(s.io, file) then None
    else Some(s.(readable := if on then s.readable + {file} else s.readable - {file}))
  }

  /** One step of the whole system; None when the action is not possible now. */
  function Step(s: State, a: Action): Option<State> {
    match a
    case Recv => StepRecv(s)
    case Listen(fd, file) => StepListen(s, fd, file)
    case AcceptReady(rfd, wfd, file, more) => StepAccept(s, rfd, wfd, file, more)
    case SendSpawned => StepSendSpawned(s)
    case ReadReady(more) => StepRead(s, more)
    case ReadClosed => StepClosed(s)
    case WouldBlock => StepWouldBlock(s)
    case PushAdd => StepPushAdd(s)
    case WriteAdd => StepWriteAdd(s)
    case PushRemove => StepPushRemove(s)
    case WriteRemove => StepWriteRemove(s)
    case CloseReader => StepCloseReader(s)
    case CloseWriter => StepCloseWriter(s)
    case EpollReturns(hits) => StepEpoll(s, hits)
    case EndBatch => StepEndBatch(s)
    case LockQueue => StepLockQueue(s)
    case Perform => StepPerform(s)
    case ClearEventfd => StepClear(s)
    case TakeWaker => StepTakeWaker(s)
    case SendWoken => StepSendWoken(s)
    case SetReadable(file, on) => StepLevel(s, file, on)
  }

  /** The end of a run, None if some action of it is not possible. */
  function Run(s: State, actions: seq<Action>): Option<State>
    decreases |actions|
  {
    if actions == [] then Some(s)
    else
      var next := Step(s, actions[0]);
      if next.None? then None else Run(next.value, actions[1..])
  }

  /** `main`: the server task is in the channel, the eventfd is registered. */
  function Start(event: nat, file: nat): State {
    State(Io(map[], [], 0, map[event := file], map[(event, file) := true]),
          event, {}, map[0 := Unopened], 1, [0], Idle, Waiting)
  }
}
