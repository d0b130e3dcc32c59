/** What every run of the echo server keeps. */
module EpollProofs {
  import opened Options
  import opened Indicator
  import opened EpollIo
  import opened EpollMachine

  // ---------- wake tokens ----------

  /** Queued ADD requests for a task. */
  function AddsFor(queue: seq<Op>, t: nat): nat
    decreases |queue|
  {
    if queue == [] then 0 else One(queue[0].Add? && queue[0].task == t) + AddsFor(queue[1..], t)
  }

  predicate HasFd(sock: Sock) { sock.Listener? || sock.Stream? }

  /** The task sleeps in the waker map under its own descriptor. */
  predicate InWakers(s: State, t: nat) {
    t in s.tasks && HasFd(s.tasks[t]) && s.tasks[t].fd in s.io.wakers && s.io.wakers[s.tasks[t].fd] == t
  }

  /** The executor holds the task: in its current poll and not yet registered,
      being dropped, or just spawned and not yet sent. */
  predicate HeldByExecutor(s: State, t: nat) {
    !s.exec.Idle? && !s.exec.AddQueued? &&
    (s.exec.task == t || (s.exec.Spawning? && s.exec.child == t))
  }

  predicate HeldBySelector(s: State, t: nat) { s.sel.Waking? && s.sel.task == t }

  /** All the places that will make the task run again. */
  function Tokens(s: State, t: nat): nat {
    multiset(s.channel)[t] + AddsFor(s.io.queue, t) + One(InWakers(s, t))
    + One(HeldByExecutor(s, t)) + One(HeldBySelector(s, t))
  }

  /** Each unfinished task has exactly one wake token; a finished one has none. */
  ghost predicate OneToken(s: State) {
    forall t {:trigger Tokens(s, t)} :: Tokens(s, t) == One(t in s.tasks)
  }

  // ---------- the rest of the invariant ----------

  /** A socket's descriptors are open on its own file, and none is the eventfd. */
  predicate Placed(s: State, sock: Sock) {
    match sock
    case Unopened => true
    case Listener(fd, file) => Refers(s, fd, file)
    case Stream(fd, wfd, file) => Refers(s, fd, file) && Refers(s, wfd, file) && fd != wfd
    case WriterOnly(wfd, file) => Refers(s, wfd, file)
  }

  predicate Refers(s: State, fd: nat, file: nat) {
    s.event in s.io.table && fd in s.io.table && s.io.table[fd] == file && file != s.io.table[s.event]
  }

  /** Different tasks own different files, so no descriptor number has two owners. */
  predicate Apart(a: Sock, b: Sock) { a.Unopened? || b.Unopened? || a.file != b.file }

  ghost predicate FilesOk(s: State) {
    && s.event in s.io.table
    && (forall t :: t in s.tasks ==> t < s.spawned && Placed(s, s.tasks[t]))
    && (forall t, u :: t in s.tasks && u in s.tasks && t != u ==> Apart(s.tasks[t], s.tasks[u]))
  }

  /** A task's descriptors agree with where the executor is. */
  ghost predicate KindsOk(s: State) {
    && (forall t :: t in s.tasks && s.tasks[t].WriterOnly? ==> s.exec == ClosingWriter(t))
    && (!s.exec.Idle? ==> s.exec.task in s.tasks)
    && (s.exec.Adding? || s.exec.AddQueued? ==> HasFd(s.tasks[s.exec.task]))
    && (s.exec.Dropping? || s.exec.DropQueued? || s.exec.ClosingReader? ==> s.tasks[s.exec.task].Stream?)
    && (s.exec.ClosingWriter? ==> s.tasks[s.exec.task].WriterOnly?)
    && (s.exec.Spawning? ==> s.exec.child in s.tasks && s.tasks[s.exec.child].Stream? && s.exec.child != s.exec.task
                             && s.tasks[s.exec.task].Listener?)
  }

  function BatchOf(sel: Sel): seq<nat> {
    match sel
    case Waiting => []
    case Handling(batch) => batch
    case Draining(batch) => batch
    case Waking(_, batch) => batch
    case Panicked => []
  }

  /** A waiting task's descriptor is armed, or its event is in the current batch,
      never both; and nothing else is armed or reported. */
  ghost predicate WakersOk(s: State) {
    var batch := BatchOf(s.sel);
    && !s.sel.Panicked?
    && s.event in s.io.table
    && (forall fd :: fd in s.io.wakers ==> InWakers(s, s.io.wakers[fd]) && s.tasks[s.io.wakers[fd]].fd == fd)
    && (forall fd :: fd in s.io.wakers ==>
          (Armed(s, fd) <==> fd !in batch))
    && (forall p {:trigger s.io.interest[p]} :: p in s.io.interest && s.io.interest[p] && p.0 != s.event ==>
          p.0 in s.io.wakers && p.1 == s.tasks[s.io.wakers[p.0]].file)
    && (forall p {:trigger p in s.io.interest} :: p in s.io.interest && p.0 == s.event ==> p.1 == s.io.table[s.event])
    && Armed(s, s.event)
    && Distinct(batch)
    && (forall fd :: fd in batch && fd != s.event ==> fd in s.io.wakers)
    && (s.sel.Draining? ==> s.event !in batch)
  }

  predicate Armed(s: State, fd: nat) {
    fd in s.io.table && (fd, s.io.table[fd]) in s.io.interest && s.io.interest[(fd, s.io.table[fd])]
  }

  /** Requests name the descriptor of their task; no descriptor being removed has
      a waker, and no REMOVE stands behind an ADD of the same number. */
  ghost predicate QueueOk(s: State) {
    var q := s.io.queue;
    && (forall i :: 0 <= i < |q| && q[i].Add? ==>
          q[i].task in s.tasks && HasFd(s.tasks[q[i].task]) && s.tasks[q[i].task].fd == q[i].fd)
    && (forall i :: 0 <= i < |q| && q[i].Remove? ==> q[i].fd !in s.io.wakers && q[i].fd != s.event)
    && (forall i, j :: 0 <= i < j < |q| && q[i].Add? && q[j].Remove? ==> q[i].fd != q[j].fd)
  }

  /** The eventfd counts the queued requests whenever the queue lock is free. */
  ghost predicate CounterOk(s: State) {
    && (QueueLockFree(s) ==> s.io.counter == |s.io.queue|)
    && (s.exec.AddQueued? || s.exec.DropQueued? ==> !s.sel.Draining? && s.io.counter + 1 == |s.io.queue|)
    && (s.sel.Draining? ==> s.io.counter > 0 && |s.io.queue| <= s.io.counter)
    && (s.event in BatchOf(s.sel) ==> s.io.counter > 0)
  }

  ghost predicate Inv(s: State) {
    FilesOk(s) && KindsOk(s) && OneToken(s) && WakersOk(s) && QueueOk(s) && CounterOk(s)
  }

  lemma StartInv(event: nat, file: nat)
    ensures Inv(Start(event, file))
  {
  }

  lemma {:induction false} AddsForPush(queue: seq<Op>, op: Op, t: nat)
    ensures AddsFor(queue + [op], t) == AddsFor(queue, t) + One(op.Add? && op.task == t)
    decreases |queue|
  {
    if queue == [] {
      assert ([op])[1..] == [];
    } else {
      assert (queue + [op])[1..] == queue[1..] + [op];
      AddsForPush(queue[1..], op, t);
    }
  }

  lemma {:induction false} AddsForPositive(queue: seq<Op>, i: nat)
    requires i < |queue| && queue[i].Add?
    ensures AddsFor(queue, queue[i].task) > 0
    decreases i
  {
    if i > 0 {
      AddsForPositive(queue[1..], i - 1);
    }
  }

  // ---------- what one token per task rules out ----------

  /** A task the executor holds waits nowhere else. */
  lemma HeldAlone(s: State, t: nat)
    requires OneToken(s) && HeldByExecutor(s, t)
    ensures t in s.tasks && t !in s.channel && !InWakers(s, t) && !HeldBySelector(s, t)
    ensures forall i :: 0 <= i < |s.io.queue| && s.io.queue[i].Add? ==> s.io.queue[i].task != t
  {
    assert Tokens(s, t) == One(t in s.tasks);
    forall i | 0 <= i < |s.io.queue| && s.io.queue[i].Add?
      ensures s.io.queue[i].task != t
    {
      AddsForPositive(s.io.queue, i);
    }
  }

  /** A task with a queued ADD waits nowhere else. */
  lemma QueuedAlone(s: State, i: nat)
    requires OneToken(s) && i < |s.io.queue| && s.io.queue[i].Add?
    ensures var t := s.io.queue[i].task;
            t in s.tasks && t !in s.channel && !InWakers(s, t) && !HeldByExecutor(s, t) && !HeldBySelector(s, t)
  {
    assert Tokens(s, s.io.queue[i].task) == One(s.io.queue[i].task in s.tasks);
    AddsForPositive(s.io.queue, i);
  }

  lemma ChannelAlone(s: State, t: nat)
    requires OneToken(s) && t in s.channel
    ensures t in s.tasks && !InWakers(s, t) && !HeldByExecutor(s, t) && !HeldBySelector(s, t)
  {
    assert Tokens(s, t) == One(t in s.tasks);
  }

  // ---------- each step keeps the invariant ----------

  /** Nothing that carries a token moved. */
  lemma SameTokens(s: State, s': State)
    requires OneToken(s)
    requires s'.tasks == s.tasks && s'.channel == s.channel
    requires s'.io.queue == s.io.queue && s'.io.wakers == s.io.wakers
    requires forall t :: HeldByExecutor(s', t) <==> HeldByExecutor(s, t)
    requires forall t :: HeldBySelector(s', t) <==> HeldBySelector(s, t)
    ensures OneToken(s')
  {
    forall t ensures Tokens(s', t) == One(t in s'.tasks) {
      assert Tokens(s, t) == One(t in s.tasks);
    }
  }

  lemma RecvTokens(s: State)
    requires OneToken(s) && StepRecv(s).Some?
    ensures OneToken(StepRecv(s).value)
  {
    var s' := StepRecv(s).value;
    assert s.channel == [s.channel[0]] + s.channel[1..];
    forall t ensures Tokens(s', t) == One(t in s'.tasks) {
      assert Tokens(s, t) == One(t in s.tasks);
    }
  }

  lemma RecvInv(s: State)
    requires Inv(s) && StepRecv(s).Some?
    ensures Inv(StepRecv(s).value)
  {
    ChannelAlone(s, s.channel[0]);
    RecvTokens(s);
  }

  lemma ListenFiles(s: State, fd: nat, file: nat)
    requires FilesOk(s) && KindsOk(s) && StepListen(s, fd, file).Some?
    ensures FilesOk(StepListen(s, fd, file).value) && KindsOk(StepListen(s, fd, file).value)
  {
  }

  lemma ListenTokens(s: State, fd: nat, file: nat)
    requires FilesOk(s) && OneToken(s) && WakersOk(s) && StepListen(s, fd, file).Some?
    ensures OneToken(StepListen(s, fd, file).value)
  {
    var s' := StepListen(s, fd, file).value;
    HeldAlone(s, s.exec.task);
    forall t ensures Tokens(s', t) == One(t in s'.tasks) {
      assert Tokens(s, t) == One(t in s.tasks);
      assert fd !in s.io.wakers;
    }
  }

  lemma ListenWakers(s: State, fd: nat, file: nat)
    requires FilesOk(s) && OneToken(s) && WakersOk(s) && StepListen(s, fd, file).Some?
    ensures WakersOk(StepListen(s, fd, file).value)
  {
    HeldAlone(s, s.exec.task);
  }

  lemma ListenInv(s: State, fd: nat, file: nat)
    requires Inv(s) && StepListen(s, fd, file).Some?
    ensures Inv(StepListen(s, fd, file).value)
  {
    ListenFiles(s, fd, file);
    ListenTokens(s, fd, file);
    ListenWakers(s, fd, file);
    HeldAlone(s, s.exec.task);
    assert QueueOk(StepListen(s, fd, file).value);
  }

  lemma AcceptFiles(s: State, rfd: nat, wfd: nat, file: nat, more: bool)
    requires FilesOk(s) && KindsOk(s) && StepAccept(s, rfd, wfd, file, more).Some?
    ensures FilesOk(StepAccept(s, rfd, wfd, file, more).value) && KindsOk(StepAccept(s, rfd, wfd, file, more).value)
  {
  }

  lemma AcceptTokens(s: State, rfd: nat, wfd: nat, file: nat, more: bool)
    requires FilesOk(s) && OneToken(s) && WakersOk(s) && StepAccept(s, rfd, wfd, file, more).Some?
    ensures OneToken(StepAccept(s, rfd, wfd, file, more).value)
  {
    var s' := StepAccept(s, rfd, wfd, file, more).value;
    HeldAlone(s, s.exec.task);
    forall t ensures Tokens(s', t) == One(t in s'.tasks) {
      assert Tokens(s, t) == One(t in s.tasks);
      assert rfd !in s.io.wakers;
    }
  }

  lemma AcceptWakers(s: State, rfd: nat, wfd: nat, file: nat, more: bool)
    requires FilesOk(s) && OneToken(s) && WakersOk(s) && StepAccept(s, rfd, wfd, file, more).Some?
    ensures WakersOk(StepAccept(s, rfd, wfd, file, more).value)
  {
  }

  lemma AcceptInv(s: State, rfd: nat, wfd: nat, file: nat, more: bool)
    requires Inv(s) && StepAccept(s, rfd, wfd, file, more).Some?
    ensures Inv(StepAccept(s, rfd, wfd, file, more).value)
  {
    AcceptFiles(s, rfd, wfd, file, more);
    AcceptTokens(s, rfd, wfd, file, more);
    AcceptWakers(s, rfd, wfd, file, more);
    assert QueueOk(StepAccept(s, rfd, wfd, file, more).value);
  }

  lemma SendSpawnedTokens(s: State)
    requires OneToken(s) && KindsOk(s) && StepSendSpawned(s).Some?
    ensures OneToken(StepSendSpawned(s).value)
  {
    var s' := StepSendSpawned(s).value;
    forall t ensures Tokens(s', t) == One(t in s'.tasks) {
      assert Tokens(s, t) == One(t in s.tasks);
    }
  }

  lemma SendSpawnedInv(s: State)
    requires Inv(s) && StepSendSpawned(s).Some?
    ensures Inv(StepSendSpawned(s).value)
  {
    SendSpawnedTokens(s);
  }

  /** Steps that only move the executor's program counter and the network. */
  lemma PollOutcomeInv(s: State, s': State)
    requires Inv(s) && Polls(s) && !s.tasks[s.exec.task].WriterOnly?
    requires s' == s.(exec := s'.exec, readable := s'.readable)
    requires s'.exec == s.exec || (s'.exec == Dropping(s.exec.task) && s.tasks[s.exec.task].Stream?)
             || (s'.exec == Adding(s.exec.task) && HasFd(s.tasks[s.exec.task]))
    ensures Inv(s')
  {
    SameTokens(s, s');
  }

  lemma PushAddTokens(s: State)
    requires OneToken(s) && StepPushAdd(s).Some?
    ensures OneToken(StepPushAdd(s).value)
  {
    var s' := StepPushAdd(s).value;
    forall t ensures Tokens(s', t) == One(t in s'.tasks) {
      assert Tokens(s, t) == One(t in s.tasks);
      AddsForPush(s.io.queue, Add(s.tasks[s.exec.task].fd, s.exec.task), t);
    }
  }

  lemma PushAddInv(s: State)
    requires Inv(s) && StepPushAdd(s).Some?
    ensures Inv(StepPushAdd(s).value)
  {
    PushAddTokens(s);
    assert QueueOk(StepPushAdd(s).value);
  }

  lemma WriteEventfdInv(s: State, s': State)
    requires Inv(s)
    requires || (s.exec.AddQueued? && Some(s') == StepWriteAdd(s))
             || (s.exec.DropQueued? && Some(s') == StepWriteRemove(s))
    ensures Inv(s')
  {
    SameTokens(s, s');
  }

  lemma PushRemoveTokens(s: State)
    requires OneToken(s) && StepPushRemove(s).Some?
    ensures OneToken(StepPushRemove(s).value)
  {
    var s' := StepPushRemove(s).value;
    forall t ensures Tokens(s', t) == One(t in s'.tasks) {
      assert Tokens(s, t) == One(t in s.tasks);
      AddsForPush(s.io.queue, Remove(s.tasks[s.exec.task].fd), t);
    }
  }

  /** The REMOVE is queued while the task is running, so neither a waker nor an
      earlier ADD for its descriptor can exist. */
  lemma PushRemoveQueue(s: State)
    requires Inv(s) && StepPushRemove(s).Some?
    ensures QueueOk(StepPushRemove(s).value)
  {
    var fd := s.tasks[s.exec.task].fd;
    HeldAlone(s, s.exec.task);
    assert Placed(s, s.tasks[s.exec.task]);
    assert forall u :: InWakers(s, u) ==> Placed(s, s.tasks[u]) && Apart(s.tasks[u], s.tasks[s.exec.task]);
    forall i | 0 <= i < |s.io.queue| && s.io.queue[i].Add?
      ensures s.io.queue[i].fd != fd
    {
      var u := s.io.queue[i].task;
      assert Placed(s, s.tasks[u]) && Placed(s, s.tasks[s.exec.task]);
      assert Apart(s.tasks[u], s.tasks[s.exec.task]);
    }
  }

  lemma PushRemoveInv(s: State)
    requires Inv(s) && StepPushRemove(s).Some?
    ensures Inv(StepPushRemove(s).value)
  {
    PushRemoveTokens(s);
    PushRemoveQueue(s);
  }

  lemma CloseReaderFiles(s: State)
    requires FilesOk(s) && KindsOk(s) && StepCloseReader(s).Some?
    ensures FilesOk(StepCloseReader(s).value) && KindsOk(StepCloseReader(s).value)
  {
  }

  lemma CloseReaderTokens(s: State)
    requires OneToken(s) && StepCloseReader(s).Some?
    ensures OneToken(StepCloseReader(s).value)
  {
    var s' := StepCloseReader(s).value;
    HeldAlone(s, s.exec.task);
    forall t ensures Tokens(s', t) == One(t in s'.tasks) {
      assert Tokens(s, t) == One(t in s.tasks);
    }
  }

  lemma CloseReaderWakers(s: State)
    requires FilesOk(s) && OneToken(s) && WakersOk(s) && StepCloseReader(s).Some?
    ensures WakersOk(StepCloseReader(s).value)
  {
    var t := s.exec.task;
    var sock := s.tasks[t];
    HeldAlone(s, t);
    assert Placed(s, sock);
    assert sock.wfd in s.io.table - {sock.fd};
    forall fd | fd in s.io.wakers
      ensures fd != sock.fd
    {
      assert Placed(s, s.tasks[s.io.wakers[fd]]) && Apart(s.tasks[s.io.wakers[fd]], sock);
    }
  }

  lemma CloseReaderInv(s: State)
    requires Inv(s) && StepCloseReader(s).Some?
    ensures Inv(StepCloseReader(s).value)
  {
    CloseReaderFiles(s);
    CloseReaderTokens(s);
    CloseReaderWakers(s);
    HeldAlone(s, s.exec.task);
    assert QueueOk(StepCloseReader(s).value);
  }

  lemma CloseWriterFiles(s: State)
    requires FilesOk(s) && KindsOk(s) && StepCloseWriter(s).Some?
    ensures FilesOk(StepCloseWriter(s).value) && KindsOk(StepCloseWriter(s).value)
  {
    var sock := s.tasks[s.exec.task];
    assert Placed(s, sock);
    forall t | t in s.tasks && t != s.exec.task
      ensures Placed(StepCloseWriter(s).value, s.tasks[t])
    {
      assert Placed(s, s.tasks[t]) && Apart(s.tasks[t], sock);
    }
  }

  lemma CloseWriterTokens(s: State)
    requires OneToken(s) && StepCloseWriter(s).Some?
    ensures OneToken(StepCloseWriter(s).value)
  {
    var s' := StepCloseWriter(s).value;
    HeldAlone(s, s.exec.task);
    forall t ensures Tokens(s', t) == One(t in s'.tasks) {
      assert Tokens(s, t) == One(t in s.tasks);
    }
  }

  lemma CloseWriterWakers(s: State)
    requires FilesOk(s) && OneToken(s) && WakersOk(s) && StepCloseWriter(s).Some?
    ensures WakersOk(StepCloseWriter(s).value)
  {
    var sock := s.tasks[s.exec.task];
    HeldAlone(s, s.exec.task);
    assert Placed(s, sock);
    forall fd | fd in s.io.wakers
      ensures fd != sock.wfd && s.tasks[s.io.wakers[fd]].file != sock.file
    {
      assert Placed(s, s.tasks[s.io.wakers[fd]]) && Apart(s.tasks[s.io.wakers[fd]], sock);
    }
  }

  lemma CloseWriterInv(s: State)
    requires Inv(s) && StepCloseWriter(s).Some?
    ensures Inv(StepCloseWriter(s).value)
  {
    CloseWriterFiles(s);
    CloseWriterTokens(s);
    CloseWriterWakers(s);
    HeldAlone(s, s.exec.task);
    assert QueueOk(StepCloseWriter(s).value);
  }

  /** Only one armed entry exists per descriptor number, so the reported numbers are distinct. */
  lemma HitsAreDistinct(s: State, hits: seq<(nat, nat)>)
    requires WakersOk(s) && StepEpoll(s, hits).Some?
    ensures Distinct(Fds(hits))
    ensures forall i :: 0 <= i < |hits| && hits[i].0 != s.event ==>
              hits[i].0 in s.io.wakers && hits[i].1 == s.tasks[s.io.wakers[hits[i].0]].file
    ensures forall i :: 0 <= i < |hits| && hits[i].0 == s.event ==> hits[i].1 == s.io.table[s.event]
  {
    forall i | 0 <= i < |hits|
      ensures hits[i].0 != s.event ==> hits[i].0 in s.io.wakers && hits[i].1 == s.tasks[s.io.wakers[hits[i].0]].file
      ensures hits[i].0 == s.event ==> hits[i].1 == s.io.table[s.event]
    {
      assert Deliverable(s, hits[i]);
    }
    forall i, j | 0 <= i < j < |hits|
      ensures Fds(hits)[i] != Fds(hits)[j]
    {
      assert hits[i] != hits[j];
    }
  }

  lemma EpollWakers(s: State, hits: seq<(nat, nat)>)
    requires FilesOk(s) && WakersOk(s) && StepEpoll(s, hits).Some?
    ensures WakersOk(StepEpoll(s, hits).value)
  {
    var s' := StepEpoll(s, hits).value;
    var fds := Fds(hits);
    HitsAreDistinct(s, hits);
    forall fd | fd in s.io.wakers
      ensures Armed(s', fd) <==> fd !in fds
    {
      var t := s.io.wakers[fd];
      assert InWakers(s, t) && Placed(s, s.tasks[t]) && Armed(s, fd);
      var p := (fd, s.io.table[fd]);
      if fd in fds {
        var i :| 0 <= i < |fds| && fds[i] == fd;
        assert hits[i] == p;
      } else {
        assert forall i :: 0 <= i < |hits| ==> fds[i] != fd && hits[i] != p;
        assert s'.io.interest[p];
      }
    }
  }

  lemma EpollTokens(s: State, hits: seq<(nat, nat)>)
    requires OneToken(s) && StepEpoll(s, hits).Some?
    ensures OneToken(StepEpoll(s, hits).value)
  {
    var s' := StepEpoll(s, hits).value;
    forall t ensures Tokens(s', t) == One(t in s'.tasks) {
      assert Tokens(s, t) == One(t in s.tasks);
    }
  }

  lemma EpollCounter(s: State, hits: seq<(nat, nat)>)
    requires CounterOk(s) && StepEpoll(s, hits).Some?
    ensures CounterOk(StepEpoll(s, hits).value)
  {
    if s.event in Fds(hits) {
      var i :| 0 <= i < |hits| && hits[i].0 == s.event;
      assert Deliverable(s, hits[i]);
    }
  }

  lemma EpollFiles(s: State, hits: seq<(nat, nat)>)
    requires FilesOk(s) && KindsOk(s) && QueueOk(s) && StepEpoll(s, hits).Some?
    ensures FilesOk(StepEpoll(s, hits).value) && KindsOk(StepEpoll(s, hits).value) && QueueOk(StepEpoll(s, hits).value)
  {
  }

  lemma EpollInv(s: State, hits: seq<(nat, nat)>)
    requires Inv(s) && StepEpoll(s, hits).Some?
    ensures Inv(StepEpoll(s, hits).value)
  {
    EpollFiles(s, hits);
    EpollWakers(s, hits);
    EpollTokens(s, hits);
    EpollCounter(s, hits);
  }

  /** Steps of the selector that touch neither wakers nor requests. */
  lemma EndBatchInv(s: State)
    requires Inv(s) && StepEndBatch(s).Some?
    ensures Inv(StepEndBatch(s).value)
  {
    var s' := StepEndBatch(s).value;
    SameTokens(s, s');
  }

  lemma LockQueueInv(s: State)
    requires Inv(s) && StepLockQueue(s).Some?
    ensures Inv(StepLockQueue(s).value)
  {
    var s' := StepLockQueue(s).value;
    assert s.sel.batch == [s.event] + s'.sel.batch;
    SameTokens(s, s');
  }

  /** The ADD at the head of the queue: its descriptor is open and has no waker. */
  lemma PerformAddSafe(s: State)
    requires Inv(s) && s.sel.Draining? && s.io.queue != [] && s.io.queue[0].Add?
    ensures PerformHead(s.io).Some?
    ensures s.io.queue[0].fd !in s.io.wakers && s.io.queue[0].fd != s.event
    ensures s.io.queue[0].fd in s.io.table && s.io.table[s.io.queue[0].fd] == s.tasks[s.io.queue[0].task].file
  {
    var fd, t := s.io.queue[0].fd, s.io.queue[0].task;
    QueuedAlone(s, 0);
    assert Placed(s, s.tasks[t]);
    assert forall u :: InWakers(s, u) ==> Placed(s, s.tasks[u]) && Apart(s.tasks[u], s.tasks[t]);
  }

  lemma PerformAddTokens(s: State)
    requires Inv(s) && s.sel.Draining? && s.io.queue != [] && s.io.queue[0].Add?
    ensures OneToken(StepPerform(s).value)
  {
    PerformAddSafe(s);
    QueuedAlone(s, 0);
    var s' := StepPerform(s).value;
    var added := s.io.queue[0].task;
    forall t ensures Tokens(s', t) == One(t in s'.tasks) {
      assert Tokens(s, t) == One(t in s.tasks);
      assert t != added ==> InWakers(s', t) == InWakers(s, t);
    }
  }

  lemma PerformAddWakers(s: State)
    requires Inv(s) && s.sel.Draining? && s.io.queue != [] && s.io.queue[0].Add?
    ensures WakersOk(StepPerform(s).value)
  {
    PerformAddSafe(s);
    var s' := StepPerform(s).value;
    var added := s.io.queue[0].fd;
    forall fd | fd in s'.io.wakers && fd != added
      ensures InWakers(s', s'.io.wakers[fd]) && (Armed(s', fd) <==> fd !in s'.sel.batch)
    {
      assert InWakers(s, s.io.wakers[fd]);
      assert Armed(s, fd) <==> fd !in s.sel.batch;
    }
  }

  lemma PerformAddInv(s: State)
    requires Inv(s) && s.sel.Draining? && s.io.queue != [] && s.io.queue[0].Add?
    ensures Inv(StepPerform(s).value)
  {
    PerformAddSafe(s);
    PerformAddTokens(s);
    PerformAddWakers(s);
    assert QueueOk(StepPerform(s).value);
  }

  /** A REMOVE discards no waker and disarms nothing. */
  lemma PerformRemoveHarmless(s: State)
    requires Inv(s) && s.sel.Draining? && s.io.queue != [] && s.io.queue[0].Remove?
    ensures StepPerform(s).Some?
    ensures StepPerform(s).value.io.wakers == s.io.wakers
    ensures forall fd :: Armed(StepPerform(s).value, fd) <==> Armed(s, fd)
  {
    var s' := StepPerform(s).value;
    var removed := s.io.queue[0].fd;
    assert s'.io.wakers == s.io.wakers;
    forall fd ensures Armed(s', fd) <==> Armed(s, fd) {
      if fd == removed && fd in s.io.table {
        assert (fd, s.io.table[fd]) in s.io.interest ==> !s.io.interest[(fd, s.io.table[fd])];
      }
    }
  }

  lemma PerformRemoveInv(s: State)
    requires Inv(s) && s.sel.Draining? && s.io.queue != [] && s.io.queue[0].Remove?
    ensures Inv(StepPerform(s).value)
  {
    PerformRemoveHarmless(s);
    var s' := StepPerform(s).value;
    forall t ensures Tokens(s', t) == One(t in s'.tasks) {
      assert Tokens(s, t) == One(t in s.tasks);
      assert InWakers(s', t) == InWakers(s, t);
    }
    assert QueueOk(s');
  }

  lemma ClearInv(s: State)
    requires Inv(s) && StepClear(s).Some?
    ensures Inv(StepClear(s).value)
  {
    var s' := StepClear(s).value;
    SameTokens(s, s');
  }

  lemma TakeWakerTokens(s: State)
    requires OneToken(s) && WakersOk(s) && StepTakeWaker(s).Some?
    ensures OneToken(StepTakeWaker(s).value)
  {
    var s' := StepTakeWaker(s).value;
    forall t ensures Tokens(s', t) == One(t in s'.tasks) {
      assert Tokens(s, t) == One(t in s.tasks);
    }
  }

  lemma TakeWakerWakers(s: State)
    requires FilesOk(s) && OneToken(s) && WakersOk(s) && StepTakeWaker(s).Some?
    ensures s.sel.batch[0] in s.io.wakers && WakersOk(StepTakeWaker(s).value)
  {
    var s' := StepTakeWaker(s).value;
    var taken := s.sel.batch[0];
    assert s.sel.batch == [taken] + s.sel.batch[1..];
    forall fd | fd in s'.io.wakers
      ensures fd != taken && InWakers(s', s'.io.wakers[fd]) && (Armed(s', fd) <==> Armed(s, fd))
    {
      assert InWakers(s, s.io.wakers[fd]);
    }
  }

  lemma TakeWakerInv(s: State)
    requires Inv(s) && StepTakeWaker(s).Some?
    ensures Inv(StepTakeWaker(s).value)
  {
    TakeWakerTokens(s);
    TakeWakerWakers(s);
  }

  lemma SendWokenTokens(s: State)
    requires OneToken(s) && WakersOk(s) && StepSendWoken(s).Some?
    ensures OneToken(StepSendWoken(s).value)
  {
    var s' := StepSendWoken(s).value;
    forall t ensures Tokens(s', t) == One(t in s'.tasks) {
      assert Tokens(s, t) == One(t in s.tasks);
    }
  }

  lemma SendWokenInv(s: State)
    requires Inv(s) && StepSendWoken(s).Some?
    ensures Inv(StepSendWoken(s).value)
  {
    SendWokenTokens(s);
  }

  lemma LevelInv(s: State, file: nat, on: bool)
    requires Inv(s) && StepLevel(s, file, on).Some?
    ensures Inv(StepLevel(s, file, on).value)
  {
    var s' := StepLevel(s, file, on).value;
    SameTokens(s, s');
  }

  /** One step, whichever thread takes it. */
  lemma StepInv(s: State, a: Action)
    requires Inv(s) && Step(s, a).Some?
    ensures Inv(Step(s, a).value)
  {
    match a
    case Recv => RecvInv(s);
    case Listen(fd, file) => ListenInv(s, fd, file);
    case AcceptReady(rfd, wfd, file, more) => AcceptInv(s, rfd, wfd, file, more);
    case SendSpawned => SendSpawnedInv(s);
    case ReadReady(more) => PollOutcomeInv(s, StepRead(s, more).value);
    case ReadClosed => PollOutcomeInv(s, StepClosed(s).value);
    case WouldBlock => PollOutcomeInv(s, StepWouldBlock(s).value);
    case PushAdd => PushAddInv(s);
    case WriteAdd => WriteEventfdInv(s, StepWriteAdd(s).value);
    case PushRemove => PushRemoveInv(s);
    case WriteRemove => WriteEventfdInv(s, StepWriteRemove(s).value);
    case CloseReader => CloseReaderInv(s);
    case CloseWriter => CloseWriterInv(s);
    case EpollReturns(hits) => EpollInv(s, hits);
    case EndBatch => EndBatchInv(s);
    case LockQueue => LockQueueInv(s);
    case Perform =>
      if s.io.queue[0].Add? {
        PerformAddInv(s);
      } else {
        PerformRemoveInv(s);
      }
    case ClearEventfd => ClearInv(s);
    case TakeWaker => TakeWakerInv(s);
    case SendWoken => SendWokenInv(s);
    case SetReadable(file, on) => LevelInv(s, file, on);
  }
}