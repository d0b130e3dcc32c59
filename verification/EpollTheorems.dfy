/** The main results about the epoll server, for every run from `main`. */
module EpollTheorems {
  import opened Options
  import opened Indicator
  import opened EpollIo
  import opened EpollMachine
  import opened EpollProofs

  lemma {:induction false} RunInv(s: State, actions: seq<Action>)
    requires Inv(s) && Run(s, actions).Some?
    ensures Inv(Run(s, actions).value)
    decreases |actions|
  {
    if actions != [] {
      StepInv(s, actions[0]);
      RunInv(Step(s, actions[0]).value, actions[1..]);
    }
  }

  /** In every interleaving each unfinished task has exactly one wake token and a
      finished task none; the selector thread never panics; and whenever the queue
      lock is free the eventfd counts the queued requests. */
  lemma OneTokenPerTask(event: nat, file: nat, actions: seq<Action>, s: State)
    requires Run(Start(event, file), actions) == Some(s)
    ensures forall t {:trigger Tokens(s, t)} :: Tokens(s, t) == if t in s.tasks then 1 else 0
    ensures !s.sel.Panicked?
    ensures QueueLockFree(s) ==> s.io.counter == |s.io.queue|
  {
    StartInv(event, file);
    RunInv(Start(event, file), actions);
  }

  /** What one step sends on the task channel: the spawned or the woken task. */
  function SentBy(s: State, a: Action): seq<nat> {
    if a.SendSpawned? && s.exec.Spawning? then [s.exec.child]
    else if a.SendWoken? && s.sel.Waking? then [s.sel.task]
    else []
  }

  function Sent(s: State, actions: seq<Action>): seq<nat>
    requires Run(s, actions).Some?
    decreases |actions|
  {
    if actions == [] then [] else SentBy(s, actions[0]) + Sent(Step(s, actions[0]).value, actions[1..])
  }

  /** The tasks the executor has begun to poll in a run, in order. */
  function Received(s: State, actions: seq<Action>): seq<nat>
    requires Run(s, actions).Some?
    decreases |actions|
  {
    if actions == [] then []
    else
      var next := Step(s, actions[0]).value;
      (if actions[0].Recv? && next.exec.Polling? then [next.exec.task] else []) + Received(next, actions[1..])
  }

  lemma ChannelStep(s: State, a: Action)
    requires Step(s, a).Some?
    ensures var t := Step(s, a).value;
            s.channel + SentBy(s, a) == (if a.Recv? && t.exec.Polling? then [t.exec.task] else []) + t.channel
  {
  }

  /** In every run tasks are polled in the order in which they were sent. */
  lemma {:induction false} PolledInOrder(s: State, actions: seq<Action>)
    requires Run(s, actions).Some?
    ensures s.channel + Sent(s, actions) == Received(s, actions) + Run(s, actions).value.channel
    decreases |actions|
  {
    if actions != [] {
      var next := Step(s, actions[0]).value;
      ChannelStep(s, actions[0]);
      PolledInOrder(next, actions[1..]);
      Shift(s.channel, SentBy(s, actions[0]), if actions[0].Recv? && next.exec.Polling? then [next.exec.task] else [],
            next.channel, Sent(next, actions[1..]), Received(next, actions[1..]), Run(s, actions).value.channel);
    }
  }

  lemma Shift(c: seq<nat>, sent: seq<nat>, taken: seq<nat>, d: seq<nat>, sends: seq<nat>, takes: seq<nat>, e: seq<nat>)
    requires c + sent == taken + d && d + sends == takes + e
    ensures c + (sent + sends) == (taken + takes) + e
  {
    assert c + (sent + sends) == (c + sent) + sends == taken + (d + sends) == (taken + takes) + e;
  }

  /** A task asleep in the waker map can be woken: its descriptor is armed, or its
      event is in the batch being handled, and never both. */
  lemma SleeperIsWatched(event: nat, file: nat, actions: seq<Action>, s: State, t: nat)
    requires Run(Start(event, file), actions) == Some(s) && InWakers(s, t)
    ensures Armed(s, s.tasks[t].fd) <==> s.tasks[t].fd !in BatchOf(s.sel)
    ensures s.tasks[t].fd in s.io.table && s.io.table[s.tasks[t].fd] == s.tasks[t].file
  {
    StartInv(event, file);
    RunInv(Start(event, file), actions);
    assert Placed(s, s.tasks[t]);
  }

  /** Handling a REMOVE discards no waker and disarms no descriptor, even when its
      number already belongs to a newer connection. */
  lemma RemoveDiscardsNoWaker(event: nat, file: nat, actions: seq<Action>, s: State)
    requires Run(Start(event, file), actions) == Some(s)
    requires s.sel.Draining? && s.io.queue != [] && s.io.queue[0].Remove?
    ensures Step(s, Perform).Some?
    ensures Step(s, Perform).value.io.wakers == s.io.wakers
    ensures forall fd :: Armed(Step(s, Perform).value, fd) <==> Armed(s, fd)
  {
    StartInv(event, file);
    RunInv(Start(event, file), actions);
    PerformRemoveHarmless(s);
  }

  /** The selector's `read` of the eventfd finds a positive counter. */
  lemma ReadNeverBlocks(event: nat, file: nat, actions: seq<Action>, s: State)
    requires Run(Start(event, file), actions) == Some(s)
    requires s.sel.Draining? && s.io.queue == []
    ensures Step(s, ClearEventfd).Some?
  {
    StartInv(event, file);
    RunInv(Start(event, file), actions);
  }

  // ---------- the bounded task channel ----------

  lemma {:induction false} DistinctFits(c: seq<nat>, all: set<nat>)
    requires forall i :: 0 <= i < |c| ==> multiset(c)[c[i]] <= 1 && c[i] in all
    ensures |c| <= |all|
    decreases |c|
  {
    if c != [] {
      var rest := c[1..];
      assert c == [c[0]] + rest;
      forall i | 0 <= i < |rest|
        ensures multiset(rest)[rest[i]] <= 1 && rest[i] in all - {c[0]}
      {
        assert rest[i] == c[i + 1];
        assert multiset(c)[c[i + 1]] <= 1;
      }
      DistinctFits(rest, all - {c[0]});
    }
  }

  /** Held tasks are not in the channel, and no task is in it twice. */
  lemma ChannelBound(s: State, held: set<nat>)
    requires Inv(s) && held <= s.tasks.Keys
    requires forall t :: t in held ==> HeldByExecutor(s, t) || HeldBySelector(s, t)
    ensures |s.channel| + |held| <= |s.tasks|
  {
    forall i | 0 <= i < |s.channel|
      ensures multiset(s.channel)[s.channel[i]] <= 1 && s.channel[i] in s.tasks.Keys - held
    {
      assert Tokens(s, s.channel[i]) == One(s.channel[i] in s.tasks);
      ChannelAlone(s, s.channel[i]);
    }
    DistinctFits(s.channel, s.tasks.Keys - held);
  }

  lemma SpawnHasRoom(s: State)
    requires Inv(s) && s.exec.Spawning? && |s.tasks| <= CAPACITY + 1
    ensures Step(s, SendSpawned).Some?
  {
    ChannelBound(s, {s.exec.task, s.exec.child});
  }

  lemma WakeHasRoom(s: State)
    requires Inv(s) && s.sel.Waking? && |s.tasks| <= CAPACITY
    ensures Step(s, SendWoken).Some? && |s.channel| < CAPACITY
  {
    assert Tokens(s, s.sel.task) == One(s.sel.task in s.tasks);
    ChannelBound(s, {s.sel.task});
  }

  /** With at most 1024 unfinished tasks no send on the task channel blocks; a spawn does
      not even with 1025. */
  lemma SendsNeverBlock(event: nat, file: nat, actions: seq<Action>, s: State)
    requires Run(Start(event, file), actions) == Some(s)
    ensures s.exec.Spawning? && |s.tasks| <= CAPACITY + 1 ==> Step(s, SendSpawned).Some?
    ensures s.sel.Waking? && |s.tasks| <= CAPACITY ==> Step(s, SendWoken).Some?
  {
    StartInv(event, file);
    RunInv(Start(event, file), actions);
    if s.exec.Spawning? && |s.tasks| <= CAPACITY + 1 {
      SpawnHasRoom(s);
    }
    if s.sel.Waking? && |s.tasks| <= CAPACITY {
      WakeHasRoom(s);
    }
  }

  // ---------- no deadlock, and no task left behind ----------

  /** The only steps still possible are the network's. */
  ghost predicate Stalled(s: State) {
    forall a: Action :: !a.SetReadable? ==> Step(s, a).None?
  }

  lemma {:induction false} FreshNumber(used: set<nat>) returns (n: nat)
    ensures forall k :: k in used ==> k < n
    decreases |used|
  {
    if used == {} {
      n := 0;
    } else {
      var k :| k in used;
      var m := FreshNumber(used - {k});
      n := if m > k then m else k + 1;
      assert used == (used - {k}) + {k};
    }
  }

  /** Numbers the kernel can give to new descriptors and a new file. */
  lemma FreshNumbers(io: Io) returns (fd: nat, file: nat)
    ensures FreshFd(io, fd) && FreshFd(io, fd + 1) && FreshFile(io, file)
  {
    fd := FreshNumber(io.table.Keys);
    file := FreshNumber(io.table.Values);
    assert forall g :: g in io.table ==> io.table[g] in io.table.Values;
  }

  /** A task being polled can always go on. */
  lemma PollingMoves(s: State) returns (a: Action)
    requires Inv(s) && s.exec.Polling?
    ensures !a.SetReadable? && Step(s, a).Some?
  {
    var sock := s.tasks[s.exec.task];
    var fd, file := FreshNumbers(s.io);
    if sock.Unopened? {
      a := Listen(fd, file);
    } else if sock.Stream? {
      a := ReadClosed;
    } else if sock.file in s.readable {
      a := AcceptReady(fd, fd + 1, file, false);
    } else {
      a := WouldBlock;
    }
  }

  /** A task being dropped can always go on. */
  lemma DroppingMoves(s: State) returns (a: Action)
    requires KindsOk(s) && !s.sel.Draining?
    requires s.exec.Dropping? || s.exec.DropQueued? || s.exec.ClosingReader? || s.exec.ClosingWriter?
    ensures !a.SetReadable? && Step(s, a).Some?
  {
    match s.exec
    case Dropping(_) => a := PushRemove;
    case DropQueued(_) => a := WriteRemove;
    case ClosingReader(_) => a := CloseReader;
    case ClosingWriter(_) => a := CloseWriter;
  }

  lemma RegisteringMoves(s: State) returns (a: Action)
    requires KindsOk(s) && !s.sel.Draining? && (s.exec.Adding? || s.exec.AddQueued?)
    ensures !a.SetReadable? && Step(s, a).Some?
  {
    a := if s.exec.Adding? then PushAdd else WriteAdd;
  }

  /** The executor moves unless it waits on an empty channel or for room to spawn. */
  lemma ExecutorMoves(s: State) returns (a: Action)
    requires Inv(s) && !s.exec.Spawning? && !s.sel.Draining? && !(s.exec.Idle? && s.channel == [])
    ensures !a.SetReadable? && Step(s, a).Some?
  {
    if s.exec.Idle? {
      a := Recv;
    } else if s.exec.Polling? {
      a := PollingMoves(s);
    } else if s.exec.Adding? || s.exec.AddQueued? {
      a := RegisteringMoves(s);
    } else {
      a := DroppingMoves(s);
    }
  }

  /** The selector moves unless it waits for an event or for room, provided the executor
      does not hold the queue lock. */
  lemma BusySelectorMoves(s: State) returns (a: Action)
    requires Inv(s) && !s.sel.Waiting? && !s.sel.Waking? && !s.exec.AddQueued? && !s.exec.DropQueued?
    ensures !a.SetReadable? && Step(s, a).Some?
  {
    match s.sel
    case Handling(batch) => a := if batch == [] then EndBatch else if batch[0] == s.event then LockQueue else TakeWaker;
    case Draining(_) => a := if s.io.queue != [] then Perform else ClearEventfd;
  }

  lemma SelectorMoves(s: State) returns (a: Action)
    requires Inv(s) && !s.sel.Waiting?
    requires s.sel.Draining? || (s.exec.Idle? && s.channel == [])
    ensures !a.SetReadable? && Step(s, a).Some?
  {
    if s.sel.Waking? {
      a := SendWoken;
    } else {
      a := BusySelectorMoves(s);
    }
  }

  /** The executor spawns into a full channel: it waits for room that only it can make. */
  predicate FullSpawn(s: State) { s.exec.Spawning? && |s.channel| >= CAPACITY }

  lemma SpawningMoves(s: State)
    requires s.exec.Spawning? && !FullSpawn(s)
    ensures !Stalled(s)
  {
    assert Step(s, SendSpawned).Some?;
  }

  lemma StalledThreads(s: State)
    requires Inv(s) && Stalled(s) && !FullSpawn(s)
    ensures s.sel.Waiting? && s.exec.Idle? && s.channel == []
  {
    if s.exec.Spawning? {
      SpawningMoves(s);
    } else if s.sel.Draining? || (s.exec.Idle? && s.channel == [] && !s.sel.Waiting?) {
      var a := SelectorMoves(s);
    } else if !(s.exec.Idle? && s.channel == []) {
      var a := ExecutorMoves(s);
    }
  }

  lemma DeliverableMoves(s: State, hit: (nat, nat))
    requires s.sel.Waiting? && Deliverable(s, hit)
    ensures !Stalled(s)
  {
    assert Step(s, EpollReturns([hit])).Some?;
  }

  /** Both threads wait, no request is pending, and every unfinished task sleeps on an
      armed descriptor with nothing to read. */
  ghost predicate NothingToDo(s: State) {
    && s.exec.Idle? && s.sel.Waiting? && s.channel == [] && s.io.queue == []
    && forall t :: t in s.tasks ==> InWakers(s, t) && Armed(s, s.tasks[t].fd) && s.tasks[t].file !in s.readable
  }

  lemma StalledIsIdle(s: State)
    requires Inv(s) && Stalled(s) && !FullSpawn(s)
    ensures NothingToDo(s)
  {
    StalledThreads(s);
    if s.io.queue != [] {
      DeliverableMoves(s, (s.event, s.io.table[s.event]));
    }
    forall t | t in s.tasks
      ensures InWakers(s, t) && Armed(s, s.tasks[t].fd) && s.tasks[t].file !in s.readable
    {
      assert Tokens(s, t) == One(t in s.tasks);
      assert Placed(s, s.tasks[t]);
      if s.tasks[t].file in s.readable {
        DeliverableMoves(s, (s.tasks[t].fd, s.tasks[t].file));
      }
    }
  }

  lemma IdleIsStalled(s: State)
    requires Inv(s) && NothingToDo(s)
    ensures Stalled(s)
  {
    forall a: Action | !a.SetReadable?
      ensures Step(s, a).None?
    {
      if a.EpollReturns? && a.hits != [] {
        var hit := a.hits[0];
        assert hit in s.io.interest && s.io.interest[hit] && hit.0 != s.event ==>
            hit.0 in s.io.wakers && hit.1 == s.tasks[s.io.wakers[hit.0]].file;
        assert !Deliverable(s, hit);
      }
    }
  }

  /** The selector waits too: for room in the channel, or for an event. */
  ghost predicate SelectorWaits(s: State) {
    s.sel.Waking? || (s.sel.Waiting? && forall hit :: !Deliverable(s, hit))
  }

  lemma FullSpawnStalls(s: State)
    requires Inv(s) && FullSpawn(s)
    ensures Stalled(s) <==> SelectorWaits(s)
  {
    if SelectorWaits(s) {
      forall a: Action | !a.SetReadable?
        ensures Step(s, a).None?
      {
        assert a.EpollReturns? && a.hits != [] && s.sel.Waiting? ==> !Deliverable(s, a.hits[0]);
      }
    } else if s.sel.Waiting? {
      var hit :| Deliverable(s, hit);
      DeliverableMoves(s, hit);
    } else {
      var a := BusySelectorMoves(s);
    }
  }

  /** The exact condition, for any number of tasks: neither thread can move if and only if
      there is nothing to do, or the executor spawns into a full channel and the selector
      waits. No wakeup is lost, and a full channel is the only deadlock. */
  lemma StalledIff(event: nat, file: nat, actions: seq<Action>, s: State)
    requires Run(Start(event, file), actions) == Some(s)
    ensures Stalled(s) <==> NothingToDo(s) || (FullSpawn(s) && SelectorWaits(s))
  {
    StartInv(event, file);
    RunInv(Start(event, file), actions);
    if FullSpawn(s) {
      FullSpawnStalls(s);
    } else if Stalled(s) {
      StalledIsIdle(s);
    } else if NothingToDo(s) {
      IdleIsStalled(s);
    }
  }

  /** With at most 1025 tasks a spawn finds room, so stalled means nothing to do. */
  lemma StalledMeansNothingToDo(event: nat, file: nat, actions: seq<Action>, s: State)
    requires Run(Start(event, file), actions) == Some(s)
    requires |s.tasks| <= CAPACITY + 1 && Stalled(s)
    ensures NothingToDo(s)
  {
    StalledIff(event, file, actions, s);
    if FullSpawn(s) {
      StartInv(event, file);
      RunInv(Start(event, file), actions);
      SpawnHasRoom(s);
    }
  }

  // ---------- the selector's loop, run without interruption ----------

  lemma {:induction false} RunConcat(s: State, xs: seq<Action>, ys: seq<Action>)
    requires Run(s, xs).Some?
    ensures Run(s, xs + ys) == Run(Run(s, xs).value, ys)
    decreases |xs|
  {
    if xs == [] {
      assert xs + ys == ys;
    } else {
      assert (xs + ys)[1..] == xs[1..] + ys;
      RunConcat(Step(s, xs[0]).value, xs[1..], ys);
    }
  }

  lemma RunCons(s: State, a: Action, actions: seq<Action>)
    requires Step(s, a).Some?
    ensures Run(s, [a] + actions) == Run(Step(s, a).value, actions)
  {
    assert ([a] + actions)[1..] == actions;
  }

  /** A run in which the network does nothing. */
  predicate NoNetwork(actions: seq<Action>) { forall i :: 0 <= i < |actions| ==> !actions[i].SetReadable? }

  /** Draining the queue never panics and ends with a cleared eventfd. */
  lemma {:induction false} DrainAlone(s: State) returns (actions: seq<Action>)
    requires Inv(s) && s.sel.Draining?
    ensures NoNetwork(actions)
    ensures PerformAll(s.io).Some? && PerformAll(s.io).value.counter > 0 && PerformAll(s.io).value.queue == []
    ensures Run(s, actions) == Some(s.(io := PerformAll(s.io).value.(counter := 0), sel := Handling(s.sel.batch)))
    decreases |s.io.queue|
  {
    if s.io.queue == [] {
      RunCons(s, ClearEventfd, []);
      actions := [ClearEventfd] + [];
    } else {
      if s.io.queue[0].Add? {
        PerformAddSafe(s);
      }
      StepInv(s, Perform);
      var rest := DrainAlone(StepPerform(s).value);
      RunCons(s, Perform, rest);
      actions := [Perform] + rest;
    }
  }

  /** The selector's state after one event of its batch has been handled. */
  function AfterEvent(s: State, io: Io, woken: seq<nat>): State
    requires s.sel.Handling? && s.sel.batch != []
  {
    s.(io := io, channel := s.channel + woken, sel := Handling(s.sel.batch[1..]))
  }

  lemma EventfdAlone(s: State) returns (actions: seq<Action>)
    requires Inv(s) && s.sel.Handling? && QueueLockFree(s) && s.sel.batch != [] && s.sel.batch[0] == s.event
    ensures HandleEvent(s.io, s.event, s.event).Handled? && HandleEvent(s.io, s.event, s.event).io.queue == []
    ensures NoNetwork(actions)
    ensures Run(s, actions) == Some(AfterEvent(s, HandleEvent(s.io, s.event, s.event).io, []))
  {
    LockQueueInv(s);
    var drain := DrainAlone(StepLockQueue(s).value);
    RunCons(s, LockQueue, drain);
    actions := [LockQueue] + drain;
    assert s.channel + [] == s.channel;
  }

  lemma WakeAlone(s: State) returns (actions: seq<Action>)
    requires s.sel.Handling? && s.sel.batch != [] && s.sel.batch[0] != s.event
    requires s.sel.batch[0] in s.io.wakers && |s.channel| < CAPACITY
    ensures Run(s, actions) == Some(AfterEvent(s, s.io.(wakers := s.io.wakers - {s.sel.batch[0]}),
                                               [s.io.wakers[s.sel.batch[0]]]))
  {
    RunCons(StepTakeWaker(s).value, SendWoken, []);
    RunCons(s, TakeWaker, [SendWoken] + []);
    actions := [TakeWaker] + ([SendWoken] + []);
  }

  lemma WakeReady(s: State)
    requires Inv(s) && s.sel.Handling? && |s.tasks| <= CAPACITY && s.sel.batch != [] && s.sel.batch[0] != s.event
    ensures s.sel.batch[0] in s.io.wakers && |s.channel| < CAPACITY
  {
    TakeWakerWakers(s);
    TakeWakerInv(s);
    WakeHasRoom(StepTakeWaker(s).value);
  }

  lemma EventAlone(s: State) returns (actions: seq<Action>, next: State)
    requires Inv(s) && s.sel.Handling? && QueueLockFree(s) && |s.tasks| <= CAPACITY && s.sel.batch != []
    ensures HandleEvent(s.io, s.event, s.sel.batch[0]).Handled?
    ensures var h := HandleEvent(s.io, s.event, s.sel.batch[0]);
            next == AfterEvent(s, h.io, if h.woken.Some? then [h.woken.value] else [])
    ensures Run(s, actions) == Some(next) && Inv(next) && QueueLockFree(next) && |next.tasks| <= CAPACITY
  {
    if s.sel.batch[0] == s.event {
      actions := EventfdAlone(s);
    } else {
      WakeReady(s);
      actions := WakeAlone(s);
    }
    next := Run(s, actions).value;
    RunInv(s, actions);
  }

  /** The selector's state after its whole batch. */
  function AfterBatch(s: State): State
    requires s.sel.Handling? && HandleBatch(s.io, s.event, s.sel.batch).Finished?
  {
    var done := HandleBatch(s.io, s.event, s.sel.batch);
    s.(io := done.io, channel := s.channel + done.woken, sel := Waiting)
  }

  lemma AfterFirstEvent(s: State, next: State)
    requires s.sel.Handling? && s.sel.batch != [] && HandleEvent(s.io, s.event, s.sel.batch[0]).Handled?
    requires var h := HandleEvent(s.io, s.event, s.sel.batch[0]);
             next == AfterEvent(s, h.io, if h.woken.Some? then [h.woken.value] else [])
    requires HandleBatch(next.io, next.event, next.sel.batch).Finished?
    ensures HandleBatch(s.io, s.event, s.sel.batch).Finished? && AfterBatch(s) == AfterBatch(next)
  {
    var h := HandleEvent(s.io, s.event, s.sel.batch[0]);
    var w := if h.woken.Some? then [h.woken.value] else [];
    var done := HandleBatch(h.io, s.event, s.sel.batch[1..]);
    assert s.channel + (w + done.woken) == next.channel + done.woken;
  }

  function SentAnyway(s: State): State
    requires s.sel.Waking?
  {
    s.(channel := s.channel + [s.sel.task], sel := Handling(s.sel.batch))
  }

  lemma SendAnywayTokens(s: State)
    requires OneToken(s) && s.sel.Waking?
    ensures OneToken(SentAnyway(s))
  {
    var s' := SentAnyway(s);
    forall t ensures Tokens(s', t) == One(t in s'.tasks) {
      assert Tokens(s, t) == One(t in s.tasks);
    }
  }

  /** A woken task sent without regard to the room in the channel. */
  lemma SendAnyway(s: State)
    requires Inv(s) && s.sel.Waking?
    ensures Inv(SentAnyway(s))
  {
    SendAnywayTokens(s);
  }

  /** However many tasks there are, handling a batch never panics and never blocks reading
      the eventfd, once the queue lock is free. */
  lemma {:induction false} BatchNeverFails(s: State)
    requires Inv(s) && s.sel.Handling? && QueueLockFree(s)
    ensures HandleBatch(s.io, s.event, s.sel.batch).Finished?
    decreases |s.sel.batch|
  {
    if s.sel.batch != [] {
      if s.sel.batch[0] == s.event {
        var actions := EventfdAlone(s);
        RunInv(s, actions);
        BatchNeverFails(Run(s, actions).value);
      } else {
        TakeWakerWakers(s);
        TakeWakerInv(s);
        var s1 := StepTakeWaker(s).value;
        SendAnyway(s1);
        BatchNeverFails(SentAnyway(s1));
      }
    }
  }

  /** `HandleBatch`, which the loop of `select` computes, is what the selector's
      steps do one after the other, when the channel has room for every task. */
  lemma {:induction false} SelectNeverFails(s: State) returns (actions: seq<Action>)
    requires Inv(s) && s.sel.Handling? && QueueLockFree(s) && |s.tasks| <= CAPACITY
    ensures HandleBatch(s.io, s.event, s.sel.batch).Finished?
    ensures Run(s, actions) == Some(AfterBatch(s))
    decreases |s.sel.batch|
  {
    if s.sel.batch == [] {
      RunCons(s, EndBatch, []);
      actions := [EndBatch] + [];
      assert s.channel + [] == s.channel;
    } else {
      var first, next := EventAlone(s);
      var rest := SelectNeverFails(next);
      AfterFirstEvent(s, next);
      RunConcat(s, first, rest);
      actions := first + rest;
    }
  }

  // ---------- the bound on tasks is needed ----------

  /** Once the executor spawns into a full channel it never moves again: only the
      executor itself could make room. */
  lemma {:induction false} FullSpawnIsForever(s: State, actions: seq<Action>)
    requires s.exec.Spawning? && |s.channel| == CAPACITY && Run(s, actions).Some?
    ensures Run(s, actions).value.exec == s.exec && Run(s, actions).value.channel == s.channel
    decreases |actions|
  {
    if actions != [] {
      FullSpawnIsForever(Step(s, actions[0]).value, actions[1..]);
    }
  }

  /** The server is being polled with `n` new tasks in the channel, `n + 1` tasks in
      all, a connection pending, and every number from `b` on unused. */
  predicate Bursting(s: State, n: nat, b: nat) {
    && s.exec == Polling(0) && 0 in s.tasks && s.tasks[0].Listener?
    && s.tasks[0].file in s.readable && s.tasks[0].file < b
    && (forall t :: t in s.tasks ==> t < s.spawned)
    && (forall fd :: fd in s.io.table ==> fd < b && s.io.table[fd] < b)
    && |s.channel| == n && |s.tasks| == n + 1
    && FirstRegistration(s)
  }

  /** The selector waits and has seen nothing but its own eventfd, which is descriptor 0;
      the listener is open. */
  predicate FirstRegistration(s: State) {
    && s.sel.Waiting? && s.event == 0 && 0 in s.io.table && s.io.table[0] == 0
    && s.io.wakers == map[] && s.io.queue == [] && s.io.counter == 0 && s.io.interest == map[(0, 0) := true]
    && 0 in s.tasks && s.tasks[0].Listener?
    && s.tasks[0].fd != 0 && s.tasks[0].fd in s.io.table && s.io.table[s.tasks[0].fd] == s.tasks[0].file
  }

  lemma BurstStart() returns (s: State)
    ensures Run(Start(0, 0), [Recv, Listen(1, 1), SetReadable(1, true)]) == Some(s) && Bursting(s, 0, 2)
  {
    var actions := [Recv, Listen(1, 1), SetReadable(1, true)];
    var s1 := StepRecv(Start(0, 0)).value;
    var s2 := StepListen(s1, 1, 1).value;
    assert s2.io.table[1] == 1;
    s := StepLevel(s2, 1, true).value;
    assert actions[1..] == [Listen(1, 1), SetReadable(1, true)] && actions[1..][1..] == [SetReadable(1, true)];
    assert Run(s2, [SetReadable(1, true)]) == Some(s);
  }

  lemma BurstOne(s0: State, n: nat, b: nat) returns (s: State)
    requires Bursting(s0, n, b) && n < CAPACITY
    ensures Run(s0, [AcceptReady(b, b + 1, b, true), SendSpawned]) == Some(s) && Bursting(s, n + 1, b + 2)
  {
    var actions := [AcceptReady(b, b + 1, b, true), SendSpawned];
    var s1 := StepAccept(s0, b, b + 1, b, true).value;
    s := StepSendSpawned(s1).value;
    assert actions[1..] == [SendSpawned];
    assert Run(s1, [SendSpawned]) == Some(s);
  }

  lemma {:induction false} Burst(n: nat) returns (actions: seq<Action>, s: State, b: nat)
    requires n <= CAPACITY
    ensures Run(Start(0, 0), actions) == Some(s) && Bursting(s, n, b)
  {
    if n == 0 {
      s := BurstStart();
      actions, b := [Recv, Listen(1, 1), SetReadable(1, true)], 2;
    } else {
      var before, s0, b0 := Burst(n - 1);
      s := BurstOne(s0, n - 1, b0);
      var more := [AcceptReady(b0, b0 + 1, b0, true), SendSpawned];
      RunConcat(Start(0, 0), before, more);
      actions, b := before + more, b0 + 2;
    }
  }

  /** One task more and a burst of 1025 connections deadlocks the executor: it
      waits for room in the channel that only it drains. */
  lemma BurstDeadlocks() returns (actions: seq<Action>, s: State)
    ensures Run(Start(0, 0), actions) == Some(s) && |s.tasks| == CAPACITY + 2
    ensures s.exec.Spawning?
    ensures forall more :: Run(s, more).Some? ==> Run(s, more).value.exec == s.exec
  {
    var before, s0, b := Burst(CAPACITY);
    var accept := AcceptReady(b, b + 1, b, true);
    s := Step(s0, accept).value;
    assert [accept][1..] == [];
    assert Run(s0, [accept]) == Some(s);
    RunConcat(Start(0, 0), before, [accept]);
    actions := before + [accept];
    forall more | Run(s, more).Some?
      ensures Run(s, more).value.exec == s.exec
    {
      FullSpawnIsForever(s, more);
    }
  }

  lemma Then(before: seq<Action>, s: State, a: Action) returns (actions: seq<Action>, next: State)
    requires Run(Start(0, 0), before) == Some(s) && Step(s, a).Some?
    ensures Run(Start(0, 0), actions) == Some(next) && Step(s, a) == Some(next)
  {
    RunConcat(Start(0, 0), before, [a]);
    assert [a][1..] == [];
    actions, next := before + [a], Step(s, a).value;
  }

  /** The pending connection goes away; the server finds no further one and goes to sleep. */
  lemma ServerSleeps(before: seq<Action>, s0: State) returns (actions: seq<Action>, s: State)
    requires Run(Start(0, 0), before) == Some(s0) && s0.exec == Polling(0) && FirstRegistration(s0)
    ensures Run(Start(0, 0), actions) == Some(s) && s.tasks == s0.tasks && s.channel == s0.channel
    ensures s.exec.Idle? && s.sel.Waiting? && s.event == 0
    ensures s.io == s0.io.(queue := [Add(s0.tasks[0].fd, 0)], counter := 1)
  {
    actions, s := Then(before, s0, SetReadable(s0.tasks[0].file, false));
    actions, s := Then(actions, s, WouldBlock);
    actions, s := Then(actions, s, PushAdd);
    actions, s := Then(actions, s, WriteAdd);
  }

  /** The selector sees its eventfd and locks the queue. */
  lemma EventfdSeen(before: seq<Action>, s0: State) returns (actions: seq<Action>, s: State)
    requires Run(Start(0, 0), before) == Some(s0) && s0.exec.Idle? && s0.sel.Waiting? && s0.event == 0
    requires s0.io.counter == 1 && s0.io.interest == map[(0, 0) := true]
    ensures Run(Start(0, 0), actions) == Some(s) && s == s0.(sel := Draining([]))
  {
    assert Deliverable(s0, (0, 0));
    assert Disarm(s0.io.interest, 0, [(0, 0)]) == s0.io.interest && Fds([(0, 0)]) == [0];
    actions, s := Then(before, s0, EpollReturns([(0, 0)]));
    assert s == s0.(sel := Handling([0])) && [0][1..] == [];
    actions, s := Then(actions, s, LockQueue);
  }

  /** It registers the listener and waits again. */
  lemma ListenerRegistered(before: seq<Action>, s0: State, fd: nat, file: nat)
    returns (actions: seq<Action>, s: State)
    requires Run(Start(0, 0), before) == Some(s0) && s0.sel == Draining([]) && s0.io.queue == [Add(fd, 0)]
    requires s0.io.counter == 1 && s0.io.wakers == map[] && fd in s0.io.table && s0.io.table[fd] == file
    ensures Run(Start(0, 0), actions) == Some(s) && s.tasks == s0.tasks && s.channel == s0.channel
    ensures s.sel.Waiting? && s.event == s0.event && s.io.table == s0.io.table && s.io.wakers == map[fd := 0]
    ensures (fd, file) in s.io.interest && s.io.interest[(fd, file)]
  {
    actions, s := Then(before, s0, Perform);
    actions, s := Then(actions, s, ClearEventfd);
    actions, s := Then(actions, s, EndBatch);
  }

  /** A connection arrives and the selector takes the server's waker. */
  lemma ServerWoken(before: seq<Action>, s0: State, fd: nat, file: nat) returns (actions: seq<Action>, s: State)
    requires Run(Start(0, 0), before) == Some(s0) && s0.sel.Waiting? && s0.event != fd
    requires fd in s0.io.table && s0.io.table[fd] == file && fd in s0.io.wakers
    requires (fd, file) in s0.io.interest && s0.io.interest[(fd, file)]
    ensures Run(Start(0, 0), actions) == Some(s) && s.tasks == s0.tasks && s.channel == s0.channel && s.sel.Waking?
  {
    actions, s := Then(before, s0, SetReadable(file, true));
    assert Deliverable(s, (fd, file));
    actions, s := Then(actions, s, EpollReturns([(fd, file)]));
    actions, s := Then(actions, s, TakeWaker);
  }

  /** The bound on tasks is exact for wakes too: with 1025 tasks, the server asleep and
      every connection's task queued, the next connection wakes the server into a full
      channel and the selector has to wait. */
  lemma WakeBlocks() returns (actions: seq<Action>, s: State)
    ensures Run(Start(0, 0), actions) == Some(s) && |s.tasks| == CAPACITY + 1
    ensures s.sel.Waking? && Step(s, SendWoken).None?
  {
    var b;
    actions, s, b := Burst(CAPACITY);
    var fd, file := s.tasks[0].fd, s.tasks[0].file;
    actions, s := ServerSleeps(actions, s);
    actions, s := EventfdSeen(actions, s);
    actions, s := ListenerRegistered(actions, s, fd, file);
    actions, s := ServerWoken(actions, s, fd, file);
  }
}
