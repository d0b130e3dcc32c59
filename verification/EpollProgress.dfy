/** The echo server gets its work done: from every reachable state in which the executor is
    not bound to run into a full channel, the two threads can go on, without the network, to
    a state with nothing to do. */
module EpollProgress {
  import opened Indicator
  import opened Options
  import opened EpollIo
  import opened EpollMachine
  import opened EpollProofs
  import opened EpollTheorems

  /** Some run from `main` ends here. */
  ghost predicate Reachable(s: State) {
    exists event, file, actions :: Run(Start(event, file), actions) == Some(s)
  }

  lemma {:induction false} ChannelCapped(s: State, actions: seq<Action>)
    requires Run(s, actions).Some? && |s.channel| <= CAPACITY
    ensures |Run(s, actions).value.channel| <= CAPACITY
    decreases |actions|
  {
    if actions != [] {
      ChannelCapped(Step(s, actions[0]).value, actions[1..]);
    }
  }

  lemma ReachableInv(s: State)
    requires Reachable(s)
    ensures Inv(s) && |s.channel| <= CAPACITY
  {
    var event, file, actions :| Run(Start(event, file), actions) == Some(s);
    StartInv(event, file);
    RunInv(Start(event, file), actions);
    ChannelCapped(Start(event, file), actions);
  }

  /** What is known of the task the executor has in hand. */
  lemma ExecutorTask(s: State)
    requires Reachable(s)
    ensures |s.channel| <= CAPACITY
    ensures !s.exec.Idle? ==> s.exec.task in s.tasks
    ensures s.exec.Polling? ==> !s.tasks[s.exec.task].WriterOnly?
    ensures s.exec.Adding? ==> HasFd(s.tasks[s.exec.task])
    ensures s.exec.Dropping? || s.exec.DropQueued? || s.exec.ClosingReader? ==> s.tasks[s.exec.task].Stream?
    ensures s.exec.ClosingWriter? ==> s.tasks[s.exec.task].WriterOnly?
    ensures s.exec.Spawning? ==> s.tasks[s.exec.task].Listener?
  {
    ReachableInv(s);
  }

  ghost predicate Goes(s: State, actions: seq<Action>, t: State) {
    NoNetwork(actions) && Run(s, actions) == Some(t)
  }

  lemma GoOn(s: State, xs: seq<Action>, t: State, ys: seq<Action>, u: State)
    requires Goes(s, xs, t) && Goes(t, ys, u)
    ensures Goes(s, xs + ys, u)
  {
    RunConcat(s, xs, ys);
  }

  lemma StaysReachable(s: State, xs: seq<Action>, t: State)
    requires Reachable(s) && Run(s, xs) == Some(t)
    ensures Reachable(t)
  {
    var event, file, actions :| Run(Start(event, file), actions) == Some(s);
    RunConcat(Start(event, file), actions, xs);
    assert Run(Start(event, file), actions + xs) == Some(t);
  }

  lemma Go(s: State, xs: seq<Action>, t: State, a: Action) returns (ys: seq<Action>, u: State)
    requires Goes(s, xs, t) && Reachable(t) && !a.SetReadable? && Step(t, a).Some?
    ensures Goes(s, ys, u) && Reachable(u) && Step(t, a) == Some(u)
  {
    u := Step(t, a).value;
    assert [a][1..] == [];
    GoOn(s, xs, t, [a], u);
    StaysReachable(t, [a], u);
    ys := xs + [a];
  }

  // ---------- sends the executor cannot avoid ----------

  /** The listener being polled has a connection pending. */
  predicate MustAccept(s: State) {
    && (s.exec.Polling? || s.exec.Spawning?) && s.exec.task in s.tasks && s.tasks[s.exec.task].Listener?
    && s.tasks[s.exec.task].file in s.readable
  }

  /** How many tasks the executor has to send before it can receive again. */
  function Sends(s: State): nat { One(s.exec.Spawning?) + One(MustAccept(s)) }

  predicate Doomed(s: State) { Sends(s) > 0 && |s.channel| + Sends(s) > CAPACITY }

  // ---------- the executor finishes what it is doing ----------

  /** What the executor's work does to the rest. */
  predicate Worked(s: State, t: State) {
    t.exec.Idle? && t.sel == s.sel && t.readable <= s.readable && t.event == s.event
  }

  lemma Suspends(s: State, xs: seq<Action>, t: State) returns (ys: seq<Action>, u: State)
    requires Goes(s, xs, t) && Reachable(t) && (t.exec.Adding? || t.exec.AddQueued?) && !t.sel.Draining?
    ensures Goes(s, ys, u) && Reachable(u) && Worked(t, u) && u.channel == t.channel
  {
    ExecutorTask(t);
    ys, u := xs, t;
    if u.exec.Adding? {
      ys, u := Go(s, ys, u, PushAdd);
    }
    ys, u := Go(s, ys, u, WriteAdd);
  }

  lemma Unregisters(s: State, xs: seq<Action>, t: State) returns (ys: seq<Action>, u: State)
    requires Goes(s, xs, t) && Reachable(t) && (t.exec.Dropping? || t.exec.DropQueued?) && !t.sel.Draining?
    ensures Goes(s, ys, u) && Reachable(u)
    ensures u == t.(io := u.io, exec := ClosingReader(t.exec.task))
  {
    ExecutorTask(t);
    ys, u := xs, t;
    if u.exec.Dropping? {
      ys, u := Go(s, ys, u, PushRemove);
    }
    ys, u := Go(s, ys, u, WriteRemove);
  }

  lemma Closes(s: State, xs: seq<Action>, t: State) returns (ys: seq<Action>, u: State)
    requires Goes(s, xs, t) && Reachable(t) && (t.exec.ClosingReader? || t.exec.ClosingWriter?)
    ensures t.exec.task in t.tasks && !t.tasks[t.exec.task].Unopened?
    ensures Goes(s, ys, u) && Reachable(u) && Worked(t, u) && u.channel == t.channel
    ensures u.readable == t.readable - {t.tasks[t.exec.task].file}
  {
    ExecutorTask(t);
    ys, u := xs, t;
    if u.exec.ClosingReader? {
      ys, u := Go(s, ys, u, CloseReader);
    }
    ys, u := Go(s, ys, u, CloseWriter);
  }

  predicate Ending(s: State) {
    s.exec.Dropping? || s.exec.DropQueued? || s.exec.ClosingReader? || s.exec.ClosingWriter?
  }

  lemma Ends(s: State, xs: seq<Action>, t: State) returns (ys: seq<Action>, u: State)
    requires Goes(s, xs, t) && Reachable(t) && Ending(t) && !t.sel.Draining?
    ensures t.exec.task in t.tasks && !t.tasks[t.exec.task].Unopened?
    ensures Goes(s, ys, u) && Reachable(u) && Worked(t, u) && u.channel == t.channel
    ensures u.readable == t.readable - {t.tasks[t.exec.task].file}
  {
    ys, u := xs, t;
    if u.exec.Dropping? || u.exec.DropQueued? {
      ys, u := Unregisters(s, ys, u);
    }
    ys, u := Closes(s, ys, u);
  }

  /** A poll that accepts nothing: the server binds or sleeps, a connection ends. */
  lemma PollsQuietly(s: State, xs: seq<Action>, t: State) returns (ys: seq<Action>, u: State)
    requires Goes(s, xs, t) && Reachable(t) && t.exec.Polling? && !MustAccept(t) && !t.sel.Draining?
    ensures Goes(s, ys, u) && Reachable(u) && Worked(t, u) && u.channel == t.channel && t.exec.task in t.tasks
    ensures t.tasks[t.exec.task].Stream? ==> u.readable == t.readable - {t.tasks[t.exec.task].file}
  {
    ExecutorTask(t);
    ys, u := xs, t;
    if t.tasks[t.exec.task].Stream? {
      ys, u := Go(s, ys, u, ReadClosed);
      ys, u := Ends(s, ys, u);
    } else {
      if t.tasks[t.exec.task].Unopened? {
        var fd, file := FreshNumbers(t.io);
        ys, u := Go(s, ys, u, Listen(fd, file));
      }
      ys, u := Go(s, ys, u, WouldBlock);
      ys, u := Suspends(s, ys, u);
    }
  }

  /** A spawn that finds room, and the rest of that poll if no further connection is pending. */
  lemma SpawnsLast(s: State, xs: seq<Action>, t: State) returns (ys: seq<Action>, u: State)
    requires Goes(s, xs, t) && Reachable(t) && t.exec.Spawning? && !MustAccept(t) && !t.sel.Draining?
    requires |t.channel| < CAPACITY
    ensures Goes(s, ys, u) && Reachable(u) && Worked(t, u) && |u.channel| == |t.channel| + 1
  {
    ExecutorTask(t);
    ys, u := Go(s, xs, t, SendSpawned);
    ys, u := PollsQuietly(s, ys, u);
  }

  /** The listener accepts the last pending connection. */
  lemma AcceptsLast(s: State, xs: seq<Action>, t: State) returns (ys: seq<Action>, u: State)
    requires Goes(s, xs, t) && Reachable(t) && t.exec.Polling? && MustAccept(t) && !t.sel.Draining?
    requires |t.channel| < CAPACITY
    ensures Goes(s, ys, u) && Reachable(u) && Worked(t, u) && |u.channel| == |t.channel| + 1
    ensures u.readable <= t.readable - {t.tasks[t.exec.task].file}
  {
    ExecutorTask(t);
    var fd, file := FreshNumbers(t.io);
    ys, u := Go(s, xs, t, AcceptReady(fd, fd + 1, file, false));
    ExecutorTask(u);
    NewTaskIsOther(t, u);
    ys, u := SpawnsLast(s, ys, u);
  }

  /** The polled task is not the one it accepts. */
  lemma NewTaskIsOther(t: State, u: State)
    requires Reachable(t) && t.exec.Polling? && MustAccept(t)
    requires t.spawned in u.tasks && u.tasks == t.tasks[t.spawned := u.tasks[t.spawned]]
    ensures u.tasks[t.exec.task] == t.tasks[t.exec.task]
  {
    ReachableInv(t);
  }

  /** Whatever the executor is doing, unless it is doomed. */
  lemma Finishes(s: State) returns (ys: seq<Action>, u: State)
    requires Reachable(s) && !s.exec.Idle? && !s.sel.Draining? && !Doomed(s)
    ensures Goes(s, ys, u) && Reachable(u) && Worked(s, u)
    ensures |u.channel| + |u.readable| <= |s.channel| + |s.readable| + One(s.exec.Spawning?)
    ensures s.exec.task in s.tasks
    ensures s.exec.Polling? && HasFd(s.tasks[s.exec.task]) ==> u.readable <= s.readable - {s.tasks[s.exec.task].file}
  {
    ExecutorTask(s);
    if s.exec.Adding? || s.exec.AddQueued? {
      ys, u := Suspends(s, [], s);
      Fewer(u.readable, s.readable);
    } else if Ending(s) {
      ys, u := Ends(s, [], s);
      Fewer(u.readable, s.readable);
    } else if s.exec.Polling? {
      ys, u := Polls(s);
    } else {
      ys, u := Spawns(s);
    }
  }

  lemma Fewer(a: set<nat>, b: set<nat>)
    requires a <= b
    ensures |a| <= |b|
  {
    assert b == a + (b - a);
  }

  lemma Polls(s: State) returns (ys: seq<Action>, u: State)
    requires Reachable(s) && s.exec.Polling? && !s.sel.Draining? && !Doomed(s)
    ensures Goes(s, ys, u) && Reachable(u) && Worked(s, u) && |u.channel| + |u.readable| <= |s.channel| + |s.readable|
    ensures s.exec.task in s.tasks
    ensures HasFd(s.tasks[s.exec.task]) ==> u.readable <= s.readable - {s.tasks[s.exec.task].file}
  {
    ExecutorTask(s);
    if MustAccept(s) {
      ys, u := AcceptsLast(s, [], s);
      Fewer(u.readable, s.readable - {s.tasks[s.exec.task].file});
    } else {
      ys, u := PollsQuietly(s, [], s);
      Fewer(u.readable, s.readable);
    }
  }

  lemma Spawns(s: State) returns (ys: seq<Action>, u: State)
    requires Reachable(s) && s.exec.Spawning? && !s.sel.Draining? && !Doomed(s)
    ensures Goes(s, ys, u) && Reachable(u) && Worked(s, u)
    ensures |u.channel| + |u.readable| <= |s.channel| + |s.readable| + 1
  {
    ExecutorTask(s);
    if MustAccept(s) {
      var first, t := Go(s, [], s, SendSpawned);
      var rest;
      rest, u := Polls(t);
      GoOn(s, first, t, rest, u);
      ys := first + rest;
    } else {
      ys, u := SpawnsLast(s, [], s);
      Fewer(u.readable, s.readable);
    }
  }

  // ---------- the executor empties its channel ----------

  predicate Calm(s: State) { s.exec.Idle? && s.channel == [] }

  lemma {:induction false} EmptiesChannel(s: State) returns (ys: seq<Action>, u: State)
    requires Reachable(s) && s.exec.Idle? && !s.sel.Draining?
    ensures Goes(s, ys, u) && Reachable(u) && Worked(s, u) && u.channel == []
    decreases |s.channel| + |s.readable|
  {
    if s.channel == [] {
      ys, u := [], s;
    } else {
      ExecutorTask(s);
      var first, t := Go(s, [], s, Recv);
      var second, v := Finishes(t);
      var rest;
      rest, u := EmptiesChannel(v);
      GoOn(s, first, t, second, v);
      GoOn(s, first + second, v, rest, u);
      ys := first + second + rest;
    }
  }

  lemma Settles(s: State) returns (ys: seq<Action>, u: State)
    requires Reachable(s) && !s.sel.Draining? && !Doomed(s)
    ensures Goes(s, ys, u) && Reachable(u) && Worked(s, u) && u.channel == []
  {
    if s.exec.Idle? {
      ys, u := EmptiesChannel(s);
    } else {
      var first, t := Finishes(s);
      var rest;
      rest, u := EmptiesChannel(t);
      GoOn(s, first, t, rest, u);
      ys := first + rest;
    }
  }

  // ---------- the selector finishes its batch ----------

  lemma HandlesEventfd(s: State) returns (ys: seq<Action>, u: State)
    requires Reachable(s) && Calm(s) && s.sel.Handling? && s.sel.batch != [] && s.sel.batch[0] == s.event
    ensures Goes(s, ys, u) && Reachable(u) && Calm(u) && u.readable == s.readable && u.event == s.event
    ensures u.sel == Handling(s.sel.batch[1..]) && u.io.queue == []
  {
    ReachableInv(s);
    ys := EventfdAlone(s);
    u := Run(s, ys).value;
    StaysReachable(s, ys, u);
  }

  lemma WakerIsThere(s: State)
    requires Reachable(s) && s.sel.Handling? && s.sel.batch != [] && s.sel.batch[0] != s.event
    ensures s.sel.batch[0] in s.io.wakers
  {
    ReachableInv(s);
  }

  /** The next event of the batch: the waker taken, the task sent. */
  lemma HandlesWake(s: State) returns (ys: seq<Action>, u: State)
    requires Reachable(s) && Calm(s) && s.sel.Handling? && s.sel.batch != [] && s.sel.batch[0] != s.event
    ensures s.sel.batch[0] in s.io.wakers
    ensures Goes(s, ys, u) && Reachable(u)
    ensures u == s.(io := u.io, channel := [s.io.wakers[s.sel.batch[0]]], sel := Handling(s.sel.batch[1..]))
  {
    WakerIsThere(s);
    ys, u := Go(s, [], s, TakeWaker);
    ys, u := Go(s, ys, u, SendWoken);
  }

  lemma {:induction false} FinishesBatch(s: State) returns (ys: seq<Action>, u: State)
    requires Reachable(s) && Calm(s) && s.sel.Handling?
    ensures Goes(s, ys, u) && Reachable(u) && Calm(u) && u.sel.Waiting? && u.readable <= s.readable
    decreases |s.sel.batch|
  {
    if s.sel.batch == [] {
      ys, u := Go(s, [], s, EndBatch);
    } else {
      var first, t;
      if s.sel.batch[0] == s.event {
        first, t := HandlesEventfd(s);
      } else {
        var wake, w := HandlesWake(s);
        var work;
        work, t := EmptiesChannel(w);
        GoOn(s, wake, w, work, t);
        first := wake + work;
      }
      var rest;
      rest, u := FinishesBatch(t);
      GoOn(s, first, t, rest, u);
      ys := first + rest;
    }
  }

  /** Whatever the selector is doing, except draining the queue. */
  lemma FinishesSelector(s: State) returns (ys: seq<Action>, u: State)
    requires Reachable(s) && Calm(s) && !s.sel.Draining?
    ensures Goes(s, ys, u) && Reachable(u) && Calm(u) && u.sel.Waiting?
  {
    ReachableInv(s);
    if s.sel.Waiting? {
      ys, u := [], s;
    } else if s.sel.Handling? {
      ys, u := FinishesBatch(s);
    } else {
      var first, t := Go(s, [], s, SendWoken);
      var second, v := EmptiesChannel(t);
      var rest;
      rest, u := FinishesBatch(v);
      GoOn(s, first, t, second, v);
      GoOn(s, first + second, v, rest, u);
      ys := first + second + rest;
    }
  }

  // ---------- until there is nothing to do ----------

  /** `epoll_wait` reports one event. */
  lemma Reports(s: State, hit: (nat, nat)) returns (ys: seq<Action>, t: State)
    requires Reachable(s) && s.sel.Waiting? && Deliverable(s, hit)
    ensures Goes(s, ys, t) && Reachable(t) && t == s.(io := t.io, sel := Handling([hit.0]))
    ensures t.io.wakers == s.io.wakers
  {
    ys, t := Go(s, [], s, EpollReturns([hit]));
    assert t.sel.batch == [hit.0];
  }

  lemma EventfdIsReadable(s: State) returns (hit: (nat, nat))
    requires Reachable(s) && s.exec.Idle? && s.sel.Waiting? && s.io.queue != []
    ensures hit.0 == s.event && Deliverable(s, hit)
  {
    ReachableInv(s);
    hit := (s.event, s.io.table[s.event]);
  }

  lemma DrainsRequests(s: State) returns (ys: seq<Action>, u: State)
    requires Reachable(s) && Calm(s) && s.sel.Waiting? && s.io.queue != []
    ensures Goes(s, ys, u) && Reachable(u) && Calm(u) && u.sel.Waiting? && u.readable == s.readable && u.io.queue == []
  {
    var hit := EventfdIsReadable(s);
    var first, t := Reports(s, hit);
    var second, v := HandlesEventfd(t);
    GoOn(s, first, t, second, v);
    ys, u := Go(s, first + second, v, EndBatch);
  }

  lemma HitOfSleeper(s: State, hit: (nat, nat))
    requires Reachable(s) && s.sel.Waiting? && Deliverable(s, hit) && hit.0 != s.event
    ensures hit.0 in s.io.wakers && s.io.wakers[hit.0] in s.tasks
    ensures var sock := s.tasks[s.io.wakers[hit.0]]; HasFd(sock) && sock.file in s.readable
  {
    ReachableInv(s);
  }

  /** A task with something to read is woken. */
  lemma WakesReader(s: State, hit: (nat, nat)) returns (ys: seq<Action>, u: State, task: nat)
    requires Reachable(s) && Calm(s) && s.sel.Waiting? && Deliverable(s, hit) && hit.0 != s.event
    ensures Goes(s, ys, u) && Reachable(u) && u.sel.Waiting? && u.readable == s.readable && u.exec == Polling(task)
    ensures u.channel == [] && task in u.tasks && HasFd(u.tasks[task]) && u.tasks[task].file in u.readable
  {
    var first, t := Reports(s, hit);
    HitOfSleeper(s, hit);
    task := s.io.wakers[hit.0];
    var second, v := HandlesWake(t);
    GoOn(s, first, t, second, v);
    ys, u := Go(s, first + second, v, EndBatch);
    ys, u := Go(s, ys, u, Recv);
  }

  /** It runs, and takes what there is. */
  lemma ServesReader(s: State, hit: (nat, nat)) returns (ys: seq<Action>, u: State)
    requires Reachable(s) && Calm(s) && s.sel.Waiting? && Deliverable(s, hit) && hit.0 != s.event
    ensures Goes(s, ys, u) && Reachable(u) && Calm(u) && u.sel.Waiting? && |u.readable| < |s.readable|
  {
    var first, t, task := WakesReader(s, hit);
    var second, v := Polls(t);
    Fewer(v.readable, t.readable - {t.tasks[task].file});
    var rest;
    rest, u := EmptiesChannel(v);
    Fewer(u.readable, v.readable);
    GoOn(s, first, t, second, v);
    GoOn(s, first + second, v, rest, u);
    ys := first + second + rest;
  }

  lemma NoHitIsNothingToDo(s: State)
    requires Reachable(s) && Calm(s) && s.sel.Waiting? && s.io.queue == [] && forall hit :: !Deliverable(s, hit)
    ensures NothingToDo(s)
  {
    ReachableInv(s);
    forall t | t in s.tasks
      ensures InWakers(s, t) && Armed(s, s.tasks[t].fd) && s.tasks[t].file !in s.readable
    {
      assert Tokens(s, t) == One(t in s.tasks);
      assert Placed(s, s.tasks[t]);
      assert !Deliverable(s, (s.tasks[t].fd, s.tasks[t].file));
    }
  }

  lemma {:induction false} Quiesces(s: State) returns (ys: seq<Action>, u: State)
    requires Reachable(s) && Calm(s) && s.sel.Waiting?
    ensures Goes(s, ys, u) && NothingToDo(u)
    decreases |s.readable|, |s.io.queue|
  {
    var first, t;
    if s.io.queue != [] {
      first, t := DrainsRequests(s);
    } else if hit :| Deliverable(s, hit) {
      ReachableInv(s);
      first, t := ServesReader(s, hit);
    } else {
      NoHitIsNothingToDo(s);
      return [], s;
    }
    var rest;
    rest, u := Quiesces(t);
    GoOn(s, first, t, rest, u);
    ys := first + rest;
  }

  lemma Progress(s: State) returns (ys: seq<Action>, u: State)
    requires Reachable(s) && !Doomed(s)
    ensures Goes(s, ys, u) && NothingToDo(u)
  {
    var drain, t := [], s;
    if s.sel.Draining? {
      ReachableInv(s);
      drain := DrainAlone(s);
      t := Run(s, drain).value;
      StaysReachable(s, drain, t);
    }
    var second, v := Settles(t);
    var third, w := FinishesSelector(v);
    var rest;
    rest, u := Quiesces(w);
    GoOn(s, drain, t, second, v);
    GoOn(s, drain + second, v, third, w);
    GoOn(s, drain + second + third, w, rest, u);
    ys := drain + second + third + rest;
  }

  // ---------- and otherwise they cannot ----------

  lemma DoomedStep(s: State, a: Action)
    requires Reachable(s) && Doomed(s) && !a.SetReadable? && Step(s, a).Some?
    ensures Doomed(Step(s, a).value)
  {
    ExecutorTask(s);
    if a.AcceptReady? {
      ReachableInv(s);
      assert Placed(s, s.tasks[s.exec.task]);
    }
  }

  lemma {:induction false} DoomedForever(s: State, actions: seq<Action>)
    requires Reachable(s) && Doomed(s) && NoNetwork(actions) && Run(s, actions).Some?
    ensures Doomed(Run(s, actions).value)
    decreases |actions|
  {
    if actions != [] {
      DoomedStep(s, actions[0]);
      var t := Step(s, actions[0]).value;
      assert [actions[0]][1..] == [];
      StaysReachable(s, [actions[0]], t);
      DoomedForever(t, actions[1..]);
    }
  }

  /** The exact condition, for any number of tasks: the threads can finish all there is to
      do without the network, if and only if the executor is not bound to send more tasks
      than the channel has room for before it receives again. */
  lemma ProgressIff(event: nat, file: nat, actions: seq<Action>, s: State)
    requires Run(Start(event, file), actions) == Some(s)
    ensures (exists more, t :: Goes(s, more, t) && NothingToDo(t)) <==> !Doomed(s)
  {
    assert Reachable(s);
    if Doomed(s) {
      forall more, t | Goes(s, more, t)
        ensures !NothingToDo(t)
      {
        DoomedForever(s, more);
      }
    } else {
      var more, t := Progress(s);
      assert Goes(s, more, t) && NothingToDo(t);
    }
  }

  lemma FewAreNotDoomed(s: State)
    requires Reachable(s) && |s.tasks| <= CAPACITY
    ensures !Doomed(s)
  {
    ReachableInv(s);
    if s.exec.Spawning? {
      ChannelBound(s, {s.exec.task, s.exec.child});
    } else if s.exec.Polling? {
      ChannelBound(s, {s.exec.task});
    }
  }

  /** With at most 1024 unfinished tasks they always can. */
  lemma FewTasksProgress(event: nat, file: nat, actions: seq<Action>, s: State) returns (more: seq<Action>, t: State)
    requires Run(Start(event, file), actions) == Some(s) && |s.tasks| <= CAPACITY
    ensures NoNetwork(more) && Run(s, more) == Some(t) && NothingToDo(t)
  {
    assert Reachable(s);
    FewAreNotDoomed(s);
    more, t := Progress(s);
  }
}
