/** The executor of the echo server as the source writes it: `run` receives tasks in
    a loop and polls each until it suspends or ends, while the kernel's answers are
    input. Between two runs the selector handles one batch. Every execution of this
    code is a run of the state machine. */
module EpollExecutor {
  import opened Options
  import opened Indicator
  import opened EpollIo
  import opened EpollMachine
  import opened EpollProofs
  import opened EpollTheorems
  import opened EpollSelector

  /** What a system call finds; an answer that is impossible counts as `Nothing`. */
  datatype Answer =
    | Bound(fd: nat, file: nat)
    | Accepted(rfd: nat, wfd: nat, file: nat, more: bool)
    | Line(more: bool)
    | Closed
    | Nothing

  /** What follows the lines at the front of the kernel's answers. */
  function AfterLines(answers: seq<Answer>): (rest: seq<Answer>)
    ensures |rest| <= |answers| && (rest != [] ==> !rest[0].Line?)
    decreases |answers|
  {
    if answers == [] || !answers[0].Line? then answers else AfterLines(answers[1..])
  }

  function First(answers: seq<Answer>): Answer { if answers == [] then Nothing else answers[0] }

  function Rest(answers: seq<Answer>): seq<Answer> { if answers == [] then [] else answers[1..] }

  predicate UnusedFile(table: map<nat, nat>, file: nat) { forall fd :: fd in table ==> table[fd] != file }

  /** `bind` succeeds: the listener gets an unused descriptor. */
  predicate Binds(table: map<nat, nat>, a: Answer) {
    a.Bound? && a.fd !in table && UnusedFile(table, a.file)
  }

  /** `accept` returns a stream, which can be cloned: two unused descriptors. */
  predicate Accepts(table: map<nat, nat>, a: Answer) {
    a.Accepted? && a.rfd != a.wfd && a.rfd !in table && a.wfd !in table && UnusedFile(table, a.file)
  }

  /** After the first `n` answers another connection is pending; `ready` says so for none. */
  predicate Pending(ready: bool, answers: seq<Answer>, n: nat) {
    if n == 0 then ready else n <= |answers| && answers[n - 1].Accepted? && answers[n - 1].more
  }

  /** The first `n` answers are connections, and they are the tasks numbered from `first` on. */
  ghost predicate BecomeTasks(answers: seq<Answer>, n: nat, first: nat, tasks: map<nat, Sock>) {
    && n <= |answers|
    && forall i :: 0 <= i < n ==>
         && answers[i].Accepted? && first + i in tasks
         && tasks[first + i] == Stream(answers[i].rfd, answers[i].wfd, answers[i].file)
  }

  /** What the server's task has done with its first `n` answers: `tasks` has become
      `grown`, and `sent` numbers are in the channel. */
  ghost predicate Served(answers: seq<Answer>, n: nat, first: nat, tasks: map<nat, Sock>, grown: map<nat, Sock>) {
    && BecomeTasks(answers, n, first, grown)
    && (forall t :: t in tasks ==> t in grown && grown[t] == tasks[t])
    && (forall t :: t in grown ==> t in tasks || first <= t < first + n)
  }

  lemma ServedOneMore(answers: seq<Answer>, n: nat, first: nat, tasks: map<nat, Sock>, grown: map<nat, Sock>)
    requires Served(answers, n, first, tasks, grown) && n < |answers| && answers[n].Accepted?
    requires first + n !in grown
    ensures var a := answers[n];
            Served(answers, n + 1, first, tasks, grown[first + n := Stream(a.rfd, a.wfd, a.file)])
  {
  }

  /** The server's poll has come from `s` to `t`: each answer used up is a connection, which
      has got the next number and been sent. */
  ghost predicate Serving(task: nat, s: State, answers: seq<Answer>, t: State, left: seq<Answer>) {
    && task in s.tasks && s.tasks[task].Listener? && s.spawned <= t.spawned
    && task in t.tasks && t.tasks[task] == s.tasks[task]
    && var n := t.spawned - s.spawned;
    && Served(answers, n, s.spawned, s.tasks, t.tasks) && left == answers[n..]
    && t.channel == s.channel + Numbers(s.spawned, n)
    && (s.tasks[task].file in t.readable <==> Pending(s.tasks[task].file in s.readable, answers, n))
    && (n == 0 ==> t.io.table == s.io.table)
  }

  /** A poll of the server at `s` with these answers ends at `t` with the answers `left`:
      each answer but the last is a connection, which gets the next number and is sent;
      the last is missing or none that `accept` may give. If the channel is full, the
      last connection is yet to be sent. */
  ghost predicate ServerPolled(task: nat, s: State, answers: seq<Answer>, t: State, left: seq<Answer>) {
    && task in s.tasks && s.tasks[task].Listener? && s.spawned <= t.spawned
    && var n := t.spawned - s.spawned;
    && Served(answers, n, s.spawned, s.tasks, t.tasks)
    && var rest := answers[n..];
    if t.exec.Idle? then
      && t.channel == s.channel + Numbers(s.spawned, n) && left == Rest(rest)
      && !(Pending(s.tasks[task].file in s.readable, answers, n) && Accepts(t.io.table, First(rest)))
      && (n == 0 ==> t.io.table == s.io.table)
    else
      && n > 0 && t.exec == Spawning(task, t.spawned - 1) && |t.channel| >= CAPACITY
      && t.channel == s.channel + Numbers(s.spawned, n - 1) && left == rest
  }

  /** One turn of the server's loop: the answer becomes a task, which is sent if there is
      room, or the poll ends. */
  ghost predicate NextServed(task: nat, s: State, answers: seq<Answer>, t: State, left: seq<Answer>) {
    && task in s.tasks && s.tasks[task].Listener? && left == Rest(answers)
    && var a := First(answers);
    if s.tasks[task].file in s.readable && Accepts(s.io.table, a) then
      && s.spawned !in s.tasks && t.spawned == s.spawned + 1
      && t.tasks == s.tasks[s.spawned := Stream(a.rfd, a.wfd, a.file)]
      && (s.tasks[task].file in t.readable <==> a.more)
      && if |s.channel| < CAPACITY then t.exec == Polling(task) && t.channel == s.channel + [s.spawned]
         else t.exec == Spawning(task, s.spawned) && t.channel == s.channel
    else
      && t.exec == Idle && t.spawned == s.spawned && t.tasks == s.tasks && t.channel == s.channel
      && t.io.table == s.io.table
  }

  lemma ServingOn(task: nat, s: State, answers: seq<Answer>, mid: State, rest: seq<Answer>, t: State, left: seq<Answer>)
    requires Serving(task, s, answers, mid, rest) && NextServed(task, mid, rest, t, left)
    ensures if t.exec == Polling(task) then Serving(task, s, answers, t, left)
            else ServerPolled(task, s, answers, t, left)
  {
    var n := mid.spawned - s.spawned;
    if t.spawned > mid.spawned {
      ServedOneMore(answers, n, s.spawned, s.tasks, mid.tasks);
      assert Numbers(s.spawned, n + 1) == Numbers(s.spawned, n) + [mid.spawned];
    }
  }

  /** A connection that is pending is accepted. */
  lemma ServesAtLeastOne(task: nat, s: State, answers: seq<Answer>, t: State, left: seq<Answer>)
    requires ServerPolled(task, s, answers, t, left)
    requires s.tasks[task].file in s.readable && Accepts(s.io.table, First(answers))
    ensures t.spawned > s.spawned
  {
    assert answers[0..] == answers;
  }

  /** A poll of a connection: lines, and then the end of the connection or nothing. */
  ghost predicate ConnectionPolled(task: nat, s: State, answers: seq<Answer>, t: State, left: seq<Answer>) {
    && task in s.tasks && s.tasks[task].Stream?
    && var rest := AfterLines(answers);
    && left == Rest(rest) && t.exec.Idle? && t.channel == s.channel && t.spawned == s.spawned
    && t.tasks == if First(rest).Closed? then s.tasks - {task} else s.tasks
  }

  /** The server's first poll begins by binding its listener. */
  function Opened(task: nat, s: State, a: Answer): State
    requires a.Bound?
  {
    s.(io := s.io.(table := s.io.table[a.fd := a.file]), readable := s.readable - {a.file},
       tasks := s.tasks[task := Listener(a.fd, a.file)])
  }

  /** One poll of a task. */
  ghost predicate TaskPolled(task: nat, s: State, answers: seq<Answer>, t: State, left: seq<Answer>) {
    task in s.tasks &&
    match s.tasks[task]
    case Unopened =>
      if Binds(s.io.table, First(answers)) then
        ServerPolled(task, Opened(task, s, First(answers)), Rest(answers), t, left)
      else t == s && left == Rest(answers)
    case Listener(_, _) => ServerPolled(task, s, answers, t, left)
    case Stream(_, _, _) => ConnectionPolled(task, s, answers, t, left)
    case WriterOnly(_, _) => false
  }

  /** One turn of the executor's loop: the first task of the channel is polled. */
  ghost predicate Turn(s: State, answers: seq<Answer>, t: State, left: seq<Answer>) {
    && s.exec.Idle? && s.channel != []
    && TaskPolled(s.channel[0], s.(channel := s.channel[1..], exec := Polling(s.channel[0])), answers, t, left)
  }

  /** A turn uses up an answer, or, with none left, a message. */
  lemma TurnUsesUp(s: State, answers: seq<Answer>, t: State, left: seq<Answer>)
    requires Turn(s, answers, t, left) && t.exec.Idle?
    ensures |left| < |answers| || (|left| == |answers| && |t.channel| < |s.channel|)
  {
  }

  /** Turns of the loop one after the other. */
  ghost predicate Turns(states: seq<State>, answers: seq<seq<Answer>>) {
    && |states| == |answers|
    && forall i :: 0 <= i < |states| - 1 ==> Turn(states[i], answers[i], states[i + 1], answers[i + 1])
  }

  lemma TurnsSnoc(states: seq<State>, answers: seq<seq<Answer>>, t: State, left: seq<Answer>)
    requires Turns(states, answers) && states != []
    requires Turn(states[|states| - 1], answers[|states| - 1], t, left)
    ensures Turns(states + [t], answers + [left])
    ensures t.exec.Polling? ==> BindRefused(states + [t], answers + [left])
  {
  }

  /** The last turn polled the server for the first time, and the answer was none that `bind`
      may give. */
  ghost predicate BindRefused(states: seq<State>, answers: seq<seq<Answer>>) {
    && |states| == |answers| >= 2
    && var s, task := states[|states| - 2], states[|states| - 1].exec;
    && task.Polling? && task.task in s.tasks && s.tasks[task.task].Unopened?
    && !Binds(s.io.table, First(answers[|answers| - 2]))
  }

  function Numbers(first: nat, n: nat): (numbers: seq<nat>)
    ensures |numbers| == n && forall i :: 0 <= i < n ==> numbers[i] == first + i
  {
    seq(n, i => first + i)
  }

  lemma RunSnoc(start: State, trace: seq<Action>, before: State, a: Action)
    requires Run(start, trace) == Some(before) && Step(before, a).Some?
    ensures Run(start, trace + [a]) == Step(before, a)
  {
    RunCons(before, a, []);
    assert [a] + [] == [a];
    RunConcat(start, trace, [a]);
  }

  /** The task being polled is unfinished, older than any task to come, and not being dropped. */
  lemma PolledTaskLives(event: nat, file: nat, trace: seq<Action>, s: State)
    requires Run(Start(event, file), trace) == Some(s) && s.exec.Polling?
    ensures s.exec.task in s.tasks && !s.tasks[s.exec.task].WriterOnly?
    ensures forall t :: t in s.tasks ==> t < s.spawned
    ensures HasFd(s.tasks[s.exec.task]) ==> !FreshFile(s.io, s.tasks[s.exec.task].file)
  {
    StartInv(event, file);
    RunInv(Start(event, file), trace);
    assert Placed(s, s.tasks[s.exec.task]);
  }

  /** A spawn blocks only when there are more tasks than the channel holds. */
  lemma FullMeansManyTasks(event: nat, file: nat, trace: seq<Action>, s: State)
    requires Run(Start(event, file), trace) == Some(s) && s.exec.Spawning? && |s.channel| >= CAPACITY
    ensures |s.tasks| > CAPACITY + 1
  {
    StartInv(event, file);
    RunInv(Start(event, file), trace);
    if |s.tasks| <= CAPACITY + 1 {
      SpawnHasRoom(s);
    }
  }

  /** A batch that `epoll_wait` returns is handled completely. */
  lemma BatchIsHandled(event: nat, file: nat, trace: seq<Action>, s: State, hits: seq<(nat, nat)>)
    returns (longer: seq<Action>)
    requires Run(Start(event, file), trace) == Some(s) && s.exec.Idle? && |s.tasks| <= CAPACITY
    requires StepEpoll(s, hits).Some?
    ensures var waited := StepEpoll(s, hits).value;
            && HandleBatch(waited.io, s.event, Fds(hits)).Finished?
            && Run(Start(event, file), longer) == Some(AfterBatch(waited))
  {
    var waited := StepEpoll(s, hits).value;
    StartInv(event, file);
    RunSnoc(Start(event, file), trace, s, EpollReturns(hits));
    RunInv(Start(event, file), trace + [EpollReturns(hits)]);
    var steps := SelectNeverFails(waited);
    RunConcat(Start(event, file), trace + [EpollReturns(hits)], steps);
    longer := trace + [EpollReturns(hits)] + steps;
  }

  class Executor {
    const selector: IOSelector
    var channel: seq<nat>
    var tasks: map<nat, Sock>
    var spawned: nat
    var readable: set<nat>
    var answers: seq<Answer>
    ghost const eventFile: nat
    ghost var trace: seq<Action>

    /** `main`: a selector, an executor, and the server's task in its channel. */
    constructor (event: nat, file: nat, answers: seq<Answer>)
      ensures fresh(selector) && Reached(Idle)
    {
      selector := new IOSelector(event, file);
      channel, tasks, spawned, readable := [0], map[0 := Unopened], 1, {};
      this.answers := answers;
      eventFile, trace := file, [];
    }

    ghost function At(exec: Exec): State
      reads this, selector
    {
      State(selector.View(), selector.event, readable, tasks, spawned, channel, exec, Waiting)
    }

    /** The current state, with the executor at `exec`, ends a run of the machine. */
    ghost predicate Reached(exec: Exec)
      reads this, selector
    {
      Run(Beginning(), trace) == Some(At(exec))
    }

    ghost function Beginning(): State { Start(selector.event, eventFile) }

    method Ask() returns (answer: Answer)
      modifies this`answers
      ensures answer == First(old(answers)) && answers == Rest(old(answers))
    {
      if answers == [] {
        return Nothing;
      }
      answer := answers[0];
      answers := answers[1..];
    }

    /** The kernel takes back a readiness that came to nothing. */
    method Unready(task: nat)
      requires Reached(Polling(task)) && task in tasks && HasFd(tasks[task])
      modifies this`readable, this`trace
      ensures Reached(Polling(task)) && readable == old(readable) - {tasks[task].file}
    {
      PolledTaskLives(selector.event, eventFile, trace, At(Polling(task)));
      RunSnoc(Beginning(), trace, At(Polling(task)), SetReadable(tasks[task].file, false));
      readable := readable - {tasks[task].file};
      trace := trace + [SetReadable(tasks[task].file, false)];
    }

    /** WouldBlock, so there is nothing left to accept or read: register with the selector
        and return Pending. */
    method Suspend(task: nat)
      requires Reached(Polling(task)) && task in tasks && HasFd(tasks[task])
      modifies this`readable, this`trace, selector`queue, selector`counter
      ensures Reached(Idle) && channel == old(channel)
    {
      Unready(task);
      RunSnoc(Beginning(), trace, At(Polling(task)), WouldBlock);
      trace := trace + [WouldBlock];
      RunSnoc(Beginning(), trace, At(Adding(task)), PushAdd);
      RunSnoc(Beginning(), trace + [PushAdd], StepPushAdd(At(Adding(task))).value, WriteAdd);
      selector.Register(tasks[task].fd, task);
      trace := trace + [PushAdd] + [WriteAdd];
    }

    /** `Drop` of the reader: REMOVE is queued before the descriptor is closed. */
    method DropReader(task: nat)
      requires Reached(Dropping(task)) && task in tasks && tasks[task].Stream?
      modifies this`trace, selector`queue, selector`counter
      ensures Reached(ClosingReader(task))
    {
      RunSnoc(Beginning(), trace, At(Dropping(task)), PushRemove);
      RunSnoc(Beginning(), trace + [PushRemove], StepPushRemove(At(Dropping(task))).value, WriteRemove);
      selector.Unregister(tasks[task].fd);
      trace := trace + [PushRemove] + [WriteRemove];
    }

    /** The fields of the finished task are dropped: the reader, then the writer. */
    method CloseSockets(task: nat)
      requires Reached(ClosingReader(task)) && task in tasks && tasks[task].Stream?
      modifies this`tasks, this`readable, this`trace, selector`table, selector`interest
      ensures Reached(Idle) && tasks == old(tasks) - {task}
    {
      var sock := tasks[task];
      RunSnoc(Beginning(), trace, At(ClosingReader(task)), CloseReader);
      CloseFd(sock.fd, sock.file);
      tasks := tasks[task := WriterOnly(sock.wfd, sock.file)];
      trace := trace + [CloseReader];
      RunSnoc(Beginning(), trace, At(ClosingWriter(task)), CloseWriter);
      CloseFd(sock.wfd, sock.file);
      tasks := tasks - {task};
      readable := readable - {sock.file};
      trace := trace + [CloseWriter];
    }

    method CloseFd(fd: nat, file: nat)
      modifies selector`table, selector`interest
      ensures selector.View() == Close(old(selector.View()), fd, file)
    {
      var table := selector.table - {fd};
      if !exists g :: g in table && table[g] == file {
        selector.interest := map p | p in selector.interest && p.1 != file :: selector.interest[p];
      }
      selector.table := table;
    }

    /** A connection's task: echo lines until there is none (suspend) or the peer is gone. */
    method PollConnection(task: nat)
      requires Reached(Polling(task)) && task in tasks && tasks[task].Stream?
      modifies this`tasks, this`readable, this`answers, this`trace, selector
      ensures Reached(Idle) && ConnectionPolled(task, old(At(Polling(task))), old(answers), At(Idle), answers)
    {
      while true
        invariant Reached(Polling(task)) && task in tasks && tasks[task].Stream?
        invariant channel == old(channel) && tasks == old(tasks)
        invariant AfterLines(answers) == AfterLines(old(answers))
        decreases |answers|
      {
        ghost var rest := AfterLines(answers);
        var answer := Ask();
        assert answer.Line? ==> AfterLines(answers) == rest;
        match answer
        case Line(more) =>
          RunSnoc(Beginning(), trace, At(Polling(task)), ReadReady(more));
          readable := SetLevel(readable, tasks[task].file, more);
          trace := trace + [ReadReady(more)];
        case Closed =>
          RunSnoc(Beginning(), trace, At(Polling(task)), ReadClosed);
          trace := trace + [ReadClosed];
          DropReader(task);
          CloseSockets(task);
          return;
        case _ =>
          Suspend(task);
          return;
      }
    }

    /** Data or a connection arrives at an open file. */
    method Arrive(file: nat, ghost exec: Exec)
      requires Reached(exec) && !UnusedFile(selector.table, file)
      modifies this`readable, this`trace
      ensures Reached(exec) && readable == old(readable) + {file}
    {
      RunSnoc(Beginning(), trace, At(exec), SetReadable(file, true));
      readable := readable + {file};
      trace := trace + [SetReadable(file, true)];
    }

    predicate CanAccept(task: nat, a: Answer)
      reads this, selector
    {
      task in tasks && tasks[task].Listener? && tasks[task].file in readable && Accepts(selector.table, a)
    }

    /** `accept` returns a stream, which is cloned; the new connection gets a task. */
    method Accept(task: nat, a: Answer) returns (child: nat)
      requires Reached(Polling(task)) && CanAccept(task, a)
      modifies this`tasks, this`readable, this`spawned, this`trace, selector`table
      ensures Reached(Spawning(task, child)) && child == old(spawned) && spawned == old(spawned) + 1
      ensures tasks == old(tasks)[child := Stream(a.rfd, a.wfd, a.file)] && child !in old(tasks)
      ensures task in tasks && tasks[task] == old(tasks[task])
      ensures answers == old(answers) && channel == old(channel)
      ensures tasks[task].Listener? && (tasks[task].file in readable <==> a.more)
    {
      PolledTaskLives(selector.event, eventFile, trace, At(Polling(task)));
      ghost var step := AcceptReady(a.rfd, a.wfd, a.file, a.more);
      RunSnoc(Beginning(), trace, At(Polling(task)), step);
      child := spawned;
      selector.table := selector.table[a.wfd := a.file][a.rfd := a.file];
      readable := SetLevel(readable, tasks[task].file, a.more) - {a.file};
      tasks := tasks[child := Stream(a.rfd, a.wfd, a.file)];
      spawned := spawned + 1;
      trace := trace + [step];
    }

    /** `Spawner::spawn`: the new task joins the channel. False when that blocks. */
    method Send(task: nat, child: nat) returns (ok: bool)
      requires Reached(Spawning(task, child))
      modifies this`channel, this`trace
      ensures ok == (|old(channel)| < CAPACITY)
      ensures if ok then Reached(Polling(task)) else Reached(Spawning(task, child)) && |tasks| > CAPACITY + 1
      ensures channel == if ok then old(channel) + [child] else old(channel)
    {
      if |channel| >= CAPACITY {
        FullMeansManyTasks(selector.event, eventFile, trace, At(Spawning(task, child)));
        return false;
      }
      RunSnoc(Beginning(), trace, At(Spawning(task, child)), SendSpawned);
      channel := channel + [child];
      trace := trace + [SendSpawned];
      ok := true;
    }

    /** One turn of the server's loop: accept a connection and spawn its task, or register
        and return Pending. */
    method AcceptNext(task: nat) returns (more: bool, blocked: bool, ghost stop: Exec)
      requires Reached(Polling(task)) && task in tasks && tasks[task].Listener?
      modifies this`tasks, this`readable, this`spawned, this`channel, this`answers, this`trace, selector
      ensures Reached(stop) && NextServed(task, old(At(Polling(task))), old(answers), At(stop), answers)
      ensures (more <==> stop == Polling(task)) && (blocked <==> stop.Spawning?)
      ensures blocked ==> |tasks| > CAPACITY + 1
    {
      var answer := Ask();
      if !CanAccept(task, answer) {
        Suspend(task);
        return false, false, Idle;
      }
      PolledTaskLives(selector.event, eventFile, trace, At(Polling(task)));
      var child := Accept(task, answer);
      more := Send(task, child);
      blocked := !more;
      stop := if more then Polling(task) else Spawning(task, child);
    }

    /** The server's task: accept and spawn until no connection is pending. False
        when the spawn blocks on a full channel. */
    method PollServer(task: nat) returns (ok: bool, ghost stop: Exec)
      requires Reached(Polling(task)) && task in tasks && tasks[task].Listener?
      modifies this`tasks, this`readable, this`spawned, this`channel, this`answers, this`trace, selector
      ensures Reached(stop) && (if ok then stop == Idle else stop.Spawning? && |tasks| > CAPACITY + 1)
      ensures ServerPolled(task, old(At(Polling(task))), old(answers), At(stop), answers)
      ensures old(CanAccept(task, First(answers))) ==> spawned > old(spawned)
    {
      ghost var start, mid, rest := At(Polling(task)), At(Polling(task)), answers;
      var more, blocked := true, false;
      stop := Polling(task);
      while more
        invariant (more <==> stop == Polling(task)) && (blocked <==> stop.Spawning?)
        invariant Reached(stop) && (blocked ==> |tasks| > CAPACITY + 1)
        invariant if more then Serving(task, start, old(answers), At(stop), answers)
                  else ServerPolled(task, start, old(answers), At(stop), answers)
        decreases more, |answers|
      {
        mid, rest := At(stop), answers;
        more, blocked, stop := AcceptNext(task);
        ServingOn(task, start, old(answers), mid, rest, At(stop), answers);
      }
      ok := !blocked;
      if old(CanAccept(task, First(answers))) {
        ServesAtLeastOne(task, start, old(answers), At(stop), answers);
      }
    }

    /** The server's first poll binds the listener; false if that fails. */
    method Listen(task: nat) returns (ok: bool)
      requires Reached(Polling(task)) && task in tasks && tasks[task].Unopened?
      modifies this`tasks, this`readable, this`answers, this`trace, selector`table
      ensures Reached(Polling(task)) && channel == old(channel)
      ensures ok == Binds(old(selector.table), old(First(answers))) && answers == Rest(old(answers))
      ensures At(Polling(task)) ==
              if ok then Opened(task, old(At(Polling(task))), old(First(answers))) else old(At(Polling(task)))
    {
      var a := Ask();
      ok := Binds(selector.table, a);
      if ok {
        RunSnoc(Beginning(), trace, At(Polling(task)), EpollMachine.Action.Listen(a.fd, a.file));
        selector.table := selector.table[a.fd := a.file];
        tasks := tasks[task := Listener(a.fd, a.file)];
        readable := readable - {a.file};
        trace := trace + [EpollMachine.Action.Listen(a.fd, a.file)];
      }
    }

    /** One poll of a task. False if it panics binding the listener or blocks spawning. */
    method PollTask(task: nat) returns (ok: bool, ghost stop: Exec)
      requires Reached(Polling(task))
      modifies this, selector
      ensures Reached(stop) && TaskPolled(task, old(At(Polling(task))), old(answers), At(stop), answers)
      ensures if ok then stop == Idle else stop == Polling(task) || (stop.Spawning? && |tasks| > CAPACITY + 1)
    {
      PolledTaskLives(selector.event, eventFile, trace, At(Polling(task)));
      ok, stop := true, Idle;
      if tasks[task].Stream? {
        PollConnection(task);
        return;
      }
      if tasks[task].Unopened? {
        ok := Listen(task);
        stop := Polling(task);
      }
      if ok {
        ok, stop := PollServer(task);
      }
    }

    /** One turn of `run`: receive a task and poll it. */
    method RunTask() returns (ok: bool, ghost stop: Exec)
      requires Reached(Idle) && channel != []
      modifies this, selector
      ensures Reached(stop) && Turn(old(At(Idle)), old(answers), At(stop), answers)
      ensures if ok then stop == Idle else stop.Polling? || (stop.Spawning? && |tasks| > CAPACITY + 1)
    {
      var task := channel[0];
      RunSnoc(Beginning(), trace, At(Idle), Recv);
      channel := channel[1..];
      trace := trace + [Recv];
      ok, stop := PollTask(task);
    }

    /** `run`, until it waits on an empty channel (true), or panics binding the
        listener, or blocks spawning into a full channel (false). */
    method RunTasks() returns (ok: bool, ghost stop: Exec, ghost states: seq<State>, ghost left: seq<seq<Answer>>)
      requires Reached(Idle)
      modifies this, selector
      ensures Reached(stop) && (ok ==> stop == Idle && channel == [])
      ensures !ok ==> stop.Polling? || (stop.Spawning? && |tasks| > CAPACITY + 1)
      ensures Turns(states, left) && states != []
      ensures states[0] == old(At(Idle)) && left[0] == old(answers)
      ensures states[|states| - 1] == At(stop) && left[|states| - 1] == answers
      ensures stop.Polling? ==> BindRefused(states, left)
    {
      ok, stop, states, left := true, Idle, [At(Idle)], [answers];
      while ok && channel != []
        invariant Reached(stop) && (if ok then stop == Idle else stop.Polling? || stop.Spawning?)
        invariant stop.Spawning? ==> |tasks| > CAPACITY + 1
        invariant Turns(states, left) && states != []
        invariant states[0] == old(At(Idle)) && left[0] == old(answers)
        invariant states[|states| - 1] == At(stop) && left[|states| - 1] == answers
        invariant stop.Polling? ==> BindRefused(states, left)
        decreases ok, |answers|, |channel|
      {
        ok, stop := RunTask();
        if ok {
          TurnUsesUp(states[|states| - 1], left[|states| - 1], At(stop), answers);
        }
        TurnsSnoc(states, left, At(stop), answers);
        states, left := states + [At(stop)], left + [answers];
      }
    }

    /** The selector's turn: `epoll_wait` reports some deliverable events and the
        loop of `select` handles them. It never fails. */
    method SelectorTurn(hits: seq<(nat, nat)>)
      requires Reached(Idle) && |tasks| <= CAPACITY
      requires StepEpoll(At(Idle), hits).Some?
      modifies this`channel, this`trace, selector
      ensures var waited := StepEpoll(old(At(Idle)), hits).value;
              HandleBatch(waited.io, waited.event, Fds(hits)).Finished? && At(Idle) == AfterBatch(waited)
      ensures Reached(Idle)
    {
      ghost var longer := BatchIsHandled(selector.event, eventFile, trace, At(Idle), hits);
      selector.interest := Disarm(selector.interest, selector.event, hits);
      var ok, woken := selector.Select(Fds(hits));
      channel := channel + woken;
      trace := longer;
    }
  }
}
