/** Which connections a parked worker can leave unserved, and how they are rescued. */
module ParkTheorems {
  import opened Options
  import opened ParkModel

  predicate Asleep(w: Worker) { w.place.GoingToSleep? || w.place.Parking? }

  /** No connection is lost or reordered; a sleeper has nothing left from before it
      found its channel empty; a parked worker without a token has its flag up, or
      the dispatcher is on the way to unpark it, and nothing was checked since. */
  predicate Consistent(w: Worker, d: Dispatch) {
    && w.sent == w.served + w.chan
    && |w.sent| == w.checked + (if d.Sent? then 1 else 0)
    && (Asleep(w) ==> w.tasks == [] && w.mark == |w.served|)
    && (w.place.Parking? && !w.token && !d.SeenSet? && !d.Cleared? ==> w.flag && w.checked == w.stored)
  }

  /** What the dispatcher is doing for worker `i`. */
  function Phase(s: State, i: nat): Dispatch { if s.index == i then s.dispatch else Accepting }

  predicate WorkerOk(s: State, i: nat)
    requires Valid(s) && i < WORKERS
  {
    Consistent(s.workers[i], Phase(s, i))
  }

  ghost predicate Inv(s: State) { Valid(s) && forall i: nat :: i < WORKERS ==> WorkerOk(s, i) }

  predicate DispatchAction(a: Action) { a.Send? || a.CheckFlag? || a.ClearFlag? || a.Unpark? }

  lemma DispatchInv(s: State, a: Action, i: nat)
    requires Inv(s) && DispatchAction(a) && Step(s, a).Some? && i < WORKERS
    ensures WorkerOk(Step(s, a).value, i)
  {
    assert WorkerOk(s, i);
    if a.Send? && i == s.index {
      var w := s.workers[i];
      assert w.served + w.chan + [a.conn] == w.served + (w.chan + [a.conn]);
    }
  }

  lemma ReceiveConsistent(w: Worker, d: Dispatch)
    requires Consistent(w, d) && w.place.Top?
    ensures Consistent(ReceiveOrSleep(w), d)
  {
    if w.chan != [] {
      assert w.served + w.chan == (w.served + [w.chan[0]]) + w.chan[1..];
    }
  }

  lemma LoopInv(s: State, a: Action, i: nat)
    requires Inv(s) && !DispatchAction(a) && Step(s, a).Some? && i < WORKERS
    ensures WorkerOk(Step(s, a).value, i)
  {
    assert WorkerOk(s, i);
    if a.w == i && a.TryRecv? {
      ReceiveConsistent(s.workers[i], Phase(s, i));
    }
  }

  lemma StepInv(s: State, a: Action)
    requires Inv(s) && Step(s, a).Some?
    ensures Inv(Step(s, a).value)
  {
    forall i: nat | i < WORKERS
      ensures WorkerOk(Step(s, a).value, i)
    {
      if DispatchAction(a) {
        DispatchInv(s, a, i);
      } else {
        LoopInv(s, a, i);
      }
    }
  }

  lemma {:induction false} RunInv(s: State, actions: seq<Action>)
    requires Inv(s) && Run(s, actions).Some?
    ensures Inv(Run(s, actions).value)
    decreases |actions|
  {
    if actions != [] {
      StepInv(s, actions[0]);
      RunInv(Step(s, actions[0]).value, actions[1..]);
    }
  }

  /** The connections sent, and their flag checked, between the failing `try_recv`
      and the flag store. */
  function Window(w: Worker): seq<Conn> {
    if w.mark <= w.stored <= |w.sent| then w.sent[w.mark..w.stored] else []
  }

  predicate Stuck(w: Worker) { w.place.Parking? && !w.token }

  /** While no connection is being dispatched, a worker parked without a token has
      no task and its flag up, and what it leaves unserved is exactly its window. */
  lemma ParkedLeavesItsWindow(actions: seq<Action>, s: State, i: nat)
    requires Run(START, actions) == Some(s) && i < WORKERS
    requires s.dispatch.Accepting? && Stuck(s.workers[i])
    ensures s.workers[i].flag && s.workers[i].tasks == []
    ensures s.workers[i].chan == Window(s.workers[i])
    ensures s.workers[i].sent == s.workers[i].served + Window(s.workers[i])
  {
    assert Inv(START);
    RunInv(START, actions);
    assert WorkerOk(s, i);
  }

  /** Every worker receives exactly what was sent to it, in order. */
  lemma ServedInOrder(actions: seq<Action>, s: State, i: nat)
    requires Run(START, actions) == Some(s) && i < WORKERS
    ensures s.workers[i].sent == s.workers[i].served + s.workers[i].chan
  {
    assert Inv(START);
    RunInv(START, actions);
    assert WorkerOk(s, i);
  }

  // ---------- received connections are handled ----------

  /** Each received connection is a task of the executor or has finished, once. */
  ghost predicate Handled(w: Worker) { multiset(w.served) == multiset(w.tasks) + multiset(w.finished) }

  lemma ReceiveHandled(w: Worker)
    requires Handled(w)
    ensures Handled(ReceiveOrSleep(w)) && w.polled + w.tasks <= ReceiveOrSleep(w).polled + ReceiveOrSleep(w).tasks
    ensures ReceiveOrSleep(w).finished == w.finished
  {
  }

  lemma PollHandled(w: Worker, ready: bool)
    requires Handled(w)
    ensures Handled(Poll(w, ready)) && w.polled + w.tasks <= Poll(w, ready).polled + Poll(w, ready).tasks
    ensures !ready ==> Poll(w, ready).finished == w.finished && multiset(Poll(w, ready).tasks) == multiset(w.tasks)
    ensures ready && w.tasks != [] ==> Poll(w, ready).finished == w.finished + [w.tasks[0]]
  {
    if w.tasks != [] {
      assert w.tasks == [w.tasks[0]] + w.tasks[1..];
      assert w.polled + w.tasks == (w.polled + [w.tasks[0]]) + w.tasks[1..];
    }
  }

  /** Nothing else touches a worker's tasks. */
  lemma TasksUntouched(s: State, a: Action, i: nat)
    requires Valid(s) && i < WORKERS && Step(s, a).Some? && a != TryRecv(i) && !(a.PollTask? && a.w == i)
    ensures var w, w' := s.workers[i], Step(s, a).value.workers[i];
            w'.served == w.served && w'.tasks == w.tasks && w'.polled == w.polled && w'.finished == w.finished
  {
  }

  lemma HandledStep(s: State, a: Action, i: nat)
    requires Valid(s) && i < WORKERS && Handled(s.workers[i]) && Step(s, a).Some?
    ensures var w, w' := s.workers[i], Step(s, a).value.workers[i];
            && Handled(w') && w.polled + w.tasks <= w'.polled + w'.tasks
            && (a != PollTask(i, true) ==> w'.finished == w.finished)
  {
    if a == TryRecv(i) {
      ReceiveHandled(s.workers[i]);
    } else if a.PollTask? && a.w == i {
      PollHandled(s.workers[i], a.ready);
    } else {
      TasksUntouched(s, a, i);
    }
  }

  lemma {:induction false} HandledRun(s: State, actions: seq<Action>, i: nat)
    requires Valid(s) && i < WORKERS && Handled(s.workers[i]) && Run(s, actions).Some?
    ensures var w, w' := s.workers[i], Run(s, actions).value.workers[i];
            && Handled(w') && w.polled + w.tasks <= w'.polled + w'.tasks
            && (PollTask(i, true) !in actions ==> w'.finished == w.finished)
    decreases |actions|
  {
    if actions != [] {
      HandledStep(s, actions[0], i);
      HandledRun(Step(s, actions[0]).value, actions[1..], i);
    }
  }

  /** In every run each connection a worker has received is one of its tasks or has
      finished, each once; and only a poll that returns ready finishes one. */
  lemma ReceivedIsHandled(actions: seq<Action>, s: State, i: nat)
    requires Run(START, actions) == Some(s) && i < WORKERS
    ensures multiset(s.workers[i].served) == multiset(s.workers[i].tasks) + multiset(s.workers[i].finished)
    ensures PollTask(i, true) !in actions ==> s.workers[i].finished == []
  {
    HandledRun(START, actions, i);
  }

  /** The tasks in a worker's queue are the next that it polls, in that order, whatever
      is received or pushed back meanwhile. */
  lemma TasksArePolledInTurn(before: seq<Action>, s: State, i: nat, after: seq<Action>, t: State, p: nat)
    requires Run(START, before) == Some(s) && Run(s, after) == Some(t) && i < WORKERS && p < |s.workers[i].tasks|
    ensures var w, w' := s.workers[i], t.workers[i];
            if |w'.polled| > |w.polled| + p then w'.polled[|w.polled| + p] == w.tasks[p]
            else |w.polled| + p < |w'.polled + w'.tasks| && (w'.polled + w'.tasks)[|w.polled| + p] == w.tasks[p]
  {
    HandledRun(START, before, i);
    HandledRun(s, after, i);
    assert (s.workers[i].polled + s.workers[i].tasks)[|s.workers[i].polled| + p] == s.workers[i].tasks[p];
  }

  // ---------- the rescue ----------

  /** The worker cannot end up parked for good before looking at its channel again. */
  predicate Awake(w: Worker) { !w.place.GoingToSleep? && !Stuck(w) }

  lemma {:induction false} RunConcat(s: State, xs: seq<Action>, ys: seq<Action>)
    requires Valid(s) && Run(s, xs).Some?
    ensures Run(s, xs + ys) == Run(Run(s, xs).value, ys)
    decreases |xs|
  {
    if xs == [] {
      assert xs + ys == ys;
    } else {
      assert (xs + ys)[1..] == xs[1..] + ys;
      RunConcat(Step(s, xs[0]).value, xs[1..], ys);
    }
  }

  predicate Covers(s: State, i: nat, todo: seq<Conn>)
    requires Valid(s) && i < WORKERS
  {
    var w := s.workers[i];
    todo <= w.sent && (Awake(w) || |todo| <= |w.served|)
  }

  lemma CoversDispatch(s: State, a: Action, i: nat, todo: seq<Conn>)
    requires Inv(s) && DispatchAction(a) && Step(s, a).Some? && i < WORKERS && Covers(s, i, todo)
    ensures Covers(Step(s, a).value, i, todo)
  {
    assert WorkerOk(s, i);
  }

  lemma CoversLoop(s: State, a: Action, i: nat, todo: seq<Conn>)
    requires Inv(s) && !DispatchAction(a) && Step(s, a).Some? && i < WORKERS && Covers(s, i, todo)
    ensures Covers(Step(s, a).value, i, todo)
  {
    assert WorkerOk(s, i);
  }

  lemma CoversStep(s: State, a: Action, i: nat, todo: seq<Conn>)
    requires Inv(s) && Step(s, a).Some? && i < WORKERS && Covers(s, i, todo)
    ensures Covers(Step(s, a).value, i, todo)
  {
    if DispatchAction(a) {
      CoversDispatch(s, a, i, todo);
    } else {
      CoversLoop(s, a, i, todo);
    }
  }

  /** An awake worker receives everything sent to it so far, in order, before it can
      next go to sleep, whatever the other threads do. */
  lemma {:induction false} ServesBeforeSleeping(s: State, actions: seq<Action>, i: nat, todo: seq<Conn>)
    requires Inv(s) && Run(s, actions).Some? && i < WORKERS && Covers(s, i, todo)
    ensures var w := Run(s, actions).value.workers[i];
            Awake(w) || todo <= w.served
    decreases |actions|
  {
    if actions == [] {
      assert WorkerOk(s, i);
    } else {
      StepInv(s, actions[0]);
      CoversStep(s, actions[0], i, todo);
      ServesBeforeSleeping(Step(s, actions[0]).value, actions[1..], i, todo);
    }
  }

  /** Between the send and the end of its dispatch the worker is woken or on its way:
      it is being unparked, or awake, or has taken everything. */
  predicate Rescued(w: Worker, d: Dispatch, todo: seq<Conn>) {
    && todo <= w.sent
    && match d
       case Accepting => Awake(w) || |todo| <= |w.served|
       case Sent => Awake(w) || |todo| <= |w.served| || (Stuck(w) && w.flag)
       case SeenSet => w.place.GoingToSleep? ==> |todo| <= |w.served|
       case Cleared => w.place.GoingToSleep? ==> |todo| <= |w.served|
  }

  predicate BeingRescued(s: State, i: nat, todo: seq<Conn>)
    requires Valid(s) && i < WORKERS
  {
    Rescued(s.workers[i], Phase(s, i), todo)
  }

  lemma RescueDispatch(s: State, a: Action, i: nat, todo: seq<Conn>)
    requires Inv(s) && DispatchAction(a) && Step(s, a).Some? && i < WORKERS && BeingRescued(s, i, todo)
    ensures BeingRescued(Step(s, a).value, i, todo)
  {
    assert WorkerOk(s, i);
  }

  lemma RescueLoop(s: State, a: Action, i: nat, todo: seq<Conn>)
    requires Inv(s) && !DispatchAction(a) && Step(s, a).Some? && i < WORKERS && BeingRescued(s, i, todo)
    ensures BeingRescued(Step(s, a).value, i, todo)
  {
    assert WorkerOk(s, i);
  }

  lemma RescueStep(s: State, a: Action, i: nat, todo: seq<Conn>)
    requires Inv(s) && Step(s, a).Some? && i < WORKERS && BeingRescued(s, i, todo)
    ensures BeingRescued(Step(s, a).value, i, todo)
  {
    if DispatchAction(a) {
      RescueDispatch(s, a, i, todo);
    } else {
      RescueLoop(s, a, i, todo);
    }
  }

  lemma {:induction false} RescueRun(s: State, actions: seq<Action>, i: nat, todo: seq<Conn>)
    requires Inv(s) && Run(s, actions).Some? && i < WORKERS && BeingRescued(s, i, todo)
    ensures Inv(Run(s, actions).value) && BeingRescued(Run(s, actions).value, i, todo)
    decreases |actions|
  {
    if actions != [] {
      StepInv(s, actions[0]);
      RescueStep(s, actions[0], i, todo);
      RescueRun(Step(s, actions[0]).value, actions[1..], i, todo);
    }
  }

  /** The next connection routed to a stuck worker rescues it: once that dispatch is
      over, in any interleaving, the worker is awake, or has already received every
      connection left behind and the new one, in order. */
  lemma NextConnectionRescues(before: seq<Action>, s: State, i: nat, c: Conn, after: seq<Action>, t: State)
    requires Run(START, before) == Some(s) && i < WORKERS
    requires s.index == i && s.dispatch.Accepting? && Stuck(s.workers[i])
    requires Run(s, [Send(c)] + after) == Some(t) && Phase(t, i).Accepting?
    ensures Awake(t.workers[i]) || s.workers[i].sent + [c] <= t.workers[i].served
  {
    assert Inv(START);
    RunInv(START, before);
    assert WorkerOk(s, i);
    StepInv(s, Send(c));
    var s1 := Step(s, Send(c)).value;
    assert ([Send(c)] + after)[1..] == after;
    RescueRun(s1, after, i, s.workers[i].sent + [c]);
    assert WorkerOk(t, i);
  }

  // ---------- the window is real ----------

  /** A connection sent and checked between the failing `try_recv` and the flag store
      is left behind: its worker parks and nothing is going to wake it. */
  lemma WindowStrands(c: Conn) returns (actions: seq<Action>, s: State)
    ensures Run(START, actions) == Some(s)
    ensures s.dispatch.Accepting? && Stuck(s.workers[0]) && s.workers[0].chan == [c]
  {
    var s1 := Step(START, TryRecv(0)).value;
    var s2 := Step(s1, Send(c)).value;
    var s3 := Step(s2, CheckFlag).value;
    s := Step(s3, StoreFlag(0)).value;
    actions := [TryRecv(0), Send(c), CheckFlag, StoreFlag(0)];
    assert actions[1..] == [Send(c), CheckFlag, StoreFlag(0)];
    assert actions[1..][1..] == [CheckFlag, StoreFlag(0)];
    assert actions[1..][1..][1..] == [StoreFlag(0)];
    assert [StoreFlag(0)][1..] == [];
    assert Run(s3, [StoreFlag(0)]) == Some(s);
    assert Run(s2, [CheckFlag, StoreFlag(0)]) == Some(s);
    assert Run(s1, [Send(c), CheckFlag, StoreFlag(0)]) == Some(s);
  }

  /** Left alone, a worker at the top of its loop empties its channel in order,
      receiving one connection per iteration. */
  lemma {:induction false} LoopDrains(s: State, i: nat) returns (actions: seq<Action>, t: State)
    requires Valid(s) && i < WORKERS && s.workers[i].place.Top?
    ensures Run(s, actions) == Some(t)
    ensures t.workers[i].served == s.workers[i].served + s.workers[i].chan && t.workers[i].chan == []
    decreases |s.workers[i].chan|
  {
    var w := s.workers[i];
    if w.chan == [] {
      actions, t := [], s;
    } else {
      var s1 := Step(s, TryRecv(i)).value;
      var s2 := Step(s1, PollTask(i, false)).value;
      var rest, last := LoopDrains(s2, i);
      actions, t := [TryRecv(i)] + ([PollTask(i, false)] + rest), last;
      assert ([PollTask(i, false)] + rest)[1..] == rest;
      assert actions[1..] == [PollTask(i, false)] + rest;
      assert w.served + w.chan == w.served + [w.chan[0]] + w.chan[1..];
    }
  }

  /** An unparked worker, left alone, then takes everything left behind, in order. */
  lemma WokenWorkerDrains(s: State, i: nat) returns (actions: seq<Action>, t: State)
    requires Valid(s) && i < WORKERS && s.workers[i].place.Parking? && s.workers[i].token
    ensures Run(s, actions) == Some(t)
    ensures t.workers[i].served == s.workers[i].served + s.workers[i].chan && t.workers[i].chan == []
  {
    var s1 := Step(s, ParkReturns(i)).value;
    var s2 := Step(s1, PollTask(i, false)).value;
    var rest, last := LoopDrains(s2, i);
    actions, t := [ParkReturns(i)] + ([PollTask(i, false)] + rest), last;
    assert ([PollTask(i, false)] + rest)[1..] == rest;
    assert actions[1..] == [PollTask(i, false)] + rest;
  }
}
