/** Every scheduled runnable is run once, in the order of its own queue. */
module StealingTheorems {
  import opened Options
  import opened Indicator
  import opened StealingModel

  function Runs(w: Worker, r: Runnable): nat { One(w.place == Running(r)) }

  function Executing(ws: seq<Worker>, r: Runnable): nat
    decreases |ws|
  {
    if ws == [] then 0 else Runs(ws[0], r) + Executing(ws[1..], r)
  }

  lemma {:induction false} ExecutingUpdate(ws: seq<Worker>, i: nat, w: Worker, r: Runnable)
    requires i < |ws|
    ensures Executing(ws[i := w], r) + Runs(ws[i], r) == Executing(ws, r) + Runs(w, r)
    decreases |ws|
  {
    if i == 0 {
      assert ws[0 := w][1..] == ws[1..];
    } else {
      assert ws[i := w][1..] == ws[1..][i - 1 := w];
      ExecutingUpdate(ws[1..], i - 1, w, r);
    }
  }

  lemma {:induction false} NobodyExecutes(ws: seq<Worker>, r: Runnable)
    requires forall w :: 0 <= w < |ws| ==> ws[w].place.Top?
    ensures Executing(ws, r) == 0
    decreases |ws|
  {
    if ws != [] {
      NobodyExecutes(ws[1..], r);
    }
  }

  /** Where a runnable is: queued, running, or run. */
  function Copies(s: State, r: Runnable): nat {
    multiset(s.sh.high.queue)[r] + multiset(s.sh.low.queue)[r] + Executing(s.workers, r)
  }

  predicate Due(sh: Shared, r: Runnable) {
    r.task < |sh.tasks| && sh.tasks[r.task].count < sh.tasks[r.task].need && r.run == sh.tasks[r.task].count
  }

  predicate Done(sh: Shared, r: Runnable) { r.task < |sh.tasks| && r.run < sh.tasks[r.task].count }

  /** An unfinished task has exactly one runnable, for its next poll; each earlier poll
      was run exactly once. */
  ghost predicate OnceOk(s: State) {
    && (forall r {:trigger Copies(s, r)} :: Copies(s, r) == One(Due(s.sh, r)))
    && (forall r :: multiset(s.sh.ran)[r] == One(Done(s.sh, r)))
    && (forall t :: 0 <= t < |s.sh.tasks| ==> s.sh.tasks[t].count <= s.sh.tasks[t].need)
  }

  /** A channel is a FIFO queue and holds only tasks of its own priority. */
  ghost predicate LaneOk(sh: Shared, o: Order) {
    var lane := LaneOf(sh, o);
    && lane.sent == lane.taken + lane.queue
    && (forall i :: 0 <= i < |lane.sent| ==> lane.sent[i].task < |sh.tasks| && sh.tasks[lane.sent[i].task].order == o)
  }

  /** What a worker found empty had been taken completely. */
  predicate PlaceOk(sh: Shared, w: Worker) {
    && (w.place.OwnEmpty? || w.place.Sleeping? ==> w.place.own <= |LaneOf(sh, w.kind).taken|)
    && (w.place.Sleeping? ==> w.place.other <= |LaneOf(sh, Opposite(w.kind)).taken|)
  }

  ghost predicate Inv(s: State) {
    && OnceOk(s) && LaneOk(s.sh, High) && LaneOk(s.sh, Low)
    && (forall w :: 0 <= w < |s.workers| ==> PlaceOk(s.sh, s.workers[w]))
    && |s.sh.ran| == Polled(s.sh.tasks)
  }

  /** All polls made so far. */
  function Polled(tasks: seq<Task>): nat
    decreases |tasks|
  {
    if tasks == [] then 0 else tasks[0].count + Polled(tasks[1..])
  }

  lemma {:induction false} PolledPush(tasks: seq<Task>, t: Task)
    ensures Polled(tasks + [t]) == Polled(tasks) + t.count
    decreases |tasks|
  {
    if tasks == [] {
      assert [t][1..] == [];
    } else {
      assert (tasks + [t])[1..] == tasks[1..] + [t];
      PolledPush(tasks[1..], t);
    }
  }

  lemma {:induction false} PolledUpdate(tasks: seq<Task>, i: nat, t: Task)
    requires i < |tasks|
    ensures Polled(tasks[i := t]) + tasks[i].count == Polled(tasks) + t.count
    decreases |tasks|
  {
    if i == 0 {
      assert tasks[0 := t][1..] == tasks[1..];
    } else {
      assert tasks[i := t][1..] == tasks[1..][i - 1 := t];
      PolledUpdate(tasks[1..], i - 1, t);
    }
  }

  /** All polls the tasks need. */
  function Needed(tasks: seq<Task>): nat
    decreases |tasks|
  {
    if tasks == [] then 0 else tasks[0].need + Needed(tasks[1..])
  }

  lemma {:induction false} PolledBound(tasks: seq<Task>)
    requires forall i :: 0 <= i < |tasks| ==> tasks[i].count <= tasks[i].need
    ensures Polled(tasks) <= Needed(tasks)
    decreases |tasks|
  {
    if tasks != [] {
      PolledBound(tasks[1..]);
    }
  }

  lemma {:induction false} PolledAll(tasks: seq<Task>)
    requires forall i :: 0 <= i < |tasks| ==> tasks[i].count == tasks[i].need
    ensures Polled(tasks) == Needed(tasks)
    decreases |tasks|
  {
    if tasks != [] {
      PolledAll(tasks[1..]);
    }
  }

  lemma {:induction false} NeededEqual(tasks: seq<Task>, n: nat)
    requires forall i :: 0 <= i < |tasks| ==> tasks[i].need == n
    ensures Needed(tasks) == n * |tasks|
    decreases |tasks|
  {
    if tasks != [] {
      NeededEqual(tasks[1..], n);
      assert n * |tasks| == n * (|tasks| - 1) + n;
    }
  }

  /** A run changes no task's need. */
  lemma {:induction false} NeededCounts(tasks: seq<Task>, more: seq<Task>)
    requires |more| == |tasks| && forall i :: 0 <= i < |tasks| ==> more[i].need == tasks[i].need
    ensures Needed(more) == Needed(tasks)
    decreases |tasks|
  {
    if tasks != [] {
      NeededCounts(tasks[1..], more[1..]);
    }
  }

  lemma StartInv(s: State)
    requires Start(s)
    ensures Inv(s)
  {
    forall r ensures Copies(s, r) == One(Due(s.sh, r)) {
      NobodyExecutes(s.workers, r);
    }
  }

  lemma SpawnOnce(s: State, o: Order, need: nat)
    requires Inv(s) && need > 0
    ensures OnceOk(s.(sh := SpawnTask(s.sh, o, need)))
  {
    var s' := s.(sh := SpawnTask(s.sh, o, need));
    forall r
      ensures Copies(s', r) == One(Due(s'.sh, r)) && multiset(s'.sh.ran)[r] == One(Done(s'.sh, r))
    {
      assert Copies(s, r) == One(Due(s.sh, r));
    }
  }

  lemma SpawnInv(s: State, o: Order, need: nat)
    requires Inv(s) && need > 0
    ensures Inv(s.(sh := SpawnTask(s.sh, o, need)))
  {
    SpawnOnce(s, o, need);
    PolledPush(s.sh.tasks, Task(o, need, 0));
    LaneSend(s.sh, o, Runnable(|s.sh.tasks|, 0), s.sh.tasks + [Task(o, need, 0)]);
    LaneStays(s.sh, o, Runnable(|s.sh.tasks|, 0), s.sh.tasks + [Task(o, need, 0)]);
  }

  /** Sending a task's runnable to the channel of its order. */
  lemma LaneSend(sh: Shared, o: Order, r: Runnable, tasks: seq<Task>)
    requires LaneOk(sh, o) && |sh.tasks| <= |tasks| && r.task < |tasks| && tasks[r.task].order == o
    requires forall t :: 0 <= t < |sh.tasks| ==> tasks[t].order == sh.tasks[t].order
    ensures LaneOk(SetLane(sh, o, Send(LaneOf(sh, o), r)).(tasks := tasks), o)
  {
    var lane := LaneOf(sh, o);
    assert lane.taken + lane.queue + [r] == lane.taken + (lane.queue + [r]);
  }

  lemma LaneStays(sh: Shared, o: Order, r: Runnable, tasks: seq<Task>)
    requires LaneOk(sh, Opposite(o)) && |sh.tasks| <= |tasks|
    requires forall t :: 0 <= t < |sh.tasks| ==> tasks[t].order == sh.tasks[t].order
    ensures LaneOk(SetLane(sh, o, Send(LaneOf(sh, o), r)).(tasks := tasks), Opposite(o))
  {
  }

  lemma TakeHead(queue: seq<Runnable>, r: Runnable)
    requires queue != []
    ensures multiset(queue)[r] == multiset(queue[1..])[r] + One(queue[0] == r)
  {
    assert queue == [queue[0]] + queue[1..];
  }

  lemma ReceiveOnce(s: State, w: nat, o: Order, empty: Place)
    requires Inv(s) && w < |s.workers| && !s.workers[w].place.Running? && !empty.Running?
    ensures OnceOk(StepReceive(s, w, o, empty))
  {
    var s' := StepReceive(s, w, o, empty);
    var queue := LaneOf(s.sh, o).queue;
    forall r
      ensures Copies(s', r) == One(Due(s'.sh, r))
    {
      assert Copies(s, r) == One(Due(s.sh, r));
      ExecutingUpdate(s.workers, w, s'.workers[w], r);
      if queue != [] {
        TakeHead(queue, r);
      }
    }
  }

  lemma ReceiveInv(s: State, w: nat, o: Order, empty: Place)
    requires Inv(s) && w < |s.workers| && !s.workers[w].place.Running? && !empty.Running?
    requires LaneOf(s.sh, o).queue == [] ==> PlaceOk(s.sh, s.workers[w].(place := empty))
    ensures Inv(StepReceive(s, w, o, empty))
  {
    ReceiveOnce(s, w, o, empty);
    var lane := LaneOf(s.sh, o);
    if lane.queue != [] {
      assert lane.taken + lane.queue == (lane.taken + [lane.queue[0]]) + lane.queue[1..];
    }
  }

  /** A running runnable is its task's next poll. */
  lemma {:induction false} RunningIsExecuting(ws: seq<Worker>, w: nat)
    requires w < |ws| && ws[w].place.Running?
    ensures Executing(ws, ws[w].place.r) > 0
    decreases |ws|
  {
    if w > 0 {
      RunningIsExecuting(ws[1..], w - 1);
    }
  }

  lemma RunningIsDue(s: State, w: nat)
    requires OnceOk(s) && w < |s.workers| && s.workers[w].place.Running?
    ensures Due(s.sh, s.workers[w].place.r)
  {
    var r := s.workers[w].place.r;
    RunningIsExecuting(s.workers, w);
    assert Copies(s, r) == One(Due(s.sh, r));
  }

  function Queued(sh: Shared, r: Runnable): nat { multiset(sh.high.queue)[r] + multiset(sh.low.queue)[r] }

  /** A run takes one poll and, unless it was the last, queues the next. */
  lemma RunTaskQueues(sh: Shared, r: Runnable, x: Runnable)
    requires Due(sh, r)
    ensures Queued(RunTask(sh, r), x)
         == Queued(sh, x) + One(r.run + 1 < sh.tasks[r.task].need && x == Runnable(r.task, r.run + 1))
  {
  }

  lemma RunTaskDue(sh: Shared, r: Runnable, x: Runnable)
    requires Due(sh, r)
    ensures One(Due(RunTask(sh, r), x)) + One(x == r)
         == One(Due(sh, x)) + One(r.run + 1 < sh.tasks[r.task].need && x == Runnable(r.task, r.run + 1))
  {
  }

  lemma FinishCopies(s: State, w: nat, x: Runnable)
    requires OnceOk(s) && w < |s.workers| && s.workers[w].place.Running?
    ensures var s' := Step(s, Finish(w)).value;
            Copies(s', x) == One(Due(s'.sh, x))
  {
    var r := s.workers[w].place.r;
    RunningIsDue(s, w);
    assert Copies(s, x) == One(Due(s.sh, x));
    ExecutingUpdate(s.workers, w, s.workers[w].(place := Top), x);
    RunTaskQueues(s.sh, r, x);
    RunTaskDue(s.sh, r, x);
  }

  lemma RunTaskRan(sh: Shared, r: Runnable, x: Runnable)
    requires Due(sh, r) && multiset(sh.ran)[x] == One(Done(sh, x))
    ensures multiset(RunTask(sh, r).ran)[x] == One(Done(RunTask(sh, r), x))
  {
  }

  lemma RunTaskCounts(sh: Shared, r: Runnable)
    requires Due(sh, r) && forall t :: 0 <= t < |sh.tasks| ==> sh.tasks[t].count <= sh.tasks[t].need
    ensures forall t :: 0 <= t < |sh.tasks| ==> RunTask(sh, r).tasks[t].count <= RunTask(sh, r).tasks[t].need
    ensures |RunTask(sh, r).tasks| == |sh.tasks| && RunTask(sh, r).ran == sh.ran + [r]
  {
  }

  lemma FinishOnce(s: State, w: nat)
    requires OnceOk(s) && w < |s.workers| && s.workers[w].place.Running?
    ensures OnceOk(Step(s, Finish(w)).value)
  {
    var s' := Step(s, Finish(w)).value;
    RunningIsDue(s, w);
    forall x ensures Copies(s', x) == One(Due(s'.sh, x)) {
      FinishCopies(s, w, x);
    }
    RunTaskCounts(s.sh, s.workers[w].place.r);
    forall x ensures multiset(s'.sh.ran)[x] == One(Done(s'.sh, x)) {
      RunTaskRan(s.sh, s.workers[w].place.r, x);
    }
  }

  /** What a run does to the lane of the task's priority, and to nothing else. */
  lemma RunTaskSends(sh: Shared, r: Runnable)
    requires Due(sh, r)
    ensures var t, after := sh.tasks[r.task], RunTask(sh, r);
            && after.tasks == sh.tasks[r.task := t.(count := t.count + 1)]
            && LaneOf(after, Opposite(t.order)) == LaneOf(sh, Opposite(t.order))
            && LaneOf(after, t.order) == if r.run + 1 < t.need
                                         then Send(LaneOf(sh, t.order), Runnable(r.task, r.run + 1))
                                         else LaneOf(sh, t.order)
  {
  }

  lemma RunTaskLane(sh: Shared, r: Runnable, o: Order)
    requires Due(sh, r) && LaneOk(sh, o)
    ensures LaneOk(RunTask(sh, r), o)
  {
    RunTaskSends(sh, r);
    var lane := LaneOf(sh, o);
    var next := Runnable(r.task, r.run + 1);
    assert lane.taken + lane.queue + [next] == lane.taken + (lane.queue + [next]);
  }

  lemma FinishInv(s: State, w: nat)
    requires Inv(s) && w < |s.workers| && s.workers[w].place.Running?
    ensures Inv(Step(s, Finish(w)).value)
  {
    FinishOnce(s, w);
    RunningIsDue(s, w);
    var r := s.workers[w].place.r;
    RunTaskLane(s.sh, r, High);
    RunTaskLane(s.sh, r, Low);
    PolledUpdate(s.sh.tasks, r.task, s.sh.tasks[r.task].(count := s.sh.tasks[r.task].count + 1));
  }

  lemma WakeUpInv(s: State, w: nat)
    requires Inv(s) && w < |s.workers| && s.workers[w].place.Sleeping?
    ensures Inv(SetWorker(s, w, Top))
  {
    var s' := SetWorker(s, w, Top);
    forall r ensures Copies(s', r) == One(Due(s'.sh, r)) {
      assert Copies(s, r) == One(Due(s.sh, r));
      ExecutingUpdate(s.workers, w, s'.workers[w], r);
    }
  }

  lemma StepInv(s: State, a: Action)
    requires Inv(s) && Step(s, a).Some?
    ensures Inv(Step(s, a).value)
  {
    match a
    case Spawn(o, need) => SpawnInv(s, o, need);
    case TryOwn(w) =>
      ReceiveInv(s, w, s.workers[w].kind, OwnEmpty(|LaneOf(s.sh, s.workers[w].kind).sent|));
    case TrySteal(w) =>
      var o := Opposite(s.workers[w].kind);
      ReceiveInv(s, w, o, Sleeping(s.workers[w].place.own, |LaneOf(s.sh, o).sent|));
    case Finish(w) => FinishInv(s, w);
    case WakeUp(w) => WakeUpInv(s, w);
  }

  lemma {:induction false} RunInv(s: State, actions: seq<Action>)
    requires Inv(s) && Run(s, actions).Some?
    ensures Inv(Run(s, actions).value)
    decreases |actions|
  {
    if actions != [] {
      StepInv(s, actions[0]);
      RunInv(Step(s, actions[0]).value, actions[1..]);
    }
  }

  /** In every interleaving of the workers: an unfinished task is queued or running
      exactly once, and each of its earlier polls was run exactly once. */
  lemma RunExactlyOnce(start: State, actions: seq<Action>, s: State, r: Runnable)
    requires Start(start) && Run(start, actions) == Some(s)
    ensures multiset(s.sh.high.queue)[r] + multiset(s.sh.low.queue)[r] + Executing(s.workers, r)
         == if Due(s.sh, r) then 1 else 0
    ensures multiset(s.sh.ran)[r] == if Done(s.sh, r) then 1 else 0
  {
    StartInv(start);
    RunInv(start, actions);
    assert Copies(s, r) == One(Due(s.sh, r));
  }

  /** Each channel hands out exactly what was sent to it, in order, and is only sent
      tasks of its own priority, stolen or not. */
  lemma OwnQueueFifo(start: State, actions: seq<Action>, s: State, o: Order)
    requires Start(start) && Run(start, actions) == Some(s)
    ensures var lane := LaneOf(s.sh, o);
            && lane.sent == lane.taken + lane.queue
            && forall i :: 0 <= i < |lane.sent| ==>
                 lane.sent[i].task < |s.sh.tasks| && s.sh.tasks[lane.sent[i].task].order == o
  {
    StartInv(start);
    RunInv(start, actions);
  }

  /** A sleeping worker left nothing behind: whatever had been sent to either channel
      before it found that channel empty has been taken. */
  lemma SleeperFoundBothEmpty(start: State, actions: seq<Action>, s: State, w: nat)
    requires Start(start) && Run(start, actions) == Some(s)
    requires w < |s.workers| && s.workers[w].place.Sleeping?
    ensures s.workers[w].place.own <= |LaneOf(s.sh, s.workers[w].kind).taken|
    ensures s.workers[w].place.other <= |LaneOf(s.sh, Opposite(s.workers[w].kind)).taken|
  {
    StartInv(start);
    RunInv(start, actions);
    assert PlaceOk(s.sh, s.workers[w]);
  }

  lemma DrainedRuns(s: State)
    requires Inv(s) && s.sh.high.queue == [] && s.sh.low.queue == []
    requires forall w :: 0 <= w < |s.workers| ==> !s.workers[w].place.Running?
    ensures |s.sh.ran| == Needed(s.sh.tasks)
    ensures forall t :: 0 <= t < |s.sh.tasks| ==> s.sh.tasks[t].count == s.sh.tasks[t].need
  {
    forall t | 0 <= t < |s.sh.tasks|
      ensures s.sh.tasks[t].count == s.sh.tasks[t].need
    {
      var r := Runnable(t, s.sh.tasks[t].count);
      assert Copies(s, r) == One(Due(s.sh, r));
      NotRunning(s.workers, r);
    }
    PolledAll(s.sh.tasks);
  }

  /** When nothing is queued or running, every task is finished and the runs made are
      exactly those needed: 3n for `n` CounterFutures. */
  lemma DrainTakesThreeRunsEach(start: State, actions: seq<Action>, s: State)
    requires Start(start) && Run(start, actions) == Some(s)
    requires s.sh.high.queue == [] && s.sh.low.queue == []
    requires forall w :: 0 <= w < |s.workers| ==> !s.workers[w].place.Running?
    ensures |s.sh.ran| == Needed(s.sh.tasks)
    ensures forall t :: 0 <= t < |s.sh.tasks| ==> s.sh.tasks[t].count == s.sh.tasks[t].need
    ensures (forall t :: 0 <= t < |s.sh.tasks| ==> s.sh.tasks[t].need == COUNTER_POLLS) ==>
              |s.sh.ran| == 3 * |s.sh.tasks|
  {
    StartInv(start);
    RunInv(start, actions);
    DrainedRuns(s);
    if forall t :: 0 <= t < |s.sh.tasks| ==> s.sh.tasks[t].need == COUNTER_POLLS {
      NeededEqual(s.sh.tasks, COUNTER_POLLS);
    }
  }

  lemma {:induction false} NotRunning(ws: seq<Worker>, r: Runnable)
    requires forall w :: 0 <= w < |ws| ==> !ws[w].place.Running?
    ensures Executing(ws, r) == 0
    decreases |ws|
  {
    if ws != [] {
      NotRunning(ws[1..], r);
    }
  }
}
