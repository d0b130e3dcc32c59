/** One worker's loop as the source writes it, and the future it runs. */
module Stealing {
  import opened Options
  import opened StealingModel
  import opened StealingTheorems

  class CounterFuture {
    var count: nat

    constructor (count: nat)
      ensures this.count == count
    {
      this.count := count;
    }

    /** Ready on the third poll; before that it wakes itself. */
    method Poll() returns (r: Option<nat>)
      modifies this
      ensures count == old(count) + 1
      ensures r == if count < COUNTER_POLLS then None else Some(count)
    {
      count := count + 1;
      if count < COUNTER_POLLS {
        r := None;
      } else {
        r := Some(count);
      }
    }
  }

  /** Polled until it is ready, a new CounterFuture takes exactly the polls its task is
      spawned with. */
  method PollCounter() returns (polls: nat, value: nat)
    ensures polls == COUNTER_POLLS && value == COUNTER_POLLS
  {
    var future := new CounterFuture(0);
    var r := future.Poll();
    polls := 1;
    while r.None?
      invariant fresh(future) && future.count == polls <= COUNTER_POLLS
      invariant r == if polls < COUNTER_POLLS then None else Some(polls)
      decreases COUNTER_POLLS - polls
    {
      r := future.Poll();
      polls := polls + 1;
    }
    value := r.value;
  }

  /** The queues after an iteration has taken its runnable, if there is one. */
  function TakeFrom(sh: Shared, kind: Order): Shared {
    var own, other := LaneOf(sh, kind), LaneOf(sh, Opposite(kind));
    if own.queue != [] then SetLane(sh, kind, Receive(own))
    else if other.queue != [] then SetLane(sh, Opposite(kind), Receive(other))
    else sh
  }

  /** A lone worker's run keeps the invariant and no task's need changes. */
  lemma RunAlone(sh: Shared, kind: Order, r: Runnable)
    requires Inv(State(sh, [Worker(kind, Running(r))]))
    ensures Due(sh, r) && Inv(State(RunTask(sh, r), [Worker(kind, Top)]))
    ensures Needed(RunTask(sh, r).tasks) == Needed(sh.tasks)
  {
    var s := State(sh, [Worker(kind, Running(r))]);
    RunningIsDue(s, 0);
    FinishInv(s, 0);
    assert Step(s, Finish(0)).value == State(RunTask(sh, r), [Worker(kind, Top)]);
    NeededCounts(sh.tasks, RunTask(sh, r).tasks);
  }

  class Runtime {
    var tasks: seq<Task>
    var high: Lane
    var low: Lane
    var ran: seq<Runnable>

    ghost function View(): Shared
      reads this
    {
      Shared(tasks, high, low, ran)
    }

    /** The system in which one worker of the given kind runs alone. */
    ghost function Alone(kind: Order, place: Place): State
      reads this
    {
      State(View(), [Worker(kind, place)])
    }

    constructor ()
      ensures View() == NO_TASKS
    {
      tasks, high, low, ran := [], Lane([], [], []), Lane([], [], []), [];
    }

    method Spawn(o: Order, need: nat, ghost kind: Order) returns (id: nat)
      requires need > 0 && Inv(Alone(kind, Top))
      modifies this
      ensures id == |old(tasks)| && View() == SpawnTask(old(View()), o, need)
      ensures Inv(Alone(kind, Top))
    {
      SpawnInv(Alone(kind, Top), o, need);
      id := |tasks|;
      tasks := tasks + [Task(o, need, 0)];
      match o
      case High => high := Send(high, Runnable(id, 0));
      case Low => low := Send(low, Runnable(id, 0));
    }

    /** `runnable.run()` with the schedule closure of the task's own order. */
    method Execute(r: Runnable)
      requires r.task < |tasks|
      modifies this
      ensures View() == RunTask(old(View()), r)
    {
      var t := tasks[r.task];
      tasks := tasks[r.task := t.(count := t.count + 1)];
      ran := ran + [r];
      if t.count + 1 < t.need {
        match t.order
        case High => high := Send(high, Runnable(r.task, t.count + 1));
        case Low => low := Send(low, Runnable(r.task, t.count + 1));
      }
    }

    /** What an iteration takes: the head of its own queue, else of the other one. */
    ghost function Choice(kind: Order): Option<Runnable>
      reads this
    {
      var own, other := LaneOf(View(), kind).queue, LaneOf(View(), Opposite(kind)).queue;
      if own != [] then Some(own[0]) else if other != [] then Some(other[0]) else None
    }

    /** `try_recv` on the own channel, then on the other. */
    method Take(kind: Order) returns (r: Option<Runnable>)
      requires Inv(Alone(kind, Top))
      modifies this`high, this`low
      ensures r == old(Choice(kind))
      ensures var own := old(if kind.High? then high.queue else low.queue);
              var other := old(if kind.High? then low.queue else high.queue);
              r == if own != [] then Some(own[0]) else if other != [] then Some(other[0]) else None
      ensures r.Some? ==> Inv(Alone(kind, Running(r.value)))
      ensures View() == TakeFrom(old(View()), kind)
    {
      ghost var s := Alone(kind, Top);
      StepInv(s, TryOwn(0));
      var own := if kind.High? then high else low;
      var other := if kind.High? then low else high;
      if own.queue != [] {
        r := Some(own.queue[0]);
        if kind.High? { high := Receive(high); } else { low := Receive(low); }
        assert Step(s, TryOwn(0)).value == Alone(kind, Running(r.value));
      } else if other.queue != [] {
        r := Some(other.queue[0]);
        ghost var missed := Step(s, TryOwn(0)).value;
        StepInv(missed, TrySteal(0));
        if kind.High? { low := Receive(low); } else { high := Receive(high); }
        assert Step(missed, TrySteal(0)).value == Alone(kind, Running(r.value));
      } else {
        r := None;
      }
    }

    /** One iteration: run what was taken, or sleep. */
    method Iterate(kind: Order) returns (slept: bool)
      requires Inv(Alone(kind, Top))
      modifies this
      ensures Inv(Alone(kind, Top)) && Needed(tasks) == Needed(old(tasks))
      ensures slept == old(Choice(kind)).None?
      ensures View() == if slept then old(View()) else RunTask(TakeFrom(old(View()), kind), old(Choice(kind)).value)
      ensures !slept ==> ran == old(ran) + [old(Choice(kind)).value]
    {
      var r := Take(kind);
      slept := r.None?;
      if r.Some? {
        RunAlone(View(), kind, r.value);
        Execute(r.value);
      }
    }

    /** A worker left alone empties both queues: every task is then finished, after
        exactly the runs it needs. */
    method Drain(kind: Order)
      requires Inv(Alone(kind, Top))
      modifies this
      ensures high.queue == [] && low.queue == [] && |ran| == Needed(old(tasks))
      ensures forall t :: 0 <= t < |tasks| ==> tasks[t].count == tasks[t].need
    {
      var slept := false;
      PolledBound(tasks);
      while !slept
        invariant Inv(Alone(kind, Top)) && Needed(tasks) == Needed(old(tasks))
        invariant slept ==> high.queue == [] && low.queue == []
        invariant |ran| <= Needed(tasks)
        decreases !slept, Needed(tasks) - |ran|
      {
        slept := Iterate(kind);
        PolledBound(tasks);
      }
      DrainedRuns(Alone(kind, Top));
    }
  }

  /** Any CounterFutures, of either priority, drained by one worker of either kind. */
  method DrainCounters(orders: seq<Order>, kind: Order) returns (runs: nat)
    ensures runs == 3 * |orders|
  {
    var runtime := new Runtime();
    StartInv(runtime.Alone(kind, Top));
    for i := 0 to |orders|
      invariant fresh(runtime) && Inv(runtime.Alone(kind, Top)) && |runtime.tasks| == i
      invariant forall t :: 0 <= t < i ==> runtime.tasks[t].need == COUNTER_POLLS
    {
      var _ := runtime.Spawn(orders[i], COUNTER_POLLS, kind);
    }
    NeededEqual(runtime.tasks, COUNTER_POLLS);
    runtime.Drain(kind);
    runs := |runtime.ran|;
  }
}
