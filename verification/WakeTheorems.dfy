/** No wake is lost, and every handle gets exactly the result of its own future. */
module WakeTheorems {
  import opened Options
  import opened Indicator
  import opened Futures
  import opened WakeModel

  function CountId(q: seq<Task>, id: nat): nat
    decreases |q|
  {
    if q == [] then 0 else One(q[0].id == id) + CountId(q[1..], id)
  }

  lemma {:induction false} CountPush(q: seq<Task>, t: Task, id: nat)
    ensures CountId(q + [t], id) == CountId(q, id) + One(t.id == id)
    decreases |q|
  {
    if q == [] {
      assert [t][1..] == [];
    } else {
      assert (q + [t])[1..] == q[1..] + [t];
      CountPush(q[1..], t, id);
    }
  }

  predicate Current(s: State, id: nat) { s.place.InPoll? && s.place.task.id == id }

  /** How many times a task is held by the executor. */
  function Places(s: State, id: nat): nat {
    CountId(s.polling, id) + One(id in s.waiting) + One(Current(s, id))
  }

  predicate Unfinished(s: State, id: nat) { id in s.outputs && s.outputs[id] == [] }

  ghost predicate TasksOk(f: Outcomes, s: State) {
    && (forall id {:trigger Places(s, id)} :: Places(s, id) == One(Unfinished(s, id)))
    && (forall id: nat :: id in s.outputs <==> id < s.count)
    && (forall id :: id in s.waiting ==> s.waiting[id].id == id && PendingSoFar(f, s.waiting[id]))
    && (forall i :: 0 <= i < |s.polling| ==> PendingSoFar(f, s.polling[i]))
    && (s.place.InPoll? ==> PendingSoFar(f, s.place.task))
  }

  ghost predicate ResultsOk(f: Outcomes, s: State) {
    forall id :: id in s.outputs && s.outputs[id] != [] ==> |s.outputs[id]| == 1 && Result(f, id, s.outputs[id][0])
  }

  /** A task woken since its latest poll began, and not requeued, has its id in the channel. */
  ghost predicate WakesOk(s: State) {
    && (forall id :: id in s.woken && (id in s.waiting || Current(s, id)) ==>
          id in s.channel || s.place == Received(id))
    && (s.place.Checking? || s.place.Receiving? || s.place.Received? || s.place.Finished? ==> s.polling == [])
    && (s.place.Finished? ==> s.waiting == map[])
  }

  ghost predicate Inv(f: Outcomes, s: State) { TasksOk(f, s) && ResultsOk(f, s) && WakesOk(s) }

  lemma SpawnInv(f: Outcomes, s: State)
    requires Inv(f, s) && StepSpawn(s).Some?
    ensures Inv(f, StepSpawn(s).value)
  {
    var s' := StepSpawn(s).value;
    forall id ensures Places(s', id) == One(Unfinished(s', id)) {
      assert Places(s, id) == One(Unfinished(s, id));
      CountPush(s.polling, Task(s.count, 0), id);
    }
  }

  lemma PopInv(f: Outcomes, s: State)
    requires Inv(f, s) && StepPop(s).Some?
    ensures Inv(f, StepPop(s).value)
  {
    var s' := StepPop(s).value;
    forall id ensures Places(s', id) == One(Unfinished(s', id)) {
      assert Places(s, id) == One(Unfinished(s, id));
    }
  }

  lemma PollReturnsInv(f: Outcomes, s: State)
    requires Inv(f, s) && StepPollReturns(f, s).Some?
    ensures Inv(f, StepPollReturns(f, s).value)
  {
    var t := s.place.task;
    var s' := StepPollReturns(f, s).value;
    assert Places(s, t.id) == One(Unfinished(s, t.id));
    forall id ensures Places(s', id) == One(Unfinished(s', id)) {
      assert Places(s, id) == One(Unfinished(s, id));
    }
    if f(t.id, t.polls).Some? {
      assert FinishesAt(f, t.id, t.polls, f(t.id, t.polls).value);
    }
  }

  lemma RequeueInv(f: Outcomes, s: State)
    requires Inv(f, s) && StepRequeue(s).Some?
    ensures Inv(f, StepRequeue(s).value)
  {
    var s' := StepRequeue(s).value;
    forall id ensures Places(s', id) == One(Unfinished(s', id)) {
      assert Places(s, id) == One(Unfinished(s, id));
      if s.place.id in s.waiting {
        CountPush(s.polling, s.waiting[s.place.id], id);
      }
    }
  }

  lemma StepInv(f: Outcomes, s: State, a: Action)
    requires Inv(f, s) && Step(f, s, a).Some?
    ensures Inv(f, Step(f, s, a).value)
  {
    match a
    case Spawn => SpawnInv(f, s);
    case Pop => PopInv(f, s);
    case PollReturns => PollReturnsInv(f, s);
    case Requeue => RequeueInv(f, s);
    case _ =>
      var s' := Step(f, s, a).value;
      forall id ensures Places(s', id) == One(Unfinished(s', id)) {
        assert Places(s, id) == One(Unfinished(s, id));
      }
  }

  lemma {:induction false} RunInv(f: Outcomes, s: State, actions: seq<Action>)
    requires Inv(f, s) && Run(f, s, actions).Some?
    ensures Inv(f, Run(f, s, actions).value)
    decreases |actions|
  {
    if actions != [] {
      StepInv(f, s, actions[0]);
      RunInv(f, Step(f, s, actions[0]).value, actions[1..]);
    }
  }

  // ---------- the two queues are first in, first out ----------

  /** The ids that `recv` has returned in a run, in order. */
  function Receives(f: Outcomes, s: State, actions: seq<Action>): seq<nat>
    requires Run(f, s, actions).Some?
    decreases |actions|
  {
    if actions == [] then []
    else
      var next := Step(f, s, actions[0]).value;
      (if actions[0].Recv? && next.place.Received? then [next.place.id] else []) + Receives(f, next, actions[1..])
  }

  /** `x` before `xs`, and `c` before and `d` after the first step: a queue keeps its order. */
  lemma QueueShift<T>(c: seq<T>, x: seq<T>, y: seq<T>, d: seq<T>, xs: seq<T>, ys: seq<T>, e: seq<T>)
    requires c + x == y + d && d + xs == ys + e
    ensures c + (x + xs) == (y + ys) + e
  {
    assert c + (x + xs) == (c + x) + xs == y + (d + xs) == (y + ys) + e;
  }

  lemma ChannelStep(f: Outcomes, s: State, a: Action)
    requires Step(f, s, a).Some?
    ensures var t := Step(f, s, a).value;
            s.channel + SentBy(a)
            == (if a.Recv? && t.place.Received? then [t.place.id] else []) + t.channel
  {
  }

  /** In every run the ids wakers send are received in order, and none is left out. */
  lemma {:induction false} WakesReceivedInOrder(f: Outcomes, s: State, actions: seq<Action>)
    requires Run(f, s, actions).Some?
    ensures s.channel + Wakes(actions) == Receives(f, s, actions) + Run(f, s, actions).value.channel
    decreases |actions|
  {
    if actions != [] {
      var a, next := actions[0], Step(f, s, actions[0]).value;
      ChannelStep(f, s, a);
      WakesReceivedInOrder(f, next, actions[1..]);
      QueueShift(s.channel, SentBy(a),
                 if a.Recv? && next.place.Received? then [next.place.id] else [], next.channel,
                 Wakes(actions[1..]), Receives(f, next, actions[1..]), Run(f, s, actions).value.channel);
    }
  }

  /** What one step puts into the polling queue: a new task, or the waiting task whose id
      was received. */
  function QueuedBy(s: State, a: Action): seq<Task> {
    match a
    case Spawn => [Task(s.count, 0)]
    case Requeue =>
      if s.place.Received? && s.place.id in s.waiting then [s.waiting[s.place.id]] else []
    case _ => []
  }

  function Queued(f: Outcomes, s: State, actions: seq<Action>): seq<Task>
    requires Run(f, s, actions).Some?
    decreases |actions|
  {
    if actions == [] then []
    else QueuedBy(s, actions[0]) + Queued(f, Step(f, s, actions[0]).value, actions[1..])
  }

  /** The tasks whose poll has begun in a run, in order. */
  function Polled(f: Outcomes, s: State, actions: seq<Action>): seq<Task>
    requires Run(f, s, actions).Some?
    decreases |actions|
  {
    if actions == [] then []
    else
      var next := Step(f, s, actions[0]).value;
      (if actions[0].Pop? && next.place.InPoll? then [next.place.task] else []) + Polled(f, next, actions[1..])
  }

  lemma PollingStep(f: Outcomes, s: State, a: Action)
    requires Step(f, s, a).Some?
    ensures var t := Step(f, s, a).value;
            s.polling + QueuedBy(s, a) == (if a.Pop? && t.place.InPoll? then [t.place.task] else []) + t.polling
  {
  }

  /** In every run tasks are polled in the order in which they were spawned or woken. */
  lemma {:induction false} PolledInOrder(f: Outcomes, s: State, actions: seq<Action>)
    requires Run(f, s, actions).Some?
    ensures s.polling + Queued(f, s, actions) == Polled(f, s, actions) + Run(f, s, actions).value.polling
    decreases |actions|
  {
    if actions != [] {
      var a, next := actions[0], Step(f, s, actions[0]).value;
      PollingStep(f, s, a);
      PolledInOrder(f, next, actions[1..]);
      QueueShift(s.polling, QueuedBy(s, a), if a.Pop? && next.place.InPoll? then [next.place.task] else [],
                 next.polling, Queued(f, next, actions[1..]), Polled(f, next, actions[1..]),
                 Run(f, s, actions).value.polling);
    }
  }

  /** Whenever the executor calls `recv`, nothing is queued for polling and every
      unfinished task is waiting, and nothing else is. */
  lemma RecvFindsAllWaiting(f: Outcomes, actions: seq<Action>, s: State)
    requires Run(f, NEW, actions) == Some(s) && s.place.Receiving?
    ensures s.polling == []
    ensures forall id :: id in s.waiting <==> Unfinished(s, id)
  {
    RunInv(f, NEW, actions);
    forall id ensures id in s.waiting <==> Unfinished(s, id) {
      assert Places(s, id) == One(Unfinished(s, id));
    }
  }

  /** A wake sent after a task's latest poll began is still in the channel, has just
      been received, or has requeued the task. */
  lemma NoWakeIsLost(f: Outcomes, actions: seq<Action>, s: State, id: nat)
    requires Run(f, NEW, actions) == Some(s) && id in s.woken && Unfinished(s, id)
    ensures id in s.channel || s.place == Received(id) || exists i :: 0 <= i < |s.polling| && s.polling[i].id == id
  {
    RunInv(f, NEW, actions);
    assert Places(s, id) == One(Unfinished(s, id));
    if id !in s.waiting && !Current(s, id) {
      CountWitness(s.polling, id);
    }
  }

  lemma {:induction false} CountWitness(q: seq<Task>, id: nat)
    requires CountId(q, id) > 0
    ensures exists i :: 0 <= i < |q| && q[i].id == id
    decreases |q|
  {
    if q[0].id != id {
      CountWitness(q[1..], id);
      var i :| 0 <= i < |q[1..]| && q[1..][i].id == id;
      assert q[i + 1].id == id;
    }
  }

  /** If the executor blocks on an empty channel, no unfinished task has been woken
      since its latest poll. */
  lemma BlockedMeansNobodyWoken(f: Outcomes, actions: seq<Action>, s: State, id: nat)
    requires Run(f, NEW, actions) == Some(s) && s.place.Receiving? && s.channel == [] && Unfinished(s, id)
    ensures id in s.waiting && id !in s.woken
  {
    RunInv(f, NEW, actions);
    RecvFindsAllWaiting(f, actions, s);
  }

  /** When `run` returns, every handle has received exactly one value, the one its
      future gives when polled alone, whatever the wakes were. */
  lemma EveryHandleGetsItsResult(f: Outcomes, actions: seq<Action>, s: State, id: nat)
    requires Run(f, NEW, actions) == Some(s) && s.place.Finished? && id < s.count
    ensures id in s.outputs && |s.outputs[id]| == 1 && Result(f, id, s.outputs[id][0])
  {
    RunInv(f, NEW, actions);
    assert Places(s, id) == One(Unfinished(s, id));
  }
}
