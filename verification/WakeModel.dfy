/** The wake-driven executor as a state machine. Wakes arrive at any moment, from any
    thread, including in the middle of a poll. */
module WakeModel {
  import opened Options
  import opened Futures

  datatype Place =
    | NotRunning
    | Popping                 // top of the loop in `poll`
    | InPoll(task: Task)      // its future is being polled
    | Checking                // `poll` returned, `run` looks whether anything is left
    | Receiving               // in receiver.recv()
    | Received(id: nat)       // took an id off the channel
    | Finished                // `run` returned

  datatype State = State(
    count: nat,                     // ids given out
    polling: seq<Task>,
    waiting: map<nat, Task>,
    channel: seq<nat>,              // woken ids
    outputs: map<nat, seq<int>>,    // what each handle has received
    place: Place,
    woken: set<nat>)                // history: woken since their latest poll began

  datatype Action =
    | Spawn
    | StartRun
    | Pop
    | PollReturns
    | Check
    | Recv
    | Requeue
    | Wake(id: nat)

  /** A task may be spawned before `run` or by a future that is being polled. */
  function StepSpawn(s: State): Option<State> {
    if s.place.NotRunning? || s.place.InPoll? then
      Some(s.(count := s.count + 1, polling := s.polling + [Task(s.count, 0)], outputs := s.outputs[s.count := []]))
    else None
  }

  function StepPop(s: State): Option<State> {
    if !s.place.Popping? then None
    else if s.polling == [] then Some(s.(place := Checking))
    else
      Some(s.(polling := s.polling[1..], place := InPoll(s.polling[0]), woken := s.woken - {s.polling[0].id}))
  }

  function StepPollReturns(f: Outcomes, s: State): Option<State> {
    if s.place.InPoll? && s.place.task.id in s.outputs then
      var t := s.place.task;
      match f(t.id, t.polls)
      case Some(v) => Some(s.(place := Popping, outputs := s.outputs[t.id := s.outputs[t.id] + [v]]))
      case None => Some(s.(place := Popping, waiting := s.waiting[t.id := Task(t.id, t.polls + 1)]))
    else None
  }

  function StepRequeue(s: State): Option<State> {
    if !s.place.Received? then None
    else if s.place.id in s.waiting then
      Some(s.(place := Popping, waiting := s.waiting - {s.place.id}, polling := s.polling + [s.waiting[s.place.id]]))
    else Some(s.(place := Popping))
  }

  function Step(f: Outcomes, s: State, a: Action): Option<State> {
    match a
    case Spawn => StepSpawn(s)
    case StartRun => if s.place.NotRunning? then Some(s.(place := Popping)) else None
    case Pop => StepPop(s)
    case PollReturns => StepPollReturns(f, s)
    case Check =>
      if s.place.Checking? then
        Some(s.(place := if s.polling == [] && s.waiting == map[] then Finished else Receiving))
      else None
    case Recv =>
      if s.place.Receiving? && s.channel != [] then
        Some(s.(channel := s.channel[1..], place := Received(s.channel[0])))
      else None
    case Requeue => StepRequeue(s)
    case Wake(id) =>
      if id < s.count then Some(s.(channel := s.channel + [id], woken := s.woken + {id})) else None
  }

  function Run(f: Outcomes, s: State, actions: seq<Action>): Option<State>
    decreases |actions|
  {
    if actions == [] then Some(s)
    else
      var next := Step(f, s, actions[0]);
      if next.None? then None else Run(f, next.value, actions[1..])
  }

  lemma {:induction false} RunSnoc(f: Outcomes, s: State, actions: seq<Action>, a: Action)
    requires Run(f, s, actions).Some?
    ensures Run(f, s, actions + [a]) == Step(f, Run(f, s, actions).value, a)
    decreases |actions|
  {
    if actions == [] {
      assert [a][1..] == [];
    } else {
      assert (actions + [a])[1..] == actions[1..] + [a];
      RunSnoc(f, Step(f, s, actions[0]).value, actions[1..], a);
    }
  }

  /** The ids that wakers have sent in a run, in order. */
  function Wakes(actions: seq<Action>): seq<nat>
    decreases |actions|
  {
    if actions == [] then [] else SentBy(actions[0]) + Wakes(actions[1..])
  }

  function SentBy(a: Action): seq<nat> { if a.Wake? then [a.id] else [] }

  /** Is the executor in `recv` after these steps? Wakes do not move it. */
  predicate Asleep(actions: seq<Action>)
    decreases |actions|
  {
    actions != [] &&
    var before, last := actions[..|actions| - 1], actions[|actions| - 1];
    if last.Wake? then Asleep(before) else last.Check?
  }

  /** The ids that wakers have sent, in order, while the executor was in `recv`, or was not. */
  function Arrived(actions: seq<Action>, asleep: bool): seq<nat>
    decreases |actions|
  {
    if actions == [] then []
    else
      var before, last := actions[..|actions| - 1], actions[|actions| - 1];
      if last.Wake? && Asleep(before) == asleep then Arrived(before, asleep) + [last.id] else Arrived(before, asleep)
  }

  /** How many polls a run has made. */
  function Polls(actions: seq<Action>): nat
    decreases |actions|
  {
    if actions == [] then 0
    else Polls(actions[..|actions| - 1]) + if actions[|actions| - 1].PollReturns? then 1 else 0
  }

  lemma WakesSnoc(actions: seq<Action>, a: Action)
    ensures Asleep(actions + [a]) == if a.Wake? then Asleep(actions) else a.Check?
    ensures forall asleep :: Arrived(actions + [a], asleep)
              == Arrived(actions, asleep) + if a.Wake? && Asleep(actions) == asleep then [a.id] else []
    ensures Polls(actions + [a]) == Polls(actions) + if a.PollReturns? then 1 else 0
  {
    assert (actions + [a])[..|actions|] == actions;
  }

  /** Every id sent has arrived in one of the two ways, once. */
  lemma {:induction false} WakesAreArrived(actions: seq<Action>)
    ensures multiset(Wakes(actions)) == multiset(Arrived(actions, false)) + multiset(Arrived(actions, true))
    decreases |actions|
  {
    if actions != [] {
      var before, last := actions[..|actions| - 1], actions[|actions| - 1];
      assert actions == before + [last];
      WakesAreArrived(before);
      SentSnoc(before, last);
      WakesSnoc(before, last);
    }
  }

  lemma {:induction false} SentSnoc(actions: seq<Action>, a: Action)
    ensures Wakes(actions + [a]) == Wakes(actions) + SentBy(a)
    decreases |actions|
  {
    if actions == [] {
      assert [a][1..] == [] && Wakes([a]) == SentBy(a) + [];
    } else {
      assert (actions + [a])[1..] == actions[1..] + [a];
      SentSnoc(actions[1..], a);
      var first, rest, last := SentBy(actions[0]), Wakes(actions[1..]), SentBy(a);
      assert Wakes(actions + [a]) == first + (rest + last) == (first + rest) + last;
    }
  }

  const NEW := State(0, [], map[], [], map[], NotRunning, {})
}
