/** Two priority queues shared by their own workers, each kind stealing from the other
    queue when its own is empty. A task wakes itself on every pending poll, as every
    future of the source does; one that never finishes is, in any one run, a task that
    needs more polls than the run makes. */
module StealingModel {
  import opened Options

  const COUNTER_POLLS: nat := 3   // a CounterFuture is ready on its third poll

  datatype Order = High | Low

  /** One scheduling of a task: its `run`-th poll, counted from zero. */
  datatype Runnable = Runnable(task: nat, run: nat)

  /** A future ready on its poll number `need`, polled `count` times so far, and the
      queue its schedule closure sends to. */
  datatype Task = Task(order: Order, need: nat, count: nat)

  datatype Lane = Lane(
    queue: seq<Runnable>,
    sent: seq<Runnable>,    // history: everything ever sent to the channel
    taken: seq<Runnable>)   // history: everything received from it

  datatype Shared = Shared(tasks: seq<Task>, high: Lane, low: Lane, ran: seq<Runnable>)

  /** Where a worker's loop is; `own` and `other` are how much had been sent to its own
      and to the other channel when it found them empty. */
  datatype Place =
    | Top
    | OwnEmpty(own: nat)
    | Running(r: Runnable)
    | Sleeping(own: nat, other: nat)

  datatype Worker = Worker(kind: Order, place: Place)

  datatype State = State(sh: Shared, workers: seq<Worker>)

  datatype Action =
    | Spawn(order: Order, need: nat)
    | TryOwn(w: nat)
    | TrySteal(w: nat)
    | Finish(w: nat)
    | WakeUp(w: nat)

  function LaneOf(sh: Shared, o: Order): Lane { if o.High? then sh.high else sh.low }

  function SetLane(sh: Shared, o: Order, lane: Lane): Shared {
    if o.High? then sh.(high := lane) else sh.(low := lane)
  }

  function Opposite(o: Order): Order { if o.High? then Low else High }

  function Send(lane: Lane, r: Runnable): Lane { lane.(queue := lane.queue + [r], sent := lane.sent + [r]) }

  function Receive(lane: Lane): Lane
    requires lane.queue != []
  {
    lane.(queue := lane.queue[1..], taken := lane.taken + [lane.queue[0]])
  }

  /** `spawn_task`: the runnable goes to the queue of its order. */
  function SpawnTask(sh: Shared, o: Order, need: nat): Shared {
    var id := |sh.tasks|;
    SetLane(sh, o, Send(LaneOf(sh, o), Runnable(id, 0))).(tasks := sh.tasks + [Task(o, need, 0)])
  }

  /** `runnable.run()`: one poll; a task that woke itself is scheduled again, by its own closure. */
  function RunTask(sh: Shared, r: Runnable): Shared {
    if r.task >= |sh.tasks| then sh
    else
      var t := sh.tasks[r.task];
      var polled := sh.(tasks := sh.tasks[r.task := t.(count := t.count + 1)], ran := sh.ran + [r]);
      if t.count + 1 < t.need then
        SetLane(polled, t.order, Send(LaneOf(polled, t.order), Runnable(r.task, t.count + 1)))
      else polled
  }

  function SetWorker(s: State, w: nat, place: Place): State
    requires w < |s.workers|
  {
    s.(workers := s.workers[w := s.workers[w].(place := place)])
  }

  /** `try_recv` on one channel. */
  function StepReceive(s: State, w: nat, o: Order, empty: Place): State
    requires w < |s.workers|
  {
    var lane := LaneOf(s.sh, o);
    if lane.queue == [] then SetWorker(s, w, empty)
    else SetWorker(s, w, Running(lane.queue[0])).(sh := SetLane(s.sh, o, Receive(lane)))
  }

  function Step(s: State, a: Action): Option<State> {
    match a
    case Spawn(o, need) => if need > 0 then Some(s.(sh := SpawnTask(s.sh, o, need))) else None
    case TryOwn(w) =>
      if w < |s.workers| && s.workers[w].place.Top? then
        var o := s.workers[w].kind;
        Some(StepReceive(s, w, o, OwnEmpty(|LaneOf(s.sh, o).sent|)))
      else None
    case TrySteal(w) =>
      if w < |s.workers| && s.workers[w].place.OwnEmpty? then
        var o := Opposite(s.workers[w].kind);
        Some(StepReceive(s, w, o, Sleeping(s.workers[w].place.own, |LaneOf(s.sh, o).sent|)))
      else None
    case Finish(w) =>
      if w < |s.workers| && s.workers[w].place.Running? then
        Some(SetWorker(s, w, Top).(sh := RunTask(s.sh, s.workers[w].place.r)))
      else None
    case WakeUp(w) =>
      if w < |s.workers| && s.workers[w].place.Sleeping? then Some(SetWorker(s, w, Top)) else None
  }

  function Run(s: State, actions: seq<Action>): Option<State>
    decreases |actions|
  {
    if actions == [] then Some(s)
    else
      var next := Step(s, actions[0]);
      if next.None? then None else Run(next.value, actions[1..])
  }

  const NO_TASKS := Shared([], Lane([], [], []), Lane([], [], []), [])

  /** Any workers, all at the top of their loops, and nothing scheduled yet. */
  predicate Start(s: State) {
    s.sh == NO_TASKS && forall w :: 0 <= w < |s.workers| ==> s.workers[w].place.Top?
  }
}
