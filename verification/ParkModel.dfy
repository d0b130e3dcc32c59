/** The park/unpark dispatcher: the accepting thread deals connections to three
    worker threads; a worker with nothing to do raises its flag and parks. */
module ParkModel {
  import opened Options

  type Conn = nat

  const WORKERS: nat := 3

  /** Where a worker's loop is. */
  datatype Place =
    | Top            // about to try_recv
    | GoingToSleep   // found no connection and no task; the flag is not yet stored
    | Parking        // flag stored, in thread::park
    | Polling        // about to poll its executor

  datatype Worker = Worker(
    place: Place,
    chan: seq<Conn>,      // connections sent and not yet received
    flag: bool,           // FLAGS[i]
    token: bool,          // the park token
    tasks: seq<Conn>,     // the executor's queue
    // history
    sent: seq<Conn>,      // everything sent to the worker
    served: seq<Conn>,    // everything it received
    polled: seq<Conn>,    // the task of each of its polls
    finished: seq<Conn>,  // the tasks that returned ready
    checked: nat,         // connections whose flag check is over
    mark: nat,            // |sent| at the last failing try_recv that went to sleep
    stored: nat)          // `checked` at the last flag store

  /** Where the accepting thread is with the connection it is dispatching. */
  datatype Dispatch = Accepting | Sent | SeenSet | Cleared

  datatype State = State(workers: seq<Worker>, index: nat, dispatch: Dispatch)

  datatype Action =
    | Send(conn: Conn)
    | CheckFlag
    | ClearFlag
    | Unpark
    | TryRecv(w: nat)
    | StoreFlag(w: nat)
    | ParkReturns(w: nat)
    | SpuriousWake(w: nat)
    | PollTask(w: nat, ready: bool)

  // ---------- one worker ----------

  function SendTo(w: Worker, c: Conn): Worker { w.(chan := w.chan + [c], sent := w.sent + [c]) }

  function Check(w: Worker): Worker { w.(checked := |w.sent|) }

  function ReceiveOrSleep(w: Worker): Worker {
    if w.chan != [] then
      w.(chan := w.chan[1..], tasks := w.tasks + [w.chan[0]], served := w.served + [w.chan[0]], place := Polling)
    else if w.tasks == [] then w.(place := GoingToSleep, mark := |w.sent|)
    else w.(place := Polling)
  }

  function Store(w: Worker): Worker { w.(flag := true, place := Parking, stored := w.checked) }

  /** `executor.poll()`: one task at most; a pending one goes to the back. */
  function Poll(w: Worker, ready: bool): Worker {
    if w.tasks == [] then w.(place := Top)
    else
      var rest, polled := w.tasks[1..], w.polled + [w.tasks[0]];
      if ready then w.(place := Top, tasks := rest, polled := polled, finished := w.finished + [w.tasks[0]])
      else w.(place := Top, tasks := rest + [w.tasks[0]], polled := polled)
  }

  // ---------- the system ----------

  predicate Valid(s: State) { |s.workers| == WORKERS && s.index < WORKERS }

  function SetWorker(s: State, i: nat, w: Worker): State
    requires i < |s.workers|
  {
    s.(workers := s.workers[i := w])
  }

  function Next(index: nat): nat { if index + 1 == WORKERS then 0 else index + 1 }

  function Step(s: State, a: Action): (r: Option<State>)
    requires Valid(s)
    ensures r.Some? ==> Valid(r.value)
  {
    var target := s.workers[s.index];
    match a
    case Send(c) =>
      if s.dispatch.Accepting? then Some(SetWorker(s, s.index, SendTo(target, c)).(dispatch := Sent)) else None
    case CheckFlag =>
      if !s.dispatch.Sent? then None
      else if target.flag then Some(SetWorker(s, s.index, Check(target)).(dispatch := SeenSet))
      else Some(SetWorker(s, s.index, Check(target)).(dispatch := Accepting, index := Next(s.index)))
    case ClearFlag =>
      if s.dispatch.SeenSet? then Some(SetWorker(s, s.index, target.(flag := false)).(dispatch := Cleared)) else None
    case Unpark =>
      if s.dispatch.Cleared? then
        Some(SetWorker(s, s.index, target.(token := true)).(dispatch := Accepting, index := Next(s.index)))
      else None
    case TryRecv(w) =>
      if w < WORKERS && s.workers[w].place.Top? then Some(SetWorker(s, w, ReceiveOrSleep(s.workers[w]))) else None
    case StoreFlag(w) =>
      if w < WORKERS && s.workers[w].place.GoingToSleep? then Some(SetWorker(s, w, Store(s.workers[w]))) else None
    case ParkReturns(w) =>
      if w < WORKERS && s.workers[w].place.Parking? && s.workers[w].token then
        Some(SetWorker(s, w, s.workers[w].(token := false, place := Polling)))
      else None
    case SpuriousWake(w) =>
      if w < WORKERS && s.workers[w].place.Parking? then Some(SetWorker(s, w, s.workers[w].(place := Polling)))
      else None
    case PollTask(w, ready) =>
      if w < WORKERS && s.workers[w].place.Polling? then Some(SetWorker(s, w, Poll(s.workers[w], ready))) else None
  }

  function Run(s: State, actions: seq<Action>): (r: Option<State>)
    requires Valid(s)
    ensures r.Some? ==> Valid(r.value)
    decreases |actions|
  {
    if actions == [] then Some(s)
    else
      var next := Step(s, actions[0]);
      if next.None? then None else Run(next.value, actions[1..])
  }

  const IDLE := Worker(Top, [], false, false, [], [], [], [], [], 0, 0, 0)

  const START := State([IDLE, IDLE, IDLE], 0, Accepting)
}
