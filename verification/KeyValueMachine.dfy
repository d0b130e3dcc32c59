/** The actors as a state machine. A side is one key-value actor with the writer
    actor it started; a Reset aborts the newest side and starts another. Each step
    runs from one await point to the next. */
module KeyValueMachine {
  import opened Options
  import opened KeyValueModel

  const CAPACITY: nat := 32   // channel(32)

  datatype Actor =
    | Starting                      // spawned, not yet run
    | Opening                       // writer spawned, opening Get not yet sent
    | Awaiting                      // waiting for the table
    | Serving                       // in receiver.recv()
    | Forwarding(request: Request)  // sending a write to the writer
    | Stopped

  datatype Writer =
    | Absent
    | Loading
    | Creating                      // table loaded, file not yet created
    | Receiving                     // in receiver.recv()
    | Updated                       // message applied to the map
    | Truncated                     // set_len(0) done

  datatype Side = Side(
    actor: Actor,
    aborted: bool,
    inbox: seq<Request>,     // the actor's channel
    table: Table,            // the actor's map
    writer: Writer,
    log: seq<LogMessage>,    // the writer's channel
    copy: Table,             // the writer's map
    reply: Option<Table>,    // answer to the opening Get, not yet received
    // history
    routed: seq<Request>,    // every request put into `inbox`
    dropped: seq<Request>,   // requests lost when the actor stopped
    asked: bool,             // the opening Get was sent
    answered: bool,          // ... and handled by the writer
    start: Table,            // what the writer loaded
    sent: seq<LogMessage>,   // every write put into `log`
    done: nat,               // writes of `sent` the writer has applied
    seen: nat)               // `touches` just after the writer's last set_len(0)

  const FRESH := Side(Starting, false, [], map[], Absent, [], map[], None, [], [], false, false, map[], [], 0, 0)

  datatype State = State(
    sides: seq<Side>,        // oldest first; the router sends to the last
    file: File,
    // history
    acks: seq<Ack>,
    owner: int,              // side whose writer last wrote the file, -1 if none
    kept: nat,               // how many of its writes the file holds
    loaded: int,             // side that loaded the file last, -1 if none
    touches: nat,            // how often the file was created, emptied or written
    mixed: bool)             // is its content what overlapping rewrites have left?

  datatype Action =
    | Route(request: Request)
    | Reset
    | Spawn(g: nat)
    | SendGet(g: nat)
    | ReceiveTable(g: nat)
    | Take(g: nat)
    | Forward(g: nat)
    | Stop(g: nat)
    | LoadFile(g: nat)
    | CreateFile(g: nat)
    | ReceiveLog(g: nat)
    | Truncate(g: nat)
    | Mix(g: nat, content: File)
    | Write(g: nat, left: Option<File>)

  function SetSide(s: State, g: nat, side: Side): State
    requires g < |s.sides|
  {
    s.(sides := s.sides[g := side])
  }

  /** The router passes a request on to the newest actor. */
  function StepRoute(s: State, r: Request): Option<State> {
    if s.sides == [] then None else
    var g := |s.sides| - 1;
    var side := s.sides[g];
    if |side.inbox| < CAPACITY then
      Some(SetSide(s, g, side.(inbox := side.inbox + [r], routed := side.routed + [r])))
    else None
  }

  /** Reset: `abort()` and a new actor; the old one stops at some later await. */
  function StepReset(s: State): Option<State> {
    if s.sides == [] then None else
    var g := |s.sides| - 1;
    Some(s.(sides := s.sides[g := s.sides[g].(aborted := true)] + [FRESH]))
  }

  /** The actor's first run: it spawns its writer ... */
  function StepSpawn(s: State, g: nat): Option<State> {
    if g < |s.sides| && s.sides[g].actor.Starting? then
      Some(SetSide(s, g, s.sides[g].(actor := Opening, writer := Loading)))
    else None
  }

  /** ... sends it the opening Get ... */
  function StepSendGet(s: State, g: nat): Option<State> {
    if g < |s.sides| && s.sides[g].actor.Opening? then
      Some(SetSide(s, g, s.sides[g].(actor := Awaiting, log := s.sides[g].log + [LogGet], asked := true)))
    else None
  }

  /** ... and takes the answer as its map. */
  function StepReceiveTable(s: State, g: nat): Option<State> {
    if g < |s.sides| && s.sides[g].actor.Awaiting? && s.sides[g].reply.Some? then
      Some(SetSide(s, g, s.sides[g].(actor := Serving, table := s.sides[g].reply.value, reply := None)))
    else None
  }

  /** The actor receives a request; a Get is answered at once. */
  function StepTake(s: State, g: nat): Option<State> {
    if g < |s.sides| && s.sides[g].actor.Serving? && s.sides[g].inbox != [] then
      var side := s.sides[g];
      var r := side.inbox[0];
      var rest := side.(inbox := side.inbox[1..]);
      if ToLog(r).None? then
        Some(SetSide(s, g, rest).(acks := s.acks + [Ack(g, r, Answer(side.table, r))]))
      else Some(SetSide(s, g, rest.(actor := Forwarding(r))))
    else None
  }

  /** The writer's channel takes the write; the map changes and the client is answered. */
  function StepForward(s: State, g: nat): Option<State> {
    if g < |s.sides| && s.sides[g].actor.Forwarding? && |s.sides[g].log| < CAPACITY
       && ToLog(s.sides[g].actor.request).Some? then
      var side := s.sides[g];
      var r := side.actor.request;
      var m := ToLog(r).value;
      Some(SetSide(s, g, side.(actor := Serving, log := side.log + [m], sent := side.sent + [m],
                               table := Apply(side.table, m)))
           .(acks := s.acks + [Ack(g, r, Answer(side.table, r))]))
    else None
  }

  /** What the actor has received or could receive and has not answered. */
  function Pending(side: Side): seq<Request> {
    (if side.actor.Forwarding? then [side.actor.request] else []) + side.inbox
  }

  /** An aborted actor stops at an await point; its requests are lost with it. */
  function StepStop(s: State, g: nat): Option<State> {
    if g < |s.sides| && s.sides[g].aborted && !s.sides[g].actor.Stopped? then
      var side := s.sides[g];
      Some(SetSide(s, g, side.(actor := Stopped, inbox := [], reply := None, dropped := Pending(side))))
    else None
  }

  function StepLoad(s: State, g: nat): Option<State> {
    if g < |s.sides| && s.sides[g].writer.Loading? then
      Some(SetSide(s, g, s.sides[g].(writer := Creating, copy := Load(s.file), start := Load(s.file)))
           .(loaded := g))
    else None
  }

  /** `File::create` leaves an empty file. */
  function StepCreate(s: State, g: nat): Option<State> {
    if g < |s.sides| && s.sides[g].writer.Creating? then
      Some(SetSide(s, g, s.sides[g].(writer := Receiving)).(file := Torn, touches := s.touches + 1, mixed := false))
    else None
  }

  function StepReceiveLog(s: State, g: nat): Option<State> {
    if g < |s.sides| && s.sides[g].writer.Receiving? && s.sides[g].log != [] then
      var side := s.sides[g];
      var m := side.log[0];
      var next := side.(writer := Updated, log := side.log[1..], copy := Apply(side.copy, m));
      if m.LogGet? then
        // the answer to a stopped actor is lost
        var reply := if side.actor.Stopped? then None else Some(side.copy);
        Some(SetSide(s, g, next.(reply := reply, answered := true)))
      else Some(SetSide(s, g, next.(done := side.done + 1)))
    else None
  }

  function StepTruncate(s: State, g: nat): Option<State> {
    if g < |s.sides| && s.sides[g].writer.Updated? then
      Some(SetSide(s, g, s.sides[g].(writer := Truncated, seen := s.touches + 1))
           .(file := Torn, touches := s.touches + 1, mixed := false))
    else None
  }

  /** Another writer touched the file after this one had emptied it, or is about to write. */
  predicate Overlapped(s: State, g: nat)
    requires g < |s.sides|
  {
    s.touches > s.sides[g].seen || exists h :: 0 <= h < |s.sides| && h != g && s.sides[h].writer.Truncated?
  }

  /** The text is written in place, piece by piece. Over another writer's text, or with
      another writer at work, the file may read as anything on the way ... */
  function StepMix(s: State, g: nat, content: File): Option<State> {
    if g < |s.sides| && s.sides[g].writer.Truncated? && Overlapped(s, g) then
      Some(s.(file := content, mixed := true))
    else None
  }

  /** ... and so it may when the writer is done; otherwise it holds the text. */
  function StepWrite(s: State, g: nat, left: Option<File>): Option<State> {
    if g < |s.sides| && s.sides[g].writer.Truncated? && (left.Some? ==> Overlapped(s, g)) then
      Some(SetSide(s, g, s.sides[g].(writer := Receiving))
           .(file := if left.Some? then left.value else Holds(s.sides[g].copy),
             owner := g, kept := s.sides[g].done, touches := s.touches + 1, mixed := left.Some?))
    else None
  }

  function Step(s: State, a: Action): Option<State> {
    match a
    case Route(r) => StepRoute(s, r)
    case Reset => StepReset(s)
    case Spawn(g) => StepSpawn(s, g)
    case SendGet(g) => StepSendGet(s, g)
    case ReceiveTable(g) => StepReceiveTable(s, g)
    case Take(g) => StepTake(s, g)
    case Forward(g) => StepForward(s, g)
    case Stop(g) => StepStop(s, g)
    case LoadFile(g) => StepLoad(s, g)
    case CreateFile(g) => StepCreate(s, g)
    case ReceiveLog(g) => StepReceiveLog(s, g)
    case Truncate(g) => StepTruncate(s, g)
    case Mix(g, content) => StepMix(s, g, content)
    case Write(g, left) => StepWrite(s, g, left)
  }

  function Run(s: State, actions: seq<Action>): Option<State>
    decreases |actions|
  {
    if actions == [] then Some(s)
    else
      var next := Step(s, actions[0]);
      if next.None? then None else Run(next.value, actions[1..])
  }

  /** The router has just spawned the first actor. */
  function Start(file: File): State { State([FRESH], file, [], -1, 0, -1, 0, false) }

  // ---------- the hypothesis under which recovery works ----------

  /** The actor has stopped; its writer, if any, has answered the opening Get,
      emptied its channel and finished writing. */
  predicate Quiet(side: Side) {
    side.actor.Stopped? &&
    (side.writer.Absent? || (side.writer.Receiving? && side.answered && side.log == []))
  }

  /** A writer loads the file only when every older side is quiet. */
  predicate Orderly(s: State, a: Action) {
    a.LoadFile? && a.g < |s.sides| ==> forall h :: 0 <= h < a.g ==> Quiet(s.sides[h])
  }

  predicate OrderlyRun(s: State, actions: seq<Action>)
    decreases |actions|
  {
    actions == [] ||
    (Orderly(s, actions[0]) && Step(s, actions[0]).Some? && OrderlyRun(Step(s, actions[0]).value, actions[1..]))
  }
}
