/** The event bus as a state machine. The chamber's lock is held by the collector from
    the moment it clones `dead_ids` until it has removed the clone's queues; the lock of
    `dead_ids` is released in between, so handles can still be dropped. Handles are
    numbered in the order of their subscription; an id may come round again. */
module EventBusModel {
  import opened Options

  type Event = int

  const LIMIT: nat := 0x1_0000_0000   // ids are u32 and wrap around

  /** Where the collector is; it holds the chamber's lock outside `Resting`. */
  datatype Collector = Resting | Cloned(ids: seq<nat>) | Emptied(ids: seq<nat>)

  datatype State = State(
    chamber: map<nat, seq<Event>>,     // one queue per id
    count: nat,                        // the next id
    dead: seq<nat>,                    // dead_ids
    gc: Collector,
    panicked: bool,
    // history
    subscriptions: nat,                // also the number of the next handle
    ids: map<nat, nat>,                // the id of each handle
    live: set<nat>,                    // handles not yet dropped
    owner: map<nat, nat>,              // the handle that last subscribed under each id
    log: seq<Event>,                   // every event sent
    since: map<nat, nat>,              // |log| when the handle subscribed
    delivered: map<nat, seq<Event>>,   // what each handle's polls returned
    missed: set<nat>)                  // ids pushed between a clone and its clear, not used since

  datatype Action =
    | Subscribe
    | Send(event: Event)
    | Poll(handle: nat)
    | Drop(handle: nat)
    | CloneDead
    | ClearDead
    | RemoveQueues

  function Push(chamber: map<nat, seq<Event>>, e: Event): map<nat, seq<Event>> {
    map id | id in chamber :: chamber[id] + [e]
  }

  function Ids(s: seq<nat>): set<nat> { set i | 0 <= i < |s| :: s[i] }

  function StepSubscribe(s: State): Option<State> {
    if s.gc.Resting? then
      var h := s.subscriptions;
      Some(s.(chamber := s.chamber[s.count := []], count := (s.count + 1) % LIMIT, subscriptions := h + 1,
              ids := s.ids[h := s.count], live := s.live + {h}, owner := s.owner[s.count := h],
              since := s.since[h := |s.log|], delivered := s.delivered[h := []], missed := s.missed - {s.count}))
    else None
  }

  predicate Holds(s: State, h: nat) { h in s.live && h in s.ids }

  /** Only a live handle polls; a missing queue makes `unwrap` panic. */
  function StepPoll(s: State, h: nat): Option<State> {
    if !(s.gc.Resting? && Holds(s, h)) then None
    else
      var id := s.ids[h];
      if id !in s.chamber then Some(s.(panicked := true))
      else if s.chamber[id] == [] then Some(s)
      else
        var received := if h in s.delivered then s.delivered[h] else [];
        Some(s.(chamber := s.chamber[id := s.chamber[id][1..]],
                delivered := s.delivered[h := received + [s.chamber[id][0]]]))
  }

  function Step(s: State, a: Action): Option<State> {
    match a
    case Subscribe => StepSubscribe(s)
    case Send(e) => if s.gc.Resting? then Some(s.(chamber := Push(s.chamber, e), log := s.log + [e])) else None
    case Poll(h) => StepPoll(s, h)
    case Drop(h) => if Holds(s, h) then Some(s.(live := s.live - {h}, dead := s.dead + [s.ids[h]])) else None
    case CloneDead => if s.gc.Resting? then Some(s.(gc := Cloned(s.dead))) else None
    case ClearDead =>
      if s.gc.Cloned? then
        Some(s.(dead := [], gc := Emptied(s.gc.ids),
                missed := s.missed + if |s.gc.ids| <= |s.dead| then Ids(s.dead[|s.gc.ids|..]) else {}))
      else None
    case RemoveQueues =>
      if s.gc.Emptied? then Some(s.(chamber := s.chamber - Ids(s.gc.ids), gc := Resting)) else None
  }

  function Run(s: State, actions: seq<Action>): Option<State>
    decreases |actions|
  {
    if actions == [] then Some(s)
    else
      var next := Step(s, actions[0]);
      if next.None? then None else Run(next.value, actions[1..])
  }

  const NEW := State(map[], 0, [], Resting, false, 0, map[], {}, map[], [], map[], map[], {})

  /** The ids of the handles not yet dropped. */
  function LiveIds(s: State): set<nat> { set h | h in s.live && h in s.ids :: s.ids[h] }

  /** The next id belongs to no live handle and to none that still has to be collected. */
  predicate Reusable(s: State) { s.count !in LiveIds(s) && s.count !in Ids(s.dead) }

  /** A run in which every subscription finds its id reusable. */
  predicate FreshRun(s: State, actions: seq<Action>)
    decreases |actions|
  {
    actions == [] ||
    ((actions[0].Subscribe? ==> Reusable(s)) && Step(s, actions[0]).Some?
     && FreshRun(Step(s, actions[0]).value, actions[1..]))
  }
}
