/** The thermostat: three pollers, on threads of their own, over shared atomics. A step is
    one access to a shared atomic, or a look at the clock; each poll is one or more steps,
    and those of different pollers interleave. Times are in milliseconds. */
module ThermostatModel {
  import opened Options

  const PERIOD: nat := 3000

  /** AtomicI16 arithmetic wraps around. */
  function Wrap16(x: int): (y: int)
    ensures -0x8000 <= y < 0x8000 && (x - y) % 0x1_0000 == 0 && (-0x8000 <= x < 0x8000 ==> y == x)
  {
    (x + 0x8000) % 0x1_0000 - 0x8000
  }

  /** Where the heater's poll is: it has seen the heater on, and `shown` says whether the
      display had then acted on the temperature; or the time is up and it is about to add. */
  datatype Heating = Idle | Loaded(shown: bool) | Due

  datatype State = State(
    temp: int,
    desired: int,
    heat: bool,
    view: Option<int>,   // the temperature the display has loaded and not yet acted on
    snapshot: int,       // the display's
    heater: Heating,
    heatSnap: nat,       // the heater's time snapshot
    lossDue: bool,       // the heat loss is about to subtract
    lossSnap: nat,       // the heat loss's time snapshot
    // history
    clock: nat,
    polled: nat,         // when the heater's poll was last complete
    losses: nat,         // losses since the last heater tick or switch-on
    ticks: nat)          // heater ticks

  datatype Action =
    | LoadTemp
    | SetHeat
    | LoadHeat(now: nat)
    | CheckHeater(now: nat)
    | AddHeat(later: nat)
    | CheckLoss(now: nat)
    | SubLoss(later: nat)

  /** `DisplayFuture::poll`: loads the temperature ... */
  function StepLoadTemp(s: State): Option<State> {
    if s.view.None? then Some(s.(view := Some(s.temp))) else None
  }

  /** ... and, if it has changed, sets the heater. Nobody else stores to `HEAT_ON` or
      `DESIRED_TEMP`, so it does not matter when they are loaded. */
  function StepSetHeat(s: State): Option<State> {
    if s.view.None? then None
    else
      var seen := s.view.value;
      var t := s.(view := None, snapshot := seen);
      if seen == s.snapshot then Some(t)
      else if seen < s.desired && !s.heat then Some(t.(heat := true, losses := 0))
      else if seen > s.desired && s.heat then Some(t.(heat := false))
      else Some(t)
  }

  /** `HeaterFuture::poll`: loads the switch; while it is off the time starts anew. */
  function StepLoadHeat(s: State, now: nat): Option<State> {
    if !s.heater.Idle? || now < s.clock then None
    else if !s.heat then Some(s.(clock := now, polled := now, heatSnap := now))
    else Some(s.(clock := now, heater := Loaded(s.snapshot == s.temp)))
  }

  predicate TimeIsUp(s: State, now: nat) { now >= s.heatSnap + PERIOD }

  /** After three seconds of heating ... */
  function StepCheckHeater(s: State, now: nat): Option<State> {
    if !s.heater.Loaded? || now < s.clock then None
    else if TimeIsUp(s, now) then Some(s.(clock := now, heater := Due))
    else Some(s.(clock := now, polled := now, heater := Idle))
  }

  /** ... it adds three units. */
  function StepAddHeat(s: State, later: nat): Option<State> {
    if s.heater.Due? && s.clock <= later then
      Some(s.(temp := Wrap16(s.temp + 3), heater := Idle, heatSnap := later, clock := later, polled := later,
              losses := 0, ticks := s.ticks + 1))
    else None
  }

  /** `HeatLossFuture::poll`: every time more than three seconds have passed ... */
  function StepCheckLoss(s: State, now: nat): Option<State> {
    if s.lossDue || now < s.clock then None
    else Some(s.(clock := now, lossDue := now > s.lossSnap + PERIOD))
  }

  /** ... it subtracts one unit. */
  function StepSubLoss(s: State, later: nat): Option<State> {
    if s.lossDue && s.clock <= later then
      Some(s.(temp := Wrap16(s.temp - 1), lossDue := false, lossSnap := later, clock := later, losses := s.losses + 1))
    else None
  }

  function Step(s: State, a: Action): Option<State> {
    match a
    case LoadTemp => StepLoadTemp(s)
    case SetHeat => StepSetHeat(s)
    case LoadHeat(now) => StepLoadHeat(s, now)
    case CheckHeater(now) => StepCheckHeater(s, now)
    case AddHeat(later) => StepAddHeat(s, later)
    case CheckLoss(now) => StepCheckLoss(s, now)
    case SubLoss(later) => StepSubLoss(s, later)
  }

  /** The display is polled between any two temperature changes, and at most two losses
      occur since the last tick, or the switch-on, while heating. */
  predicate Shown(s: State, a: Action) {
    && Step(s, a).Some?
    && (a.AddHeat? || a.SubLoss? ==> s.snapshot == s.temp)
    && (a.SubLoss? && s.heat ==> s.losses < 2)
  }

  /** In addition, the display had acted on the temperature when the heater loaded the
      switch for the poll in which it adds. */
  predicate Disciplined(s: State, a: Action) {
    Shown(s, a) && (a.CheckHeater? && TimeIsUp(s, a.now) ==> s.heater.shown)
  }

  predicate ShownRun(s: State, actions: seq<Action>)
    decreases |actions|
  {
    actions == [] || (Shown(s, actions[0]) && ShownRun(Step(s, actions[0]).value, actions[1..]))
  }

  predicate DisciplinedRun(s: State, actions: seq<Action>)
    decreases |actions|
  {
    actions == [] || (Disciplined(s, actions[0]) && DisciplinedRun(Step(s, actions[0]).value, actions[1..]))
  }

  function Run(s: State, actions: seq<Action>): Option<State>
    decreases |actions|
  {
    if actions == [] then Some(s)
    else
      var next := Step(s, actions[0]);
      if next.None? then None else Run(next.value, actions[1..])
  }

  /** Nobody is in the middle of a poll. */
  function AtRest(temp: int, desired: int, heat: bool): State {
    State(temp, desired, heat, None, temp, Idle, 0, false, 0, 0, 0, 0, 0)
  }

  /** The values of the source's statics when the pollers are created at time 0. */
  const START := AtRest(2090, 2100, false)
}
