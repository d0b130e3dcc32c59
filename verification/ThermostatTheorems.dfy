/** The band around the desired temperature: when it is kept, and how it is reached. */
module ThermostatTheorems {
  import opened Options
  import opened Indicator
  import opened ThermostatModel

  predicate InBand(s: State) { s.desired - 3 <= s.temp <= s.desired + 3 }

  /** The desired temperature leaves room for the band in an i16. */
  predicate Representable(d: int) { -0x8000 + 4 <= d <= 0x7FFF - 3 }

  lemma NoWrap(x: int)
    requires -0x8000 <= x <= 0x7FFF
    ensures Wrap16(x) == x
  {
  }

  /** The switch is what the display makes of the temperature. */
  predicate Switched(s: State) { (s.temp < s.desired ==> s.heat) && (s.temp > s.desired ==> !s.heat) }

  /** The display has finished a poll and acted on the current temperature. */
  predicate Synced(s: State) { s.view.None? && s.snapshot == s.temp && Switched(s) }

  /** What the display has loaded is old news or the current temperature. */
  predicate ViewOk(s: State) { s.view.Some? ==> s.view.value == s.snapshot || s.view.value == s.temp }

  /** A heater that will add was told to when it was not too warm. */
  predicate HeaterOk(s: State) { s.heater.Due? || (s.heater.Loaded? && s.heater.shown) ==> s.temp <= s.desired }

  /** Not so low that two losses leave the band; not above it. */
  predicate Safe(s: State) {
    && Representable(s.desired) && ViewOk(s) && HeaterOk(s)
    && (s.snapshot == s.temp ==> Switched(s))
    && s.temp <= s.desired + 3
    && if s.heat then s.losses <= 2 && s.temp + s.losses >= s.desired - 1 else s.temp >= s.desired - 1
  }

  lemma SafeStep(s: State, a: Action)
    requires Safe(s) && Disciplined(s, a)
    ensures Safe(Step(s, a).value) && InBand(s)
  {
    if a.SubLoss? {
      NoWrap(s.temp - 1);
    }
    if a.AddHeat? {
      NoWrap(s.temp + 3);
    }
  }

  lemma {:induction false} SafeForever(s: State, actions: seq<Action>)
    requires Safe(s) && DisciplinedRun(s, actions)
    ensures Run(s, actions).Some? && Run(s, actions).value.desired == s.desired
    ensures Safe(Run(s, actions).value) && InBand(Run(s, actions).value)
    decreases |actions|
  {
    if actions != [] {
      SafeStep(s, actions[0]);
      SafeForever(Step(s, actions[0]).value, actions[1..]);
    }
  }

  // ---------- disciplined continuations ----------

  /** A disciplined run from one state to another. */
  ghost predicate Leads(s: State, actions: seq<Action>, t: State) {
    DisciplinedRun(s, actions) && Run(s, actions) == Some(t)
  }

  lemma {:induction false} RunConcat(s: State, xs: seq<Action>, t: State, ys: seq<Action>, u: State)
    requires Leads(s, xs, t) && Leads(t, ys, u)
    ensures Leads(s, xs + ys, u)
    decreases |xs|
  {
    if xs == [] {
      assert xs + ys == ys;
    } else {
      assert (xs + ys)[1..] == xs[1..] + ys;
      RunConcat(Step(s, xs[0]).value, xs[1..], t, ys, u);
    }
  }

  lemma Then(s: State, xs: seq<Action>, t: State, a: Action) returns (ys: seq<Action>, u: State)
    requires Leads(s, xs, t) && Disciplined(t, a)
    ensures Leads(s, ys, u) && Step(t, a) == Some(u)
  {
    u := Step(t, a).value;
    assert [a][1..] == [];
    RunConcat(s, xs, t, [a], u);
    ys := xs + [a];
  }

  /** One whole poll of the display. */
  lemma ThenShow(s: State, xs: seq<Action>, t: State) returns (ys: seq<Action>, u: State)
    requires Leads(s, xs, t) && t.view.None?
    ensures Leads(s, ys, u)
    ensures u == var on, off := t.temp < t.desired && !t.heat, t.temp > t.desired && t.heat;
                 if t.temp == t.snapshot then t
                 else if on then t.(snapshot := t.temp, heat := true, losses := 0)
                 else if off then t.(snapshot := t.temp, heat := false)
                 else t.(snapshot := t.temp)
  {
    ys, u := Then(s, xs, t, LoadTemp);
    ys, u := Then(s, ys, u, SetHeat);
  }

  /** One loss, once it is due, and a poll of the display. */
  lemma ThenLoss(s: State, xs: seq<Action>, t: State, at: nat) returns (ys: seq<Action>, u: State)
    requires Leads(s, xs, t) && t.view.None? && t.snapshot == t.temp && -0x8000 < t.temp <= t.desired <= 0x7FFF
    requires t.heat && t.losses < 2 && t.clock <= at && t.lossSnap + PERIOD < at
    ensures Leads(s, ys, u)
    ensures u == t.(temp := t.temp - 1, snapshot := t.temp - 1, lossDue := false, lossSnap := at, clock := at,
                    losses := t.losses + 1)
  {
    NoWrap(t.temp - 1);
    ys, u := xs, t;
    if !t.lossDue {
      ys, u := Then(s, ys, u, CheckLoss(at));
    }
    ys, u := Then(s, ys, u, SubLoss(at));
    ys, u := ThenShow(s, ys, u);
  }

  // ---------- the exact condition ----------

  ghost predicate StaysInBand(s: State) {
    forall actions :: DisciplinedRun(s, actions) ==> Run(s, actions).Some? && InBand(Run(s, actions).value)
  }

  /** Below the safe height, the losses still allowed leave the band. */
  lemma {:induction false} TooLowLeavesBand(s: State, xs: seq<Action>, t: State)
    returns (actions: seq<Action>, u: State)
    requires Leads(s, xs, t) && Representable(t.desired) && Synced(t) && t.heat && t.losses <= 2
    requires InBand(t) && t.temp + t.losses < t.desired - 1
    ensures Leads(s, actions, u) && !InBand(u)
    decreases 2 - t.losses
  {
    actions, u := ThenLoss(s, xs, t, t.clock + t.lossSnap + PERIOD + 1);
    if InBand(u) {
      actions, u := TooLowLeavesBand(s, actions, u);
    }
  }

  lemma TooHighLeavesBand(s: State) returns (actions: seq<Action>, u: State)
    requires Representable(s.desired) && Synced(s) && InBand(s) && s.heater.Due? && s.temp > s.desired
    ensures Leads(s, actions, u) && !InBand(u)
  {
    if s.temp + 3 <= 0x7FFF {
      NoWrap(s.temp + 3);
    }
    actions, u := Then(s, [], s, AddHeat(s.clock));
  }

  /** A heater that has loaded the switch when it was safe to, and whose time may be up. */
  lemma TooWarmLeavesBand(s: State) returns (actions: seq<Action>, u: State)
    requires Representable(s.desired) && Synced(s) && InBand(s) && !HeaterOk(s)
    ensures Leads(s, actions, u) && !InBand(u)
  {
    if s.heater.Due? {
      actions, u := TooHighLeavesBand(s);
    } else {
      var t;
      actions, t := Then(s, [], s, CheckHeater(s.clock + s.heatSnap + PERIOD));
      var more;
      more, u := TooHighLeavesBand(t);
      RunConcat(s, actions, t, more, u);
      actions := actions + more;
    }
  }

  /** The exact condition: once the display has acted within the band, the band is kept
      in every disciplined run if and only if the heater is off or the losses still allowed
      cannot take the temperature below it, and a heater about to add, or that may become
      so, does not find it above the desired value. */
  lemma BandKeptIff(s: State)
    requires Representable(s.desired) && Synced(s) && InBand(s) && (s.heat ==> s.losses <= 2)
    ensures StaysInBand(s) <==> (!s.heat || s.temp + s.losses >= s.desired - 1) && HeaterOk(s)
  {
    if !HeaterOk(s) {
      var actions, t := TooWarmLeavesBand(s);
      assert DisciplinedRun(s, actions);
    } else if s.heat && s.temp + s.losses < s.desired - 1 {
      var actions, t := TooLowLeavesBand(s, [], s);
      assert DisciplinedRun(s, actions);
    } else {
      forall actions | DisciplinedRun(s, actions)
        ensures Run(s, actions).Some? && InBand(Run(s, actions).value)
      {
        SafeForever(s, actions);
      }
    }
  }

  // ---------- convergence ----------

  /** Heating up from `low`: each tick has gained at least one unit. */
  predicate Climbing(s: State, low: int, ticks: nat) {
    && Representable(s.desired) && -0x8000 + 2 <= low && ViewOk(s)
    && s.heat && s.losses <= 2 && ticks <= s.ticks
    && s.temp + s.losses >= low + (s.ticks - ticks)
    && s.temp + s.losses < s.desired - 1
  }

  lemma ClimbStep(s: State, a: Action, low: int, ticks: nat)
    requires Climbing(s, low, ticks) && Disciplined(s, a)
    ensures Climbing(Step(s, a).value, low, ticks) || Safe(Step(s, a).value)
  {
    NoWrap(s.temp + 3);
    if a.SubLoss? {
      NoWrap(s.temp - 1);
    }
  }

  lemma {:induction false} ClimbRun(s: State, actions: seq<Action>, low: int, ticks: nat)
    requires Climbing(s, low, ticks) && DisciplinedRun(s, actions)
    ensures Run(s, actions).Some? && Run(s, actions).value.desired == s.desired
    ensures Climbing(Run(s, actions).value, low, ticks) || Safe(Run(s, actions).value)
    decreases |actions|
  {
    if actions != [] {
      var s1 := Step(s, actions[0]).value;
      ClimbStep(s, actions[0], low, ticks);
      if Safe(s1) {
        SafeForever(s1, actions[1..]);
      } else {
        ClimbRun(s1, actions[1..], low, ticks);
      }
    }
  }

  /** From any lower start with the heater on, a disciplined run is in the safe band
      once it contains as many heater ticks as the initial gap; the temperature never
      wraps around on the way. */
  lemma BandReached(s: State, actions: seq<Action>)
    requires Representable(s.desired) && Synced(s) && s.heat && s.losses <= 2
    requires -0x8000 + 2 <= s.temp + s.losses < s.desired - 1
    requires DisciplinedRun(s, actions)
    ensures var t := Run(s, actions);
            && t.Some?
            && (t.value.ticks - s.ticks >= s.desired - 1 - (s.temp + s.losses) ==> Safe(t.value) && InBand(t.value))
            && s.temp + s.losses - 2 <= t.value.temp <= s.desired + 3
  {
    ClimbRun(s, actions, s.temp + s.losses, s.ticks);
    var t := Run(s, actions).value;
    if Safe(t) {
      SafeForever(t, []);
    }
  }

  /** Nothing but at most one loss has happened since the source's start. */
  predicate Cold(s: State) {
    && s.desired == 2100 && !s.heat && s.ticks == 0 && s.heater.Idle? && s.snapshot == 2090
    && (s.temp == 2090 || s.temp == 2089) && ViewOk(s)
  }

  lemma ColdStep(s: State, a: Action)
    requires Cold(s) && Disciplined(s, a)
    ensures Cold(Step(s, a).value) || Climbing(Step(s, a).value, 2089, 0)
  {
    NoWrap(2089);
  }

  lemma {:induction false} FromColdStart(s: State, actions: seq<Action>)
    requires Cold(s) && DisciplinedRun(s, actions)
    ensures var t := Run(s, actions);
            && t.Some?
            && 2087 <= t.value.temp <= 2103
            && (t.value.ticks >= 10 ==> InBand(t.value))
    decreases |actions|
  {
    if actions != [] {
      var s1 := Step(s, actions[0]).value;
      ColdStep(s, actions[0]);
      if Cold(s1) {
        FromColdStart(s1, actions[1..]);
      } else {
        ClimbRun(s1, actions[1..], 2089, 0);
        var t := Run(s1, actions[1..]).value;
        if Safe(t) {
          SafeForever(t, []);
        }
      }
    }
  }

  /** From the source's start, whatever the order and timing of the polls in a
      disciplined run: the temperature stays between 2087 and 2103, and after ten
      heater ticks at the latest it is within 3 of the desired value. */
  lemma BandFromStart(actions: seq<Action>)
    requires DisciplinedRun(START, actions)
    ensures var t := Run(START, actions);
            && t.Some?
            && 2087 <= t.value.temp <= 2103
            && (t.value.ticks >= 10 ==> InBand(t.value))
  {
    FromColdStart(START, actions);
  }

  // ---------- runs from the source's start that leave the band ----------

  /** The state just after a tick at time `at`, with the display up to date. */
  predicate AfterTick(s: State, temp: int, at: nat) {
    && s == State(temp, 2100, true, None, temp, Idle, at, false, s.lossSnap, at, at, 0, s.ticks)
    && s.lossSnap <= at
  }

  /** The heater's poll in which the time is up, and a poll of the display. */
  lemma ThenTick(s: State, xs: seq<Action>, t: State, at: nat) returns (ys: seq<Action>, u: State)
    requires Leads(s, xs, t) && t.view.None? && t.heater.Idle?
    requires t.heat && t.snapshot == t.temp && 0 < t.temp && t.temp + 3 <= t.desired <= 0x7FFF
    requires t.clock <= at && t.heatSnap + PERIOD <= at
    ensures Leads(s, ys, u)
    ensures u == t.(temp := t.temp + 3, snapshot := t.temp + 3, heatSnap := at, clock := at, polled := at,
                    losses := 0, ticks := t.ticks + 1)
  {
    NoWrap(t.temp + 3);
    ys, u := Then(s, xs, t, LoadHeat(at));
    ys, u := Then(s, ys, u, CheckHeater(at));
    ys, u := Then(s, ys, u, AddHeat(at));
    ys, u := ThenShow(s, ys, u);
  }

  /** Two losses and a tick: one unit gained in about six seconds. */
  lemma SlowCycle(s: State, xs: seq<Action>, t: State, temp: int, at: nat) returns (ys: seq<Action>, u: State)
    requires Leads(s, xs, t) && AfterTick(t, temp, at) && 2000 <= temp < 2100
    ensures Leads(s, ys, u) && AfterTick(u, temp + 1, at + 6003)
  {
    ys, u := ThenLoss(s, xs, t, at + 3001);
    ys, u := ThenLoss(s, ys, u, at + 6002);
    ys, u := ThenTick(s, ys, u, at + 6003);
  }

  lemma FirstTick() returns (actions: seq<Action>, s: State)
    ensures Leads(START, actions, s) && AfterTick(s, 2090, 9004)
  {
    NoWrap(2089);
    actions, s := Then(START, [], START, CheckLoss(3001));
    actions, s := Then(START, actions, s, SubLoss(3001));
    actions, s := ThenShow(START, actions, s);
    actions, s := ThenLoss(START, actions, s, 6002);
    actions, s := ThenLoss(START, actions, s, 9003);
    actions, s := ThenTick(START, actions, s, 9004);
  }

  lemma {:induction false} SlowClimb(n: nat) returns (actions: seq<Action>, s: State)
    requires n <= 9
    ensures Leads(START, actions, s) && AfterTick(s, 2090 + n, 9004 + 6003 * n)
  {
    if n == 0 {
      actions, s := FirstTick();
    } else {
      actions, s := SlowClimb(n - 1);
      actions, s := SlowCycle(START, actions, s, 2090 + n - 1, 9004 + 6003 * (n - 1));
    }
  }

  /** From the source's own start, a disciplined run reaches a state within three units
      of the desired temperature on which the display has acted, and then leaves the band. */
  lemma BandIsLeft() returns (actions: seq<Action>, s: State, more: seq<Action>, t: State)
    ensures Leads(START, actions, s) && Synced(s) && InBand(s) && s.temp == 2097
    ensures Leads(s, more, t) && !InBand(t)
  {
    actions, s := SlowClimb(7);
    more, t := TooLowLeavesBand(s, [], s);
  }

  /** A run in which the display is polled between any two changes, and no more. */
  ghost predicate ShownLeads(s: State, actions: seq<Action>, t: State) {
    ShownRun(s, actions) && Run(s, actions) == Some(t)
  }

  lemma {:induction false} ShownThen(s: State, xs: seq<Action>, t: State, a: Action) returns (ys: seq<Action>, u: State)
    requires ShownLeads(s, xs, t) && Shown(t, a)
    ensures ShownLeads(s, ys, u) && Step(t, a) == Some(u) && ys == xs + [a]
    decreases |xs|
  {
    u := Step(t, a).value;
    ys := xs + [a];
    if xs == [] {
      assert ys == [a] && [a][1..] == [];
    } else {
      var rest, v := ShownThen(Step(s, xs[0]).value, xs[1..], t, a);
      assert ys[1..] == xs[1..] + [a];
    }
  }

  /** A tick takes the temperature above the desired value; before the display has acted
      the heater loads the switch again. */
  lemma SecondLoad(s: State, at: nat) returns (actions: seq<Action>, t: State)
    requires AfterTick(s, 2099, at)
    ensures ShownLeads(s, actions, t)
    ensures t == s.(temp := 2102, heater := Due, heatSnap := at + 3000, clock := at + 6000, polled := at + 3000,
                    ticks := s.ticks + 1)
  {
    NoWrap(2102);
    actions, t := ShownThen(s, [], s, LoadHeat(at + 3000));
    actions, t := ShownThen(s, actions, t, CheckHeater(at + 3000));
    actions, t := ShownThen(s, actions, t, AddHeat(at + 3000));
    actions, t := ShownThen(s, actions, t, LoadHeat(at + 6000));
    actions, t := ShownThen(s, actions, t, CheckHeater(at + 6000));
  }

  /** Polling the display between any two changes is not enough even from a safe state,
      one that the source's start reaches: the heater may have loaded the switch before the
      display turns it off, and add three units after that. */
  lemma LateAddLeavesBand() returns (actions: seq<Action>, s: State, more: seq<Action>, t: State)
    ensures Leads(START, actions, s) && Synced(s) && Safe(s)
    ensures ShownLeads(s, more, t) && t.temp == s.desired + 5 && !DisciplinedRun(s, more)
  {
    actions, s := SlowClimb(9);
    more, t := SecondLoad(s, 9004 + 6003 * 9);
    NoWrap(2105);
    more, t := ShownThen(s, more, t, LoadTemp);
    more, t := ShownThen(s, more, t, SetHeat);
    more, t := ShownThen(s, more, t, AddHeat(t.clock));
    if DisciplinedRun(s, more) {
      SafeForever(s, more);
    }
  }

  // ---------- where the bound on losses comes from ----------

  /** Heat losses are more than three seconds apart, so the third one after a tick
      would come more than six seconds after it. */
  predicate Timed(s: State) {
    && s.heatSnap <= s.clock && s.lossSnap <= s.clock && s.polled < s.heatSnap + PERIOD
    && (s.lossDue ==> s.clock > s.lossSnap + PERIOD)
    && (s.heat ==> s.losses <= 2)
    && (s.heat && s.losses >= 1 ==> s.lossSnap >= s.heatSnap)
    && (s.heat && s.losses >= 2 ==> s.lossSnap > s.heatSnap + PERIOD)
  }

  /** Disciplined, except that instead of the bound on losses the heater's last complete
      poll is at most three seconds ago at every loss. */
  predicate Timely(s: State, a: Action) {
    && Step(s, a).Some?
    && (a.AddHeat? || a.SubLoss? ==> s.snapshot == s.temp)
    && (a.SubLoss? ==> a.later <= s.polled + PERIOD)
    && (a.CheckHeater? && TimeIsUp(s, a.now) ==> s.heater.shown)
  }

  predicate TimelyRun(s: State, actions: seq<Action>)
    decreases |actions|
  {
    actions == [] || (Timely(s, actions[0]) && TimelyRun(Step(s, actions[0]).value, actions[1..]))
  }

  /** Polling the heater every three seconds gives the bound of two losses per tick:
      a timely run is a disciplined run. */
  lemma {:induction false} TimelyIsDisciplined(s: State, actions: seq<Action>)
    requires Timed(s) && TimelyRun(s, actions)
    ensures DisciplinedRun(s, actions)
    decreases |actions|
  {
    if actions != [] {
      assert Disciplined(s, actions[0]) && Timed(Step(s, actions[0]).value);
      TimelyIsDisciplined(Step(s, actions[0]).value, actions[1..]);
    }
  }

  // ---------- how often the temperature changes ----------

  function Count(actions: seq<Action>, adds: bool): nat
    decreases |actions|
  {
    if actions == [] then 0
    else One(if adds then actions[0].AddHeat? else actions[0].SubLoss?) + Count(actions[1..], adds)
  }

  /** A poller about to change the temperature has waited; `adds` and `subs` changes so far
      have taken their time. */
  predicate Paced(s: State, adds: nat, subs: nat) {
    && (s.heater.Due? ==> s.clock >= s.heatSnap + 3000) && s.heatSnap <= s.clock && 3000 * adds <= s.heatSnap
    && (s.lossDue ==> s.clock > s.lossSnap + 3000) && s.lossSnap <= s.clock && 3001 * subs <= s.lossSnap
  }

  lemma PacedStep(s: State, a: Action, adds: nat, subs: nat)
    requires Paced(s, adds, subs) && Step(s, a).Some?
    ensures Paced(Step(s, a).value, adds + One(a.AddHeat?), subs + One(a.SubLoss?))
  {
  }

  /** The temperature is what the changes make it, on a ring of 2^16. */
  predicate Sums(temp: int, t: State, adds: nat, subs: nat) { t.temp == Wrap16(temp + 3 * adds - subs) }

  lemma SumsStep(temp: int, s: State, a: Action, adds: nat, subs: nat)
    requires Sums(temp, s, adds, subs) && Step(s, a).Some?
    ensures Sums(temp, Step(s, a).value, adds + One(a.AddHeat?), subs + One(a.SubLoss?))
  {
  }

  lemma {:induction false} PacedRun(temp: int, s: State, actions: seq<Action>, adds: nat, subs: nat)
    requires Paced(s, adds, subs) && Sums(temp, s, adds, subs) && Run(s, actions).Some?
    ensures Paced(Run(s, actions).value, adds + Count(actions, true), subs + Count(actions, false))
    ensures Sums(temp, Run(s, actions).value, adds + Count(actions, true), subs + Count(actions, false))
    decreases |actions|
  {
    if actions != [] {
      var a := actions[0];
      PacedStep(s, a, adds, subs);
      SumsStep(temp, s, a, adds, subs);
      PacedRun(temp, Step(s, a).value, actions[1..], adds + One(a.AddHeat?), subs + One(a.SubLoss?));
    }
  }

  /** In every run, whatever the interleaving, each gain of three units takes at least three
      seconds and each loss of one more than three; and there is no other change. */
  lemma ChangesAreSpaced(temp: int, desired: int, heat: bool, actions: seq<Action>, t: State)
    requires Run(AtRest(temp, desired, heat), actions) == Some(t) && -0x8000 <= temp < 0x8000
    ensures 3000 * Count(actions, true) <= t.clock && 3001 * Count(actions, false) <= t.clock
    ensures t.temp == Wrap16(temp + 3 * Count(actions, true) - Count(actions, false))
  {
    PacedRun(temp, AtRest(temp, desired, heat), actions, 0, 0);
  }
}
