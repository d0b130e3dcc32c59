/** The pollers as the source writes them, over the shared atomics. Each poll is written as
    its steps, which those of the other pollers may come between. */
module Thermostat {
  import opened Options
  import opened ThermostatModel
  import opened ThermostatTheorems

  class Thermo {
    var temp: int
    const desired: int
    var heat: bool
    var view: Option<int>
    var snapshot: int
    var heater: Heating
    var heatSnap: nat
    var lossDue: bool
    var lossSnap: nat
    ghost var clock: nat
    ghost var polled: nat
    ghost var losses: nat
    ghost var ticks: nat

    ghost function View(): State
      reads this
    {
      State(temp, desired, heat, view, snapshot, heater, heatSnap, lossDue, lossSnap, clock, polled, losses, ticks)
    }

    constructor (temp: int, desired: int)
      ensures View() == AtRest(temp, desired, false)
    {
      this.temp, this.desired, heat, view, snapshot := temp, desired, false, None, temp;
      heater, heatSnap, lossDue, lossSnap := Idle, 0, false, 0;
      clock, polled, losses, ticks := 0, 0, 0, 0;
    }

    // ---------- the display ----------

    method LoadTemp()
      requires view.None?
      modifies this`view
      ensures Some(View()) == Step(old(View()), Action.LoadTemp)
    {
      view := Some(temp);
    }

    method SetHeat()
      requires view.Some?
      modifies this`view, this`snapshot, this`heat, this`losses
      ensures Some(View()) == Step(old(View()), Action.SetHeat)
    {
      var current := view.value;
      view := None;
      if current == snapshot {
        return;
      }
      if current < desired && !heat {
        heat := true;
        losses := 0;
      } else if current > desired && heat {
        heat := false;
      }
      snapshot := current;
    }

    /** A whole poll without interruption: afterwards the display has acted. */
    method DisplayPoll()
      requires view.None?
      modifies this`view, this`snapshot, this`heat, this`losses
      ensures Some(View()) == Run(old(View()), [Action.LoadTemp, Action.SetHeat])
      ensures view.None? && snapshot == temp
      ensures old(snapshot) != temp ==> Synced(View())
      ensures heat == if temp == old(snapshot) || temp == desired then old(heat) else temp < desired
    {
      assert [Action.LoadTemp, Action.SetHeat][1..] == [Action.SetHeat] && [Action.SetHeat][1..] == [];
      LoadTemp();
      SetHeat();
    }

    // ---------- the heater ----------

    method LoadHeat(now: nat)
      requires heater.Idle? && clock <= now
      modifies this`heater, this`heatSnap, this`clock, this`polled
      ensures Some(View()) == Step(old(View()), Action.LoadHeat(now))
    {
      clock := now;
      if !heat {
        heatSnap, polled := now, now;
      } else {
        heater := Loaded(snapshot == temp);
      }
    }

    method CheckHeater(now: nat)
      requires heater.Loaded? && clock <= now
      modifies this`heater, this`clock, this`polled
      ensures Some(View()) == Step(old(View()), Action.CheckHeater(now))
    {
      clock := now;
      if now < heatSnap + PERIOD {
        heater, polled := Idle, now;
      } else {
        heater := Due;
      }
    }

    method AddHeat(later: nat)
      requires heater.Due? && clock <= later
      modifies this`temp, this`heater, this`heatSnap, this`clock, this`polled, this`losses, this`ticks
      ensures Some(View()) == Step(old(View()), Action.AddHeat(later))
    {
      temp := Wrap16(temp + 3);
      heatSnap := later;
      heater, clock, polled := Idle, later, later;
      losses, ticks := 0, ticks + 1;
    }

    /** A whole poll without interruption: three units, once three seconds of heating
        have passed since the last time the heater was off or added. */
    method HeaterPoll(now: nat, later: nat)
      requires heater.Idle? && clock <= now <= later
      modifies this
      ensures heater.Idle? && heat == old(heat) && snapshot == old(snapshot)
      ensures var up := old(heat) && now - old(heatSnap) >= 3000;
              && temp == (if up then Wrap16(old(temp) + 3) else old(temp))
              && heatSnap == (if up then later else if old(heat) then old(heatSnap) else now)
              && ticks == (if up then old(ticks) + 1 else old(ticks))
    {
      LoadHeat(now);
      if heater.Loaded? {
        CheckHeater(now);
        if heater.Due? {
          AddHeat(later);
        }
      }
    }

    // ---------- the heat loss ----------

    method CheckLoss(now: nat)
      requires !lossDue && clock <= now
      modifies this`lossDue, this`clock
      ensures Some(View()) == Step(old(View()), Action.CheckLoss(now))
    {
      clock := now;
      lossDue := now > lossSnap + PERIOD;
    }

    method SubLoss(later: nat)
      requires lossDue && clock <= later
      modifies this`temp, this`lossDue, this`lossSnap, this`clock, this`losses
      ensures Some(View()) == Step(old(View()), Action.SubLoss(later))
    {
      temp := Wrap16(temp - 1);
      lossDue, lossSnap, clock := false, later, later;
      losses := losses + 1;
    }

    /** A whole poll without interruption: one unit, once more than three seconds have passed. */
    method HeatLossPoll(now: nat, later: nat)
      requires !lossDue && clock <= now <= later
      modifies this`temp, this`lossDue, this`lossSnap, this`clock, this`losses
      ensures var up := now - old(lossSnap) > 3000;
              && !lossDue && temp == (if up then Wrap16(old(temp) - 1) else old(temp))
              && lossSnap == (if up then later else old(lossSnap))
    {
      CheckLoss(now);
      if lossDue {
        SubLoss(later);
      }
    }

    // ---------- all three ----------

    method Perform(a: Action)
      requires Step(View(), a).Some?
      modifies this
      ensures Some(View()) == Step(old(View()), a)
    {
      match a
      case LoadTemp => LoadTemp();
      case SetHeat => SetHeat();
      case LoadHeat(now) => LoadHeat(now);
      case CheckHeater(now) => CheckHeater(now);
      case AddHeat(later) => AddHeat(later);
      case CheckLoss(now) => CheckLoss(now);
      case SubLoss(later) => SubLoss(later);
    }

    /** The three pollers, polled in any order and at any times, their steps interleaved. If
        the order is disciplined the temperature stays in the band from a safe state on;
        from the source's start it stays near the band and is inside it after ten heater
        ticks. */
    method Serve(steps: seq<Action>)
      requires DisciplinedRun(View(), steps)
      modifies this
      ensures Run(old(View()), steps) == Some(View())
      ensures old(Safe(View())) ==> Safe(View()) && InBand(View())
      ensures old(View()) == START ==> 2087 <= temp <= 2103 && (ticks >= 10 ==> InBand(View()))
    {
      for i := 0 to |steps|
        invariant DisciplinedRun(View(), steps[i..])
        invariant Run(View(), steps[i..]) == Run(old(View()), steps)
      {
        assert steps[i..][0] == steps[i] && steps[i..][1..] == steps[i + 1..];
        Perform(steps[i]);
      }
      if old(Safe(View())) {
        SafeForever(old(View()), steps);
      }
      if old(View()) == START {
        BandFromStart(steps);
      }
    }
  }
}
