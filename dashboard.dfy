/** The dashboard script as it runs: one object holding the vehicleState
    fields, the `active` class of the two indicator icons, the three looping
    audio elements, the log of one-shot cues, the pending startup timers and
    the displayed read-outs and icons. Every setter updates these fields step
    by step, as the script does, and is proved to leave exactly the record
    that the matching function of module Reconciler computes, so everything
    module HudProperties proves about those functions (the invariant Valid
    names, the hysteresis, the ignition facts) holds of the object. */
module VehicleHud {
  import opened Presentation
  import opened Warnings
  import Reconciler
  import HudProperties

  class Dashboard {
    // vehicleState
    var engineOn: bool
    var hasMoved: bool
    var isMotorcycle: bool
    var engineHealth: real
    var storedHealthValue: real
    var storedFuelValue: real
    var seatbeltBuckled: bool
    var played: Played
    // the `active` class of the indicator icons
    var leftActive: bool
    var rightActive: bool
    // audio elements, the cues played and the timers not yet elapsed
    var tick: Reconciler.Loop
    var seatbeltWarning: Reconciler.Loop
    var alarm: Reconciler.Loop
    var cues: seq<Cue>
    var pending: seq<Timer>
    // what the page shows
    var gauges: Reconciler.Gauges
    var icons: Reconciler.Icons

    /** The dashboard as a value. */
    function Snapshot(): (s: Reconciler.Hud)
      reads this
    {
      Reconciler.Hud(
        Reconciler.Vehicle(engineOn, hasMoved, isMotorcycle, engineHealth, storedHealthValue,
                           storedFuelValue, seatbeltBuckled,
                           played,
                           leftActive, rightActive),
        Reconciler.Audio(tick, seatbeltWarning, alarm, cues, pending),
        gauges, icons)
    }

    ghost predicate Valid()
      reads this
    {
      HudProperties.Inv(Snapshot())
    }

    /** The state after page load. */
    constructor()
      ensures Snapshot() == Reconciler.Init()
      ensures Valid()
    {
      engineOn, hasMoved, isMotorcycle := false, false, true;
      engineHealth, storedHealthValue, storedFuelValue := 1.0, 1.0, 1.0;
      seatbeltBuckled := false;
      played := NonePlayed;
      leftActive, rightActive := false, false;
      tick, seatbeltWarning, alarm := Reconciler.Silent, Reconciler.Silent, Reconciler.Silent;
      cues, pending := [], [];
      gauges := Reconciler.Gauges(N, false, 0, White, Dark, Dark, Blank);
      icons := Reconciler.Icons(Dark, Dark, Reconciler.BeltGrey, true, false, false, LampOff, LampOff);
      HudProperties.InitInv();
    }

    method ManageLoopingAudio(id: Reconciler.LoopId, shouldPlay: bool)
      modifies this`tick, this`seatbeltWarning, this`alarm
      ensures Snapshot() == old(Snapshot()).(audio := Reconciler.ManageLoopingAudio(old(Snapshot()).audio, id, shouldPlay))
    {
      var el := match id
        case Tick => tick
        case SeatbeltWarning => seatbeltWarning
        case Alarm => alarm;
      if shouldPlay {
        if el.paused {
          el := Reconciler.Loop(false, el.starts + 1);
        }
      } else {
        if !el.paused {
          el := Reconciler.Loop(true, el.starts);
        }
      }
      match id
      case Tick => tick := el;
      case SeatbeltWarning => seatbeltWarning := el;
      case Alarm => alarm := el;
    }

    method PlayOnceAudio(c: Cue)
      modifies this`cues
      ensures cues == old(cues) + [c]
    {
      cues := cues + [c];
    }

    /** One play-once block of updateEngineIcon/updateFuelIcon. */
    method PlayOnceCheck(c: Cue, pct: real)
      modifies this`cues, this`played
      ensures Snapshot() == Reconciler.PlayOnce(old(Snapshot()), c, pct)
    {
      if pct <= Threshold(c) && !IsPlayed(played, c) && seatbeltBuckled {
        PlayOnceAudio(c);
        played := MarkPlayed(played, c);
      }
    }

    /** One reset block: the latch clears once the metric has recovered. */
    method Rearm(c: Cue, pct: real)
      modifies this`played
      ensures Snapshot() == Reconciler.Rearm(old(Snapshot()), c, pct)
    {
      if pct > Threshold(c) {
        played := ClearPlayed(played, c);
      }
    }

    method UpdateEngineIcon()
      modifies this`icons, this`cues, this`played
      ensures Snapshot() == Reconciler.UpdateEngineIcon(old(Snapshot()))
    {
      if !engineOn {
        icons := icons.(engineIcon := Dark);
        return;
      }
      var healthPercentage := engineHealth * 100.0;
      PlayOnceCheck(Warn1, healthPercentage);
      PlayOnceCheck(Warn2, healthPercentage);
      Rearm(Warn1, healthPercentage);
      Rearm(Warn2, healthPercentage);
      icons := icons.(engineIcon := TierFor(true, healthPercentage));
    }

    method UpdateFuelIcon(fuelPercentage: real)
      modifies this`icons, this`cues, this`played
      ensures Snapshot() == Reconciler.UpdateFuelIcon(old(Snapshot()), fuelPercentage)
    {
      if !engineOn {
        icons := icons.(fuelIcon := Dark);
        return;
      }
      PlayOnceCheck(Fuel50, fuelPercentage);
      PlayOnceCheck(Fuel10, fuelPercentage);
      Rearm(Fuel50, fuelPercentage);
      Rearm(Fuel10, fuelPercentage);
      icons := icons.(fuelIcon := TierFor(true, fuelPercentage));
    }

    method SetHealth(val: real)
      modifies this`storedHealthValue, this`engineHealth, this`gauges, this`icons, this`cues, this`played
      ensures Snapshot() == Reconciler.SetHealth(old(Snapshot()), val)
      ensures old(Valid()) ==> Valid()
    {
      ghost var h0 := Snapshot();
      if Valid() {
        HudProperties.HealthKeepsInv(h0, val);
      }
      var p := Clamp01(val);
      var percentage := p * 100.0;
      storedHealthValue := p;
      engineHealth := p;
      gauges := gauges.(healthBar := TierFor(engineOn, percentage));
      assert Snapshot() == Reconciler.Hud(h0.v.(storedHealth := p, engineHealth := p), h0.audio,
                                          h0.gauges.(healthBar := TierFor(h0.v.engineOn, percentage)), h0.icons);
      UpdateEngineIcon();
    }

    method SetFuel(val: real)
      modifies this`storedFuelValue, this`gauges, this`icons, this`cues, this`played
      ensures Snapshot() == Reconciler.SetFuel(old(Snapshot()), val)
      ensures old(Valid()) ==> Valid()
    {
      ghost var h0 := Snapshot();
      if Valid() {
        HudProperties.FuelKeepsInv(h0, val);
      }
      var p := Clamp01(val);
      var percentage := p * 100.0;
      storedFuelValue := p;
      gauges := gauges.(fuelBar := TierFor(engineOn, percentage));
      assert Snapshot() == Reconciler.Hud(h0.v.(storedFuel := p), h0.audio,
                                          h0.gauges.(fuelBar := TierFor(h0.v.engineOn, percentage)), h0.icons);
      UpdateFuelIcon(percentage);
    }

    method SetGear(gear: int)
      modifies this`gauges
      ensures Snapshot() == Reconciler.SetGear(old(Snapshot()), gear)
      ensures old(Valid()) ==> Valid()
    {
      ghost var h0 := Snapshot();
      if Valid() {
        HudProperties.GearKeepsInv(h0, gear);
      }
      var gearText;
      if !engineOn {
        gearText := N;
      } else if gear > 0 {
        gearText := Number(gear);
      } else if gear == 0 && hasMoved {
        gearText := R;
      } else {
        gearText := N;
      }
      gauges := gauges.(gearText := gearText, gearReverse := gearText == R);
    }

    /** setSpeed, given the rounded display value. */
    method SetSpeed(val: nat)
      modifies this`gauges, this`hasMoved
      ensures Snapshot() == Reconciler.SetSpeed(old(Snapshot()), val)
      ensures old(Valid()) ==> Valid()
    {
      ghost var h0 := Snapshot();
      if Valid() {
        HudProperties.SpeedKeepsInv(h0, val);
      }
      gauges := gauges.(speedText := val);
      if val > 0 {
        hasMoved := true;
      }
      gauges := gauges.(speedColour := SpeedColourFor(engineOn, val));
    }

    method SetRPM(rpm: real)
      modifies this`gauges
      ensures Snapshot() == Reconciler.SetRPM(old(Snapshot()), rpm)
      ensures old(Valid()) ==> Valid()
    {
      ghost var h0 := Snapshot();
      if Valid() {
        HudProperties.RpmKeepsInv(h0, rpm);
      }
      gauges := gauges.(rpm := RpmBoxFor(rpm));
    }

    method SetSeatbelts(isBuckled: bool)
      modifies this`seatbeltBuckled, this`icons, this`tick, this`seatbeltWarning, this`alarm
      ensures Snapshot() == Reconciler.SetSeatbelts(old(Snapshot()), isBuckled)
      ensures old(Valid()) ==> Valid()
    {
      ghost var h0 := Snapshot();
      if Valid() {
        HudProperties.SeatbeltsKeepInv(h0, isBuckled);
      }
      if isMotorcycle {
        ManageLoopingAudio(Reconciler.SeatbeltWarning, false);
      } else {
        seatbeltBuckled := isBuckled;
        icons := icons.(seatbeltIcon := if !engineOn then Reconciler.BeltGrey
                                        else if isBuckled then Reconciler.BeltGreen
                                        else Reconciler.BeltFlashing);
        var shouldPlaySeatbeltWarning := !isBuckled && engineOn;
        ManageLoopingAudio(Reconciler.SeatbeltWarning, shouldPlaySeatbeltWarning);
        ManageLoopingAudio(Reconciler.Alarm, shouldPlaySeatbeltWarning);
      }
    }

    method SetVehicleType(kind: string)
      modifies this`isMotorcycle, this`icons, this`tick, this`seatbeltWarning, this`alarm
      requires Valid()
      ensures Snapshot() == Reconciler.SetVehicleType(old(Snapshot()), kind)
      ensures Valid()
    {
      ghost var h0 := Snapshot();
      HudProperties.ApplyKeepsInv(h0, HudProperties.VehicleType(kind));
      assert HudProperties.Apply(h0, HudProperties.VehicleType(kind)) == Reconciler.SetVehicleType(h0, kind);
      isMotorcycle := kind == "motorcycle";
      if isMotorcycle {
        icons := icons.(seatbeltShown := false);
        ManageLoopingAudio(Reconciler.SeatbeltWarning, false);
        ManageLoopingAudio(Reconciler.Alarm, false);
      } else {
        icons := icons.(seatbeltShown := true);
      }
    }

    /** playStartupWarnings: the due cues are scheduled with a delay that
        grows by one interval after each of the first three. */
    method PlayStartupWarnings()
      modifies this`pending
      ensures Snapshot() == Reconciler.PlayStartupWarnings(old(Snapshot()))
    {
      var healthPercentage := engineHealth * 100.0;
      var fuelPercentage := storedFuelValue * 100.0;
      var timers := pending;
      var delay: nat := 0;
      if healthPercentage <= 50.0 && !played.warn1 {
        timers := timers + [Timer(delay, Warn1)];
        delay := delay + Interval;
      }
      if healthPercentage <= 20.0 && !played.warn2 {
        timers := timers + [Timer(delay, Warn2)];
        delay := delay + Interval;
      }
      if fuelPercentage <= 50.0 && !played.fuel50 {
        timers := timers + [Timer(delay, Fuel50)];
        delay := delay + Interval;
      }
      if fuelPercentage <= 10.0 && !played.fuel10 {
        timers := timers + [Timer(delay, Fuel10)];
      }
      pending := timers;
    }

    /** The callback of the i-th pending timer. */
    method FireTimer(i: nat)
      requires i < |pending|
      modifies this
      ensures Snapshot() == Reconciler.FireTimer(old(Snapshot()), i)
    {
      var t := pending[i];
      pending := pending[..i] + pending[i + 1..];
      PlayOnceAudio(t.cue);
      match t.cue
      case Warn1 => played := played.(warn1 := true);
      case Warn2 => played := played.(warn2 := true);
      case Fuel50 => played := played.(fuel50 := true);
      case Fuel10 => played := played.(fuel10 := true);
    }

    method ToggleIcon(side: Reconciler.Side, state: bool)
      modifies this`leftActive, this`rightActive
      ensures Snapshot() == Reconciler.ToggleIcon(old(Snapshot()), side, state)
    {
      match side
      case Left => leftActive := state;
      case Right => rightActive := state;
    }

    method UpdateIndicators()
      modifies this`icons, this`tick, this`seatbeltWarning, this`alarm
      ensures Snapshot() == Reconciler.UpdateIndicators(old(Snapshot()))
    {
      var left, right := leftActive, rightActive;
      icons := icons.(leftBlinking := false, rightBlinking := false);
      if left && right {
        icons := icons.(leftBlinking := true, rightBlinking := true);
      } else if left {
        icons := icons.(leftBlinking := true);
      } else if right {
        icons := icons.(rightBlinking := true);
      }
      ManageLoopingAudio(Reconciler.Tick, left || right);
    }

    method SetLeftIndicator(on: bool)
      modifies this`leftActive, this`rightActive, this`icons, this`tick, this`seatbeltWarning, this`alarm
      requires Valid()
      ensures Snapshot() == Reconciler.SetLeftIndicator(old(Snapshot()), on)
      ensures Valid()
    {
      ghost var h0 := Snapshot();
      HudProperties.ApplyKeepsInv(h0, HudProperties.LeftIndicator(on));
      assert HudProperties.Apply(h0, HudProperties.LeftIndicator(on)) == Reconciler.SetLeftIndicator(h0, on);
      ToggleIcon(Reconciler.Left, on);
      UpdateIndicators();
    }

    method SetRightIndicator(on: bool)
      modifies this`leftActive, this`rightActive, this`icons, this`tick, this`seatbeltWarning, this`alarm
      requires Valid()
      ensures Snapshot() == Reconciler.SetRightIndicator(old(Snapshot()), on)
      ensures Valid()
    {
      ghost var h0 := Snapshot();
      HudProperties.ApplyKeepsInv(h0, HudProperties.RightIndicator(on));
      assert HudProperties.Apply(h0, HudProperties.RightIndicator(on)) == Reconciler.SetRightIndicator(h0, on);
      ToggleIcon(Reconciler.Right, on);
      UpdateIndicators();
    }

    method SetHeadlights(level: int)
      modifies this`icons
      requires Valid()
      ensures Snapshot() == Reconciler.SetHeadlights(old(Snapshot()), level)
      ensures Valid()
    {
      ghost var h0 := Snapshot();
      HudProperties.ApplyKeepsInv(h0, HudProperties.HeadlightLevel(level));
      assert HudProperties.Apply(h0, HudProperties.HeadlightLevel(level)) == Reconciler.SetHeadlights(h0, level);
      var lowBeam, highBeam := icons.lowBeam, icons.highBeam;
      if level == 1 {
        lowBeam := LampOn;
        highBeam := highBeam.(opacity := Invisible);
      } else if level == 2 {
        highBeam := LampOn;
        lowBeam := lowBeam.(opacity := Invisible);
      } else {
        lowBeam, highBeam := LampOff, LampOff;
      }
      icons := icons.(lowBeam := lowBeam, highBeam := highBeam);
    }

    /** The engine-off branch of setEngine. */
    method EngineOff()
      requires !engineOn
      modifies this
      ensures Snapshot() == Reconciler.EngineOff(old(Snapshot()))
    {
      hasMoved := false;
      ghost var h0 := Snapshot();
      SetGear(0);
      ghost var h1 := Snapshot();
      assert h1 == Reconciler.SetGear(h0, 0);
      ManageLoopingAudio(Reconciler.SeatbeltWarning, false);
      ManageLoopingAudio(Reconciler.Alarm, false);
      ghost var h2 := Snapshot();
      assert h2 == h1.(audio := Reconciler.StopSeatbeltLoops(h1.audio));
      SetHealth(storedHealthValue);
      ghost var h3 := Snapshot();
      assert h3 == Reconciler.SetHealth(h2, h2.v.storedHealth);
      SetFuel(storedFuelValue);
      ghost var h4 := Snapshot();
      assert h4 == Reconciler.SetFuel(h3, h3.v.storedFuel);
      SetRPM(0.0);
    }

    /** The engine-on branch of setEngine. */
    method EngineOn()
      requires engineOn
      modifies this
      ensures Snapshot() == Reconciler.EngineOn(old(Snapshot()))
    {
      ghost var h0 := Snapshot();
      SetGear(0);
      ghost var g := Snapshot();
      assert g == Reconciler.SetGear(h0, 0);
      played := NonePlayed;
      ghost var h1 := Snapshot();
      assert h1 == g.(v := g.v.(played := NonePlayed));
      SetHealth(storedHealthValue);
      ghost var h2 := Snapshot();
      assert h2 == Reconciler.SetHealth(h1, h1.v.storedHealth);
      SetFuel(storedFuelValue);
      ghost var h3 := Snapshot();
      assert h3 == Reconciler.SetFuel(h2, h2.v.storedFuel);
      StartupChecks();
    }

    /** The end of the engine-on branch. */
    method StartupChecks()
      modifies this
      ensures Snapshot() == Reconciler.StartupChecks(old(Snapshot()))
    {
      if isMotorcycle {
        ManageLoopingAudio(Reconciler.SeatbeltWarning, false);
        ManageLoopingAudio(Reconciler.Alarm, false);
      } else {
        SetSeatbelts(seatbeltBuckled);
      }
      ghost var h4 := Snapshot();
      if seatbeltBuckled {
        PlayStartupWarnings();
        assert Snapshot() == Reconciler.PlayStartupWarnings(h4);
      }
    }

    /** The common tail of setEngine: the engine icon, the indicator icons
        re-toggled to their own state and the displayed speed re-applied. */
    method Refresh()
      modifies this
      ensures Snapshot() == Reconciler.Refresh(old(Snapshot()))
    {
      UpdateEngineIcon();
      ghost var h3 := Snapshot();
      var left, right := leftActive, rightActive;
      ToggleIcon(Reconciler.Left, left);
      ghost var h4 := Snapshot();
      assert h4 == Reconciler.ToggleIcon(h3, Reconciler.Left, h3.v.leftActive);
      ToggleIcon(Reconciler.Right, right);
      ghost var h5 := Snapshot();
      assert h5 == Reconciler.ToggleIcon(h4, Reconciler.Right, h4.v.rightActive);
      SetSpeed(gauges.speedText);
    }

    /** The part of setEngine past its guard: the engine state flips, the
        matching branch runs, then the common tail. */
    method Switch(on: bool)
      modifies this
      requires on != engineOn
      ensures Snapshot() == Reconciler.SetEngine(old(Snapshot()), on)
    {
      engineOn := on;
      ghost var h1 := Snapshot();
      assert h1 == old(Snapshot()).(v := old(Snapshot()).v.(engineOn := on));
      if !on {
        EngineOff();
        assert Snapshot() == Reconciler.EngineOff(h1);
      } else {
        EngineOn();
        assert Snapshot() == Reconciler.EngineOn(h1);
      }
      Refresh();
    }

    /** setEngine: setting the current state does nothing. */
    method SetEngine(on: bool)
      modifies this
      requires Valid()
      ensures Snapshot() == Reconciler.SetEngine(old(Snapshot()), on)
      ensures Valid()
    {
      ghost var h0 := Snapshot();
      HudProperties.ApplyKeepsInv(h0, HudProperties.Engine(on));
      assert HudProperties.Apply(h0, HudProperties.Engine(on)) == Reconciler.SetEngine(h0, on);
      if engineOn == on {
        return;
      }
      Switch(on);
    }
  }
}
