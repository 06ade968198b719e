/** What the reconciler promises over sequences of setter calls: the
    presentation invariant every call keeps, the ignition transitions, the
    warning hysteresis, the gear text, the seatbelt rules on motorcycles, and
    that the deferred startup cues are never scheduled. */
module HudProperties {
  import opened Presentation
  import opened Warnings
  import opened Reconciler

  /** One call of the public setter API. */
  datatype Call =
    | Health(health: real)
    | Fuel(fuel: real)
    | Engine(on: bool)
    | Seatbelts(buckled: bool)
    | VehicleType(kind: string)
    | Gear(gear: int)
    | Speed(speed: nat)
    | Rpm(rpm: real)
    | LeftIndicator(left: bool)
    | RightIndicator(right: bool)
    | HeadlightLevel(level: int)

  function Apply(h: Hud, c: Call): (r: Hud)
  {
    match c
    case Health(v) => SetHealth(h, v)
    case Fuel(v) => SetFuel(h, v)
    case Engine(on) => SetEngine(h, on)
    case Seatbelts(b) => SetSeatbelts(h, b)
    case VehicleType(k) => SetVehicleType(h, k)
    case Gear(g) => SetGear(h, g)
    case Speed(v) => SetSpeed(h, v)
    case Rpm(x) => SetRPM(h, x)
    case LeftIndicator(on) => SetLeftIndicator(h, on)
    case RightIndicator(on) => SetRightIndicator(h, on)
    case HeadlightLevel(l) => SetHeadlights(h, l)
  }

  /** The record after the calls, made in order. */
  function Run(h: Hud, calls: seq<Call>): (r: Hud)
    decreases |calls|
  {
    if calls == [] then h else Run(Apply(h, calls[0]), calls[1..])
  }

  /** What holds between any two setter calls: stored fractions are clamped
      and the engine health is the stored health; bars and icons show the
      tier of the stored values; the speed colour is the band of the shown
      speed, and a nonzero speed has been noted as movement; the reverse class
      is on exactly for "R", which needs the engine on and movement; the
      seatbelt and alarm loops play together and never on a motorcycle; the
      tick plays exactly while an indicator is active, and the blinking icons
      are exactly the active ones. */
  ghost predicate Inv(h: Hud)
  {
    && Settled(h)
    && h.icons.engineIcon == h.gauges.healthBar
    && h.gauges.speedColour == SpeedColourFor(h.v.engineOn, h.gauges.speedText)
    && (h.gauges.speedText > 0 ==> h.v.hasMoved)
  }

  /** The part of the invariant that the common tail of setEngine relies on;
      the tail restores the rest. */
  ghost predicate Settled(h: Hud)
  {
    && 0.0 <= h.v.storedHealth <= 1.0 && 0.0 <= h.v.storedFuel <= 1.0
    && h.v.engineHealth == h.v.storedHealth
    && h.gauges.healthBar == TierFor(h.v.engineOn, h.v.storedHealth * 100.0)
    && h.gauges.fuelBar == TierFor(h.v.engineOn, h.v.storedFuel * 100.0) && h.icons.fuelIcon == h.gauges.fuelBar
    && h.gauges.gearReverse == (h.gauges.gearText == R)
    && (h.gauges.gearText != N ==> h.v.engineOn)
    && (h.gauges.gearText == R ==> h.v.hasMoved)
    && h.audio.seatbeltWarning.paused == h.audio.alarm.paused
    && (h.v.isMotorcycle ==> h.audio.seatbeltWarning.paused)
    && (h.audio.tick.paused <==> !(h.v.leftActive || h.v.rightActive))
    && h.icons.leftBlinking == h.v.leftActive && h.icons.rightBlinking == h.v.rightActive
  }

  /** The common tail of setEngine turns the settled part into the whole
      invariant. */
  lemma RefreshRestoresInv(h: Hud)
    requires Settled(h)
    ensures Inv(Refresh(h))
  {
  }

  lemma InitInv()
    ensures Inv(Init())
  {
  }

  /** The engine-off branch of setEngine. */
  lemma EngineOffFacts(h: Hud)
    requires !h.v.engineOn
    ensures var r := EngineOff(h);
      && !r.v.hasMoved
      && r.gauges.gearText == N && !r.gauges.gearReverse
      && r.audio.seatbeltWarning.paused && r.audio.alarm.paused
      && r.gauges.rpm == Blank
      && r.gauges.healthBar == Dark && r.icons.engineIcon == Dark
      && r.gauges.fuelBar == Dark && r.icons.fuelIcon == Dark
      && r.gauges.speedText == h.gauges.speedText
      && r.audio.cues == h.audio.cues && r.v.played == h.v.played && r.audio.pending == h.audio.pending
      && r.v.storedHealth == Clamp01(h.v.storedHealth) && r.v.storedFuel == Clamp01(h.v.storedFuel)
      && r.v.seatbeltBuckled == h.v.seatbeltBuckled
  {
  }

  /** Facts about setEngine(false) from a running engine: movement is
      forgotten unless the re-applied speed is nonzero, the gear shows "N",
      both seatbelt loops stop, the RPM box blanks, every bar and icon greys,
      and no cue, latch or timer changes. */
  lemma IgnitionOff(h: Hud)
    requires h.v.engineOn
    ensures var r := SetEngine(h, false);
      && !r.v.engineOn
      && r.v.hasMoved == (h.gauges.speedText > 0)
      && r.gauges.gearText == N && !r.gauges.gearReverse
      && r.audio.seatbeltWarning.paused && r.audio.alarm.paused
      && r.gauges.rpm == Blank
      && r.gauges.healthBar == Dark && r.icons.engineIcon == Dark
      && r.gauges.fuelBar == Dark && r.icons.fuelIcon == Dark
      && r.gauges.speedText == h.gauges.speedText && r.gauges.speedColour == White
      && r.audio.cues == h.audio.cues && r.v.played == h.v.played && r.audio.pending == h.audio.pending
      && r.v.storedHealth == Clamp01(h.v.storedHealth) && r.v.storedFuel == Clamp01(h.v.storedFuel)
      && r.v.seatbeltBuckled == h.v.seatbeltBuckled && r.v.isMotorcycle == h.v.isMotorcycle
  {
    var h1 := h.(v := h.v.(engineOn := false));
    EngineOffFacts(h1);
  }

  /** The four latches as re-applying the stored values with the engine on
      leaves them: each records whether its threshold is crossed, provided the
      belt is buckled. */
  function Relatched(b: bool, hp: real, fp: real): (r: Played)
  {
    Played(b && hp <= 50.0, b && hp <= 20.0, b && fp <= 50.0, b && fp <= 10.0)
  }

  /** Re-applying the stored health after clearing the latches fires the due
      health cues. */
  lemma HealthRelatch(h: Hud)
    requires h.v.engineOn && h.v.played == NonePlayed
    ensures var r := SetHealth(h, h.v.storedHealth);
      var b := h.v.seatbeltBuckled;
      var hp := Clamp01(h.v.storedHealth) * 100.0;
      && r.v.played == Played(b && hp <= 50.0, b && hp <= 20.0, false, false)
      && r.audio.cues == h.audio.cues
           + (if b && hp <= 50.0 then [Warn1] else []) + (if b && hp <= 20.0 then [Warn2] else [])
  {
  }

  /** Then re-applying the stored fuel fires the due fuel cues. */
  lemma FuelRelatch(h: Hud)
    requires h.v.engineOn && !h.v.played.fuel50 && !h.v.played.fuel10
    ensures var r := SetFuel(h, h.v.storedFuel);
      var b := h.v.seatbeltBuckled;
      var fp := Clamp01(h.v.storedFuel) * 100.0;
      && r.v.played == h.v.played.(fuel50 := b && fp <= 50.0, fuel10 := b && fp <= 10.0)
      && r.audio.cues == h.audio.cues
           + (if b && fp <= 50.0 then [Fuel50] else []) + (if b && fp <= 10.0 then [Fuel10] else [])
  {
  }

  /** The clamped stored health and fuel, as percentages. */
  function HealthPct(h: Hud): (r: real)
  {
    Clamp01(h.v.storedHealth) * 100.0
  }

  function FuelPct(h: Hud): (r: real)
  {
    Clamp01(h.v.storedFuel) * 100.0
  }

  /** The cues that fire at once when the ignition is switched on. */
  function IgnitionCues(h: Hud): (r: seq<Cue>)
  {
    if h.v.seatbeltBuckled then DueCues(HealthPct(h), FuelPct(h), NonePlayed) else []
  }

  /** The ignition cues depend only on the belt and the stored values. */
  lemma IgnitionCuesAgree(h: Hud, g: Hud)
    requires g.v.seatbeltBuckled == h.v.seatbeltBuckled
    requires g.v.storedHealth == h.v.storedHealth && g.v.storedFuel == h.v.storedFuel
    ensures IgnitionCues(g) == IgnitionCues(h)
  {
  }

  /** With every latch recording its threshold, the startup sequencer adds
      no timer. */
  lemma StartupQuiet(h: Hud)
    requires h.v.played == Relatched(true, h.v.engineHealth * 100.0, h.v.storedFuel * 100.0)
    ensures PlayStartupWarnings(h) == h
  {
    StartupWarningsSchedule(h);
    LatchedScheduleIsEmpty(h.v.engineHealth * 100.0, h.v.storedFuel * 100.0);
    assert h.audio.pending + [] == h.audio.pending;
  }

  /** Re-applying the stored health and fuel after the latches are cleared
      fires the due cues in order and latches them. */
  lemma ReapplyFacts(h: Hud)
    requires h.v.engineOn && h.v.played == NonePlayed
    ensures var r := SetFuel(SetHealth(h, h.v.storedHealth), h.v.storedFuel);
      && r.v.played == Relatched(h.v.seatbeltBuckled, HealthPct(h), FuelPct(h))
      && r.audio.cues == h.audio.cues + IgnitionCues(h)
  {
    var b := h.v.seatbeltBuckled;
    var hp := HealthPct(h);
    var fp := FuelPct(h);
    HealthRelatch(h);
    var h2 := SetHealth(h, h.v.storedHealth);
    FuelRelatch(h2);
    var h3 := SetFuel(h2, h2.v.storedFuel);
    var w1 := if b && hp <= 50.0 then [Warn1] else [];
    var w2 := if b && hp <= 20.0 then [Warn2] else [];
    var f1 := if b && fp <= 50.0 then [Fuel50] else [];
    var f2 := if b && fp <= 10.0 then [Fuel10] else [];
    assert h3.audio.cues == h.audio.cues + w1 + w2 + f1 + f2;
    assert IgnitionCues(h) == w1 + w2 + f1 + f2;
    ConcatAssoc(h.audio.cues, w1, w2, f1, f2);
  }

  lemma ConcatAssoc<T>(s: seq<T>, a: seq<T>, b: seq<T>, c: seq<T>, d: seq<T>)
    ensures s + a + b + c + d == s + (a + b + c + d)
  {
  }

  /** The engine-on branch of setEngine: the latches and the cues. */
  lemma EngineOnLatches(h: Hud)
    requires h.v.engineOn
    ensures EngineOn(h).v.played == Relatched(h.v.seatbeltBuckled, HealthPct(h), FuelPct(h))
    ensures EngineOn(h).audio.cues == h.audio.cues + IgnitionCues(h)
  {
    var g := SetGear(h, 0);
    var h1 := g.(v := g.v.(played := NonePlayed));
    var h3 := SetFuel(SetHealth(h1, h1.v.storedHealth), h1.v.storedFuel);
    assert h3.v.played == Relatched(h.v.seatbeltBuckled, HealthPct(h), FuelPct(h))
        && h3.audio.cues == h.audio.cues + IgnitionCues(h) by {
      assert h1.v.storedHealth == h.v.storedHealth && h1.v.storedFuel == h.v.storedFuel;
      assert h1.v.seatbeltBuckled == h.v.seatbeltBuckled && h1.audio.cues == h.audio.cues;
      IgnitionCuesAgree(h, h1);
      ReapplyFacts(h1);
    }
    assert EngineOn(h) == StartupChecks(h3);
  }

  /** The engine-on branch of setEngine schedules no timer. */
  lemma EngineOnTimers(h: Hud)
    requires h.v.engineOn
    ensures EngineOn(h).audio.pending == h.audio.pending
  {
    var g := SetGear(h, 0);
    var h1 := g.(v := g.v.(played := NonePlayed));
    var h3 := SetFuel(SetHealth(h1, h1.v.storedHealth), h1.v.storedFuel);
    ReapplyFacts(h1);
    assert h3.v.engineHealth * 100.0 == HealthPct(h1) && h3.v.storedFuel * 100.0 == FuelPct(h1);
    LatchedScheduleIsEmpty(HealthPct(h1), FuelPct(h1));
    assert EngineOn(h) == StartupChecks(h3);
  }

  /** The engine-on branch of setEngine: the vehicle state and the read-outs. */
  lemma EngineOnState(h: Hud)
    requires h.v.engineOn
    ensures EngineOn(h).v == h.v.(played := EngineOn(h).v.played, engineHealth := Clamp01(h.v.storedHealth),
                                  storedHealth := Clamp01(h.v.storedHealth), storedFuel := Clamp01(h.v.storedFuel))
    ensures EngineOn(h).gauges.gearText == GearTextFor(true, 0, h.v.hasMoved)
    ensures EngineOn(h).gauges.gearReverse == (EngineOn(h).gauges.gearText == R)
    ensures EngineOn(h).gauges.speedText == h.gauges.speedText
    ensures EngineOn(h).gauges.speedColour == h.gauges.speedColour
    ensures EngineOn(h).gauges.healthBar == TierFor(true, HealthPct(h))
    ensures EngineOn(h).gauges.fuelBar == TierFor(true, FuelPct(h))
    ensures EngineOn(h).icons.fuelIcon == EngineOn(h).gauges.fuelBar
    ensures EngineOn(h).icons.leftBlinking == h.icons.leftBlinking
    ensures EngineOn(h).icons.rightBlinking == h.icons.rightBlinking
  {
    var g := SetGear(h, 0);
    var h1 := g.(v := g.v.(played := NonePlayed));
    var h3 := SetFuel(SetHealth(h1, h1.v.storedHealth), h1.v.storedFuel);
    assert EngineOn(h) == StartupChecks(h3);
  }

  /** The engine-on branch of setEngine: the loops and the seatbelt icon. A
      motorcycle is silenced; a car gets setSeatbelts of its stored flag, so
      both loops play exactly when unbuckled and the icon is green or
      flashing. */
  lemma EngineOnLoops(h: Hud)
    requires h.v.engineOn
    ensures EngineOn(h).audio.seatbeltWarning.paused == EngineOn(h).audio.alarm.paused
    ensures h.v.isMotorcycle ==> EngineOn(h).audio.seatbeltWarning.paused
    ensures !h.v.isMotorcycle ==>
      && EngineOn(h).audio.seatbeltWarning.paused == h.v.seatbeltBuckled
      && EngineOn(h).icons.seatbeltIcon == if h.v.seatbeltBuckled then BeltGreen else BeltFlashing
    ensures EngineOn(h).audio.tick == h.audio.tick
  {
    var g := SetGear(h, 0);
    var h1 := g.(v := g.v.(played := NonePlayed));
    var h3 := SetFuel(SetHealth(h1, h1.v.storedHealth), h1.v.storedFuel);
    assert h3.v.isMotorcycle == h.v.isMotorcycle && h3.v.seatbeltBuckled == h.v.seatbeltBuckled;
    assert h3.v.engineOn && h3.audio.tick == h.audio.tick;
    assert EngineOn(h) == StartupChecks(h3);
  }

  /** Checking health again against latches that already record it fires
      nothing and changes no latch. */
  lemma RecheckIsQuiet(h: Hud)
    requires h.v.engineOn
    requires h.v.played.warn1 == (h.v.seatbeltBuckled && h.v.engineHealth * 100.0 <= 50.0)
    requires h.v.played.warn2 == (h.v.seatbeltBuckled && h.v.engineHealth * 100.0 <= 20.0)
    ensures UpdateEngineIcon(h).v == h.v
    ensures UpdateEngineIcon(h).audio == h.audio
  {
  }

  /** Facts about setEngine(true) from a stopped engine. The four latches are
      cleared and then, when buckled, re-latched at once by re-applying the
      stored health and fuel: every cue whose condition holds fires
      immediately, in the fixed order, and the startup sequencer finds
      nothing left to schedule. Unbuckled, nothing fires and every latch
      ends clear. The gear shows setGear(0), so "R" if movement was noted
      while the engine was off. */
  lemma IgnitionOn(h: Hud)
    requires !h.v.engineOn
    ensures SetEngine(h, true).v.engineOn
    ensures SetEngine(h, true).v.played == Relatched(h.v.seatbeltBuckled, HealthPct(h), FuelPct(h))
    ensures SetEngine(h, true).audio.cues == h.audio.cues + IgnitionCues(h)
    ensures SetEngine(h, true).audio.pending == h.audio.pending
    ensures SetEngine(h, true).v.seatbeltBuckled == h.v.seatbeltBuckled
    ensures SetEngine(h, true).v.isMotorcycle == h.v.isMotorcycle
    ensures SetEngine(h, true).v.storedHealth == Clamp01(h.v.storedHealth)
    ensures SetEngine(h, true).v.storedFuel == Clamp01(h.v.storedFuel)
    ensures SetEngine(h, true).gauges.gearText == GearTextFor(true, 0, h.v.hasMoved)
    ensures SetEngine(h, true).gauges.speedText == h.gauges.speedText
    ensures SetEngine(h, true).v.hasMoved == (h.v.hasMoved || h.gauges.speedText > 0)
    ensures SetEngine(h, true).audio.seatbeltWarning.paused == SetEngine(h, true).audio.alarm.paused
    ensures h.v.isMotorcycle ==> SetEngine(h, true).audio.seatbeltWarning.paused
    ensures !h.v.isMotorcycle ==>
      && SetEngine(h, true).audio.seatbeltWarning.paused == h.v.seatbeltBuckled
      && SetEngine(h, true).icons.seatbeltIcon == if h.v.seatbeltBuckled then BeltGreen else BeltFlashing
  {
    var h0 := h.(v := h.v.(engineOn := true));
    var e := EngineOn(h0);
    EngineOnLatches(h0);
    EngineOnTimers(h0);
    EngineOnState(h0);
    EngineOnLoops(h0);
    assert HealthPct(h0) == HealthPct(h) && FuelPct(h0) == FuelPct(h);
    assert e.v.engineHealth * 100.0 == HealthPct(h);
    RecheckIsQuiet(e);
    assert SetEngine(h, true) == Refresh(e);
  }

  /** An on-off-on ignition cycle leaves the latches determined by the
      stored values and the belt alone, whatever they were before it. */
  lemma IgnitionCycleResetsLatches(h: Hud, g: Hud)
    requires h.v.engineOn && g.v.engineOn
    requires g == h.(v := h.v.(played := g.v.played))
    ensures SetEngine(SetEngine(h, false), true).v.played == SetEngine(SetEngine(g, false), true).v.played
  {
    IgnitionOff(h);
    IgnitionOff(g);
    var h1 := SetEngine(h, false);
    var g1 := SetEngine(g, false);
    IgnitionOn(h1);
    IgnitionOn(g1);
  }

  /** No setter call changes the pending timer list. */
  lemma ApplyKeepsPending(h: Hud, c: Call)
    ensures Apply(h, c).audio.pending == h.audio.pending
  {
    if c.Engine? && c.on != h.v.engineOn {
      if c.on { IgnitionOn(h); } else { IgnitionOff(h); }
    }
  }

  /** Hence whatever the host calls, in whatever order, no deferred startup cue
      is ever scheduled after page load. */
  lemma {:induction false} NoTimerEverScheduled(h: Hud, calls: seq<Call>)
    requires h.audio.pending == []
    ensures Run(h, calls).audio.pending == []
    decreases |calls|
  {
    if calls != [] {
      ApplyKeepsPending(h, calls[0]);
      NoTimerEverScheduled(Apply(h, calls[0]), calls[1..]);
    }
  }

  lemma HealthKeepsInv(h: Hud, v: real)
    requires Inv(h)
    ensures Inv(SetHealth(h, v))
  {
  }

  lemma FuelKeepsInv(h: Hud, v: real)
    requires Inv(h)
    ensures Inv(SetFuel(h, v))
  {
  }

  lemma SeatbeltsKeepInv(h: Hud, b: bool)
    requires Inv(h)
    ensures Inv(SetSeatbelts(h, b))
  {
  }

  lemma VehicleTypeKeepsInv(h: Hud, c: Call)
    requires Inv(h) && c.VehicleType?
    ensures Inv(Apply(h, c))
  {
  }

  lemma GearKeepsInv(h: Hud, g: int)
    requires Inv(h)
    ensures Inv(SetGear(h, g))
  {
  }

  lemma SpeedKeepsInv(h: Hud, v: nat)
    requires Inv(h)
    ensures Inv(SetSpeed(h, v))
  {
  }

  lemma RpmKeepsInv(h: Hud, x: real)
    requires Inv(h)
    ensures Inv(SetRPM(h, x))
  {
  }

  lemma LeftIndicatorKeepsInv(h: Hud, c: Call)
    requires Inv(h) && c.LeftIndicator?
    ensures Inv(Apply(h, c))
  {
  }

  lemma RightIndicatorKeepsInv(h: Hud, c: Call)
    requires Inv(h) && c.RightIndicator?
    ensures Inv(Apply(h, c))
  {
  }

  lemma HeadlightsKeepInv(h: Hud, c: Call)
    requires Inv(h) && c.HeadlightLevel?
    ensures Inv(Apply(h, c))
  {
  }

  lemma EngineOnKeepsInv(h: Hud)
    requires Inv(h) && !h.v.engineOn
    ensures Inv(SetEngine(h, true))
  {
    var h0 := h.(v := h.v.(engineOn := true));
    var e := EngineOn(h0);
    EngineOnState(h0);
    EngineOnLoops(h0);
    assert Settled(e);
    RefreshRestoresInv(e);
  }

  lemma EngineOffKeepsInv(h: Hud)
    requires Inv(h) && h.v.engineOn
    ensures Inv(SetEngine(h, false))
  {
    var h0 := h.(v := h.v.(engineOn := false));
    EngineOffFacts(h0);
    assert Settled(EngineOff(h0));
    RefreshRestoresInv(EngineOff(h0));
  }

  lemma EngineKeepsInv(h: Hud, c: Call)
    requires Inv(h) && c.Engine?
    ensures Inv(Apply(h, c))
  {
    if c.on != h.v.engineOn {
      if c.on { EngineOnKeepsInv(h); } else { EngineOffKeepsInv(h); }
    }
  }

  /** Every setter call keeps the invariant. */
  lemma ApplyKeepsInv(h: Hud, c: Call)
    requires Inv(h)
    ensures Inv(Apply(h, c))
  {
    match c
    case Health(v) => HealthKeepsInv(h, v);
    case Fuel(v) => FuelKeepsInv(h, v);
    case Engine(_) => EngineKeepsInv(h, c);
    case Seatbelts(b) => SeatbeltsKeepInv(h, b);
    case VehicleType(_) => VehicleTypeKeepsInv(h, c);
    case Gear(g) => GearKeepsInv(h, g);
    case Speed(v) => SpeedKeepsInv(h, v);
    case Rpm(x) => RpmKeepsInv(h, x);
    case LeftIndicator(_) => LeftIndicatorKeepsInv(h, c);
    case RightIndicator(_) => RightIndicatorKeepsInv(h, c);
    case HeadlightLevel(_) => HeadlightsKeepInv(h, c);
  }

  /** The invariant holds after every sequence of setter calls. */
  lemma {:induction false} InvAlways(h: Hud, calls: seq<Call>)
    requires Inv(h)
    ensures Inv(Run(h, calls))
    decreases |calls|
  {
    if calls != [] {
      ApplyKeepsInv(h, calls[0]);
      InvAlways(Apply(h, calls[0]), calls[1..]);
    }
  }

  /** In particular, after any calls from page load the tick loop plays
      exactly while an indicator is active, and a motorcycle never plays the
      seatbelt or alarm loop. */
  lemma LoopsFollowTheirSources(calls: seq<Call>)
    ensures var r := Run(Init(), calls);
      && (!r.audio.tick.paused <==> r.v.leftActive || r.v.rightActive)
      && (r.v.isMotorcycle ==> r.audio.seatbeltWarning.paused && r.audio.alarm.paused)
      && r.audio.seatbeltWarning.paused == r.audio.alarm.paused
  {
    InitInv();
    InvAlways(Init(), calls);
  }

  /** The car rule "both seatbelt loops play exactly while unbuckled with
      the engine on" holds right after setSeatbelts and after ignition, but
      it is not an invariant: setVehicleType never calls setSeatbelts, so a
      car declared after ignition runs unbuckled with both loops paused. */
  lemma CarDeclaredAfterIgnitionIsSilent()
    ensures var r := SetVehicleType(SetEngine(Init(), true), "car");
      && !r.v.isMotorcycle && r.v.engineOn && !r.v.seatbeltBuckled
      && r.audio.seatbeltWarning.paused && r.audio.alarm.paused
  {
    IgnitionOn(Init());
  }

  /** On a motorcycle setSeatbelts changes nothing at all: no audio, no icon,
      no stored flag. */
  lemma MotorcycleSeatbeltsInert(h: Hud, b: bool)
    requires Inv(h) && h.v.isMotorcycle
    ensures SetSeatbelts(h, b) == h
  {
  }

  predicate KeepsMotorcycle(c: Call)
  {
    c.VehicleType? ==> c.kind == "motorcycle"
  }

  /** One call that does not declare another vehicle kind keeps an unbuckled
      motorcycle an unbuckled motorcycle and plays no cue. */
  lemma MotorcycleStep(h: Hud, c: Call)
    requires h.v.isMotorcycle && !h.v.seatbeltBuckled && KeepsMotorcycle(c)
    ensures Apply(h, c).v.isMotorcycle && !Apply(h, c).v.seatbeltBuckled
    ensures Apply(h, c).audio.cues == h.audio.cues
  {
    if c.Engine? && c.on != h.v.engineOn {
      if c.on { IgnitionOn(h); } else { IgnitionOff(h); }
    }
  }

  /** The vehicle starts as a motorcycle, and on a motorcycle setSeatbelts
      does not store the flag. So the warnings are gated shut: until some
      other vehicle kind is declared, no cue is ever played, whatever is
      called. */
  lemma {:induction false} MotorcycleNeverWarns(h: Hud, calls: seq<Call>)
    requires h.v.isMotorcycle && !h.v.seatbeltBuckled
    requires forall i :: 0 <= i < |calls| ==> KeepsMotorcycle(calls[i])
    ensures Run(h, calls).audio.cues == h.audio.cues
    decreases |calls|
  {
    if calls != [] {
      MotorcycleStep(h, calls[0]);
      MotorcycleNeverWarns(Apply(h, calls[0]), calls[1..]);
    }
  }

  /** Four calls in a row. */
  lemma RunFour(h: Hud, c1: Call, c2: Call, c3: Call, c4: Call)
    ensures Run(h, [c1, c2, c3, c4]) == Apply(Apply(Apply(Apply(h, c1), c2), c3), c4)
  {
    var h1 := Apply(h, c1);
    var h2 := Apply(h1, c2);
    var h3 := Apply(h2, c3);
    assert [c1, c2, c3, c4][1..] == [c2, c3, c4];
    assert [c2, c3, c4][1..] == [c3, c4];
    assert [c3, c4][1..] == [c4];
    assert [c4][1..] == [];
    assert Run(h3, [c4]) == Run(Apply(h3, c4), []);
    assert Run(h2, [c3, c4]) == Run(h3, [c4]);
    assert Run(h1, [c2, c3, c4]) == Run(h2, [c3, c4]);
    assert Run(h, [c1, c2, c3, c4]) == Run(h1, [c2, c3, c4]);
  }

  /** The four calls of the buckling scenario, unfolded. */
  lemma BucklingRun(h: Hud, kind: string, val: real)
    ensures Run(h, [VehicleType(kind), Engine(true), Health(val), Seatbelts(true)])
         == SetSeatbelts(SetHealth(SetEngine(SetVehicleType(h, kind), true), val), true)
  {
    RunFour(h, VehicleType(kind), Engine(true), Health(val), Seatbelts(true));
    var h1 := SetVehicleType(h, kind);
    assert Apply(h, VehicleType(kind)) == h1;
    var h2 := SetEngine(h1, true);
    assert Apply(h1, Engine(true)) == h2;
    var h3 := SetHealth(h2, val);
    assert Apply(h2, Health(val)) == h3;
  }

  /** Buckling never runs a warning check: after page load, a health value
      set with the engine on but the belt unbuckled stays silent when the
      belt is then buckled, however low it is, car or motorcycle. */
  lemma BucklingIsSilent(kind: string, val: real)
    ensures var r := Run(Init(), [VehicleType(kind), Engine(true), Health(val), Seatbelts(true)]);
      r.audio.cues == [] && r.gauges.healthBar == TierFor(true, Clamp01(val) * 100.0)
  {
    BucklingRun(Init(), kind, val);
    var h1 := SetVehicleType(Init(), kind);
    IgnitionOn(h1);
    var h2 := SetEngine(h1, true);
    assert h2.audio.cues == [] && !h2.v.seatbeltBuckled && h2.v.engineOn;
    var h3 := SetHealth(h2, val);
    assert h3.audio.cues == [] && h3.v.engineOn;
  }

  /** With the engine on and the belt buckled, one update straight to 20% or
      less fires warn1 and then warn2. */
  lemma StraightToCritical(h: Hud, val: real)
    requires h.v.engineOn && h.v.seatbeltBuckled && !h.v.played.warn1 && !h.v.played.warn2
    requires Clamp01(val) * 100.0 <= 20.0
    ensures SetHealth(h, val).audio.cues == h.audio.cues + [Warn1, Warn2]
  {
  }

  /** The metric readings a cue's live check sees over a sequence of calls. */
  function Readings(calls: seq<Call>, c: Cue): (r: seq<real>)
    decreases |calls|
  {
    if calls == [] then [] else Reading(calls[0], c) + Readings(calls[1..], c)
  }

  predicate KeepsIgnitionAndBelt(c: Call)
  {
    !c.Engine? && !c.Seatbelts?
  }

  /** The health and fuel readings a cue's live check sees in one call. */
  function Reading(call: Call, c: Cue): (rs: seq<real>)
    ensures |rs| <= 1
  {
    match call
    case Health(v) => if c == Warn1 || c == Warn2 then [Clamp01(v) * 100.0] else []
    case Fuel(v) => if c == Fuel50 || c == Fuel10 then [Clamp01(v) * 100.0] else []
    case _ => []
  }

  /** What one call contributes to cue c: its count grows by the crossings of
      the call's reading, and the latch records that reading. */
  ghost predicate StepEffect(h: Hud, r: Hud, call: Call, c: Cue)
  {
    var rs := Reading(call, c);
    && r.v.engineOn == h.v.engineOn && r.v.seatbeltBuckled == h.v.seatbeltBuckled
    && multiset(r.audio.cues)[c] == multiset(h.audio.cues)[c] + Crossings(rs, Threshold(c), IsPlayed(h.v.played, c))
    && IsPlayed(r.v.played, c) == (if rs == [] then IsPlayed(h.v.played, c) else rs[0] <= Threshold(c))
  }

  /** The count of cue c in a list of cues with one optional cue appended. */
  lemma CountMaybe(s: seq<Cue>, fire: bool, d: Cue, c: Cue)
    ensures multiset(s + if fire then [d] else [])[c]
            == multiset(s)[c] + if fire && d == c then 1 else 0
  {
  }

  /** The cue count after one health check with the belt buckled. */
  lemma HealthCount(s: seq<Cue>, t: seq<Cue>, val: real, p: Played, c: Cue)
    requires var pct := Clamp01(val) * 100.0;
      t == s + (if pct <= 50.0 && !p.warn1 then [Warn1] else [])
             + (if pct <= 20.0 && !p.warn2 then [Warn2] else [])
    ensures multiset(t)[c] == multiset(s)[c] + Crossings(Reading(Health(val), c), Threshold(c), IsPlayed(p, c))
  {
    var pct := Clamp01(val) * 100.0;
    var f1 := pct <= 50.0 && !p.warn1;
    var f2 := pct <= 20.0 && !p.warn2;
    var s1 := s + if f1 then [Warn1] else [];
    CountMaybe(s1, f2, Warn2, c);
    CountMaybe(s, f1, Warn1, c);
    var rs := Reading(Health(val), c);
    if c == Warn1 || c == Warn2 {
      assert rs == [pct];
    } else {
      assert rs == [];
    }
  }

  /** The latches after one health check with the belt buckled. */
  lemma HealthLatch(p: Played, q: Played, val: real, c: Cue)
    requires var pct := Clamp01(val) * 100.0;
      q == p.(warn1 := pct <= 50.0, warn2 := pct <= 20.0)
    ensures var rs := Reading(Health(val), c);
      IsPlayed(q, c) == if rs == [] then IsPlayed(p, c) else rs[0] <= Threshold(c)
  {
  }

  lemma HealthStep(h: Hud, val: real, c: Cue)
    requires h.v.engineOn && h.v.seatbeltBuckled
    ensures StepEffect(h, SetHealth(h, val), Health(val), c)
  {
    var r := SetHealth(h, val);
    HealthCount(h.audio.cues, r.audio.cues, val, h.v.played, c);
    HealthLatch(h.v.played, r.v.played, val, c);
  }

  /** The cue count after one fuel check with the belt buckled. */
  lemma FuelCount(s: seq<Cue>, t: seq<Cue>, val: real, p: Played, c: Cue)
    requires var pct := Clamp01(val) * 100.0;
      t == s + (if pct <= 50.0 && !p.fuel50 then [Fuel50] else [])
             + (if pct <= 10.0 && !p.fuel10 then [Fuel10] else [])
    ensures multiset(t)[c] == multiset(s)[c] + Crossings(Reading(Fuel(val), c), Threshold(c), IsPlayed(p, c))
  {
    var pct := Clamp01(val) * 100.0;
    var f1 := pct <= 50.0 && !p.fuel50;
    var f2 := pct <= 10.0 && !p.fuel10;
    var s1 := s + if f1 then [Fuel50] else [];
    CountMaybe(s1, f2, Fuel10, c);
    CountMaybe(s, f1, Fuel50, c);
    var rs := Reading(Fuel(val), c);
    if c == Fuel50 || c == Fuel10 {
      assert rs == [pct];
    } else {
      assert rs == [];
    }
  }

  /** The latches after one fuel check with the belt buckled. */
  lemma FuelLatch(p: Played, q: Played, val: real, c: Cue)
    requires var pct := Clamp01(val) * 100.0;
      q == p.(fuel50 := pct <= 50.0, fuel10 := pct <= 10.0)
    ensures var rs := Reading(Fuel(val), c);
      IsPlayed(q, c) == if rs == [] then IsPlayed(p, c) else rs[0] <= Threshold(c)
  {
  }

  lemma FuelStep(h: Hud, val: real, c: Cue)
    requires h.v.engineOn && h.v.seatbeltBuckled
    ensures StepEffect(h, SetFuel(h, val), Fuel(val), c)
  {
    var r := SetFuel(h, val);
    FuelCount(h.audio.cues, r.audio.cues, val, h.v.played, c);
    FuelLatch(h.v.played, r.v.played, val, c);
  }

  /** Any other call that keeps the ignition and the belt plays no cue and
      leaves the latches alone. */
  lemma QuietStep(h: Hud, call: Call, c: Cue)
    requires KeepsIgnitionAndBelt(call) && !call.Health? && !call.Fuel?
    ensures StepEffect(h, Apply(h, call), call, c)
  {
    assert Reading(call, c) == [];
  }

  /** One call's contribution to the count of cue c. */
  lemma StepCount(h: Hud, call: Call, c: Cue)
    requires h.v.engineOn && h.v.seatbeltBuckled && KeepsIgnitionAndBelt(call)
    ensures StepEffect(h, Apply(h, call), call, c)
  {
    if call.Health? {
      HealthStep(h, call.health, c);
    } else if call.Fuel? {
      FuelStep(h, call.fuel, c);
    } else {
      QuietStep(h, call, c);
    }
  }

  /** Hysteresis over setter calls: with the engine on and the belt buckled,
      and no ignition or seatbelt call in between, each cue fires exactly once
      per downward crossing of its threshold by the health (warn1, warn2) or
      fuel (fuel50, fuel10) values set. */
  lemma {:induction false} CueFiresOncePerCrossing(h: Hud, calls: seq<Call>, c: Cue)
    requires h.v.engineOn && h.v.seatbeltBuckled
    requires forall i :: 0 <= i < |calls| ==> KeepsIgnitionAndBelt(calls[i])
    ensures multiset(Run(h, calls).audio.cues)[c]
            == multiset(h.audio.cues)[c] + Crossings(Readings(calls, c), Threshold(c), IsPlayed(h.v.played, c))
    decreases |calls|
  {
    if calls != [] {
      var r := Apply(h, calls[0]);
      assert Run(h, calls) == Run(r, calls[1..]);
      StepCount(h, calls[0], c);
      assert StepEffect(h, r, calls[0], c);
      CueFiresOncePerCrossing(r, calls[1..], c);
      var rs := Reading(calls[0], c);
      var rest := Readings(calls[1..], c);
      assert Readings(calls, c) == rs + rest;
      CrossingsSplit(rs, rest, Threshold(c), IsPlayed(h.v.played, c));
    }
  }

  /** Crossings over a reading of at most one value followed by more: the
      second part starts from the state the first leaves. */
  lemma CrossingsSplit(rs: seq<real>, rest: seq<real>, threshold: real, wasBelow: bool)
    requires |rs| <= 1
    ensures Crossings(rs + rest, threshold, wasBelow)
            == Crossings(rs, threshold, wasBelow)
               + Crossings(rest, threshold, if rs == [] then wasBelow else rs[0] <= threshold)
  {
    if rs == [] {
      assert rs + rest == rest;
    } else {
      assert (rs + rest)[1..] == rest;
      assert rs[1..] == [];
    }
  }

  /** The same count seen through the live check itself: over such a run a
      cue sounds exactly as often as successive Latch steps of its threshold
      fire on the values set. */
  lemma CueCountIsFireCount(h: Hud, calls: seq<Call>, c: Cue)
    requires h.v.engineOn && h.v.seatbeltBuckled
    requires forall i :: 0 <= i < |calls| ==> KeepsIgnitionAndBelt(calls[i])
    ensures multiset(Run(h, calls).audio.cues)[c]
            == multiset(h.audio.cues)[c] + FireCount(Readings(calls, c), Threshold(c), IsPlayed(h.v.played, c))
  {
    CueFiresOncePerCrossing(h, calls, c);
    FiresOncePerCrossing(Readings(calls, c), Threshold(c), IsPlayed(h.v.played, c));
  }

  /** Once a cue is latched, values set at or below its threshold never
      sound it again, however many there are. */
  lemma NoRefireWhileLow(h: Hud, calls: seq<Call>, c: Cue)
    requires h.v.engineOn && h.v.seatbeltBuckled && IsPlayed(h.v.played, c)
    requires forall i :: 0 <= i < |calls| ==> KeepsIgnitionAndBelt(calls[i])
    requires forall i :: 0 <= i < |Readings(calls, c)| ==> Readings(calls, c)[i] <= Threshold(c)
    ensures multiset(Run(h, calls).audio.cues)[c] == multiset(h.audio.cues)[c]
  {
    CueCountIsFireCount(h, calls, c);
    NoRefireWhileBelow(Readings(calls, c), Threshold(c));
  }

  /** The warn1 readings of a down-up-down health sequence cross 50 twice. */
  lemma DownUpDownReadings(a: real, b: real, c: real)
    requires Clamp01(a) * 100.0 <= 50.0 < Clamp01(b) * 100.0 && Clamp01(c) * 100.0 <= 50.0
    ensures Crossings(Readings([Health(a), Health(b), Health(c)], Warn1), 50.0, false) == 2
  {
    var pa, pb, pc := Clamp01(a) * 100.0, Clamp01(b) * 100.0, Clamp01(c) * 100.0;
    var calls := [Health(a), Health(b), Health(c)];
    assert calls[1..] == [Health(b), Health(c)];
    assert calls[1..][1..] == [Health(c)];
    assert Readings([Health(c)], Warn1) == [pc] by {
      assert [Health(c)][1..] == [];
    }
    assert Readings(calls, Warn1) == [pa, pb, pc];
    DownUpDownFiresTwice(pa, pb, pc, 50.0);
    FiresOncePerCrossing([pa, pb, pc], 50.0, false);
  }

  /** With the engine on, buckled and warn1 clear, health set down below
      50%, back above it and down again fires warn1 exactly twice. */
  lemma DownUpDownHealth(h: Hud, a: real, b: real, c: real)
    requires h.v.engineOn && h.v.seatbeltBuckled && !h.v.played.warn1
    requires Clamp01(a) * 100.0 <= 50.0 < Clamp01(b) * 100.0 && Clamp01(c) * 100.0 <= 50.0
    ensures multiset(Run(h, [Health(a), Health(b), Health(c)]).audio.cues)[Warn1]
            == multiset(h.audio.cues)[Warn1] + 2
  {
    CueFiresOncePerCrossing(h, [Health(a), Health(b), Health(c)], Warn1);
    DownUpDownReadings(a, b, c);
  }

  /** Once the vehicle has moved with the engine running, setGear(0) shows
      "R" until the engine is turned off, whatever else is called. */
  lemma {:induction false} ReverseUntilEngineOff(h: Hud, calls: seq<Call>)
    requires h.v.engineOn && h.v.hasMoved
    requires forall i :: 0 <= i < |calls| ==> calls[i] != Engine(false)
    ensures SetGear(Run(h, calls), 0).gauges.gearText == R
    decreases |calls|
  {
    if calls != [] {
      assert calls[0] != Engine(false);
      ReverseUntilEngineOff(Apply(h, calls[0]), calls[1..]);
    }
  }

  /** setEngine(false) forgets the movement, but its tail re-applies the
      shown speed, which notes movement again when that speed is nonzero. So
      straight after an off-on cycle, gear 0 still shows "R". */
  lemma ReverseSurvivesIgnitionCycle(h: Hud)
    requires h.v.engineOn && h.gauges.speedText > 0
    ensures SetGear(SetEngine(SetEngine(h, false), true), 0).gauges.gearText == R
  {
    IgnitionOff(h);
    IgnitionOn(SetEngine(h, false));
  }

  /** Before any nonzero speed the gear shows "N" for gear 0; after one it
      shows "R"; turning the engine off shows "N" again. */
  lemma GearScenario()
    ensures var h := SetEngine(Init(), true);
      && SetGear(h, 0).gauges.gearText == N
      && SetGear(SetSpeed(h, 20), 0).gauges.gearText == R
      && SetEngine(SetGear(SetSpeed(SetSpeed(h, 20), 0), 0), false).gauges.gearText == N
  {
    IgnitionOn(Init());
    var h := SetEngine(Init(), true);
    IgnitionOff(SetGear(SetSpeed(SetSpeed(h, 20), 0), 0));
  }

  /** Left on and right off: only the left icon blinks and the tick plays;
      then left off: the tick stops. */
  lemma IndicatorScenario(h: Hud)
    ensures var a := SetRightIndicator(SetLeftIndicator(h, true), false);
      && a.icons.leftBlinking && !a.icons.rightBlinking && !a.audio.tick.paused
      && SetLeftIndicator(a, false).audio.tick.paused
  {
  }
}
