/** The dashboard state reconciler as values: the vehicle state record with
    the indicator states, and the abstract output (audio, gauges, icons), and
    one function per setter and internal helper giving the record after the
    call. The class in module VehicleHud is proved to perform exactly these
    transitions. */
module Reconciler {
  import opened Presentation
  import opened Warnings

  /** A looping audio element: whether it is paused, and how many times it has
      been started; every start rewinds it to position 0. */
  datatype Loop = Loop(paused: bool, starts: nat)

  const Silent := Loop(true, 0)

  datatype LoopId = Tick | SeatbeltWarning | Alarm

  /** manageLoopingAudio: start (from the beginning) only a paused loop, stop
      only a playing one. */
  function ManageLoop(l: Loop, shouldPlay: bool): (r: Loop)
    ensures r.paused == !shouldPlay
    ensures r.starts == if shouldPlay && l.paused then l.starts + 1 else l.starts
  {
    if shouldPlay then
      if l.paused then Loop(false, l.starts + 1) else l
    else
      if !l.paused then Loop(true, l.starts) else l
  }

  /** Asking twice for the same loop state is the same as asking once. */
  lemma ManageLoopIdempotent(l: Loop, shouldPlay: bool)
    ensures ManageLoop(ManageLoop(l, shouldPlay), shouldPlay) == ManageLoop(l, shouldPlay)
  {
  }

  /** The seatbelt icon: grey (engine off), green (buckled) or red and
      flashing (the seatbelt-warning class). */
  datatype BeltIcon = BeltGrey | BeltGreen | BeltFlashing

  datatype Side = Left | Right

  /** vehicleState, and the `active` class of the two indicator icons. */
  datatype Vehicle = Vehicle(
    engineOn: bool,
    hasMoved: bool,
    isMotorcycle: bool,
    engineHealth: real,
    storedHealth: real,
    storedFuel: real,
    seatbeltBuckled: bool,
    played: Played,
    leftActive: bool,
    rightActive: bool)

  /** The audio elements: three loops, the log of one-shot cues played, and
      the deferred cues not yet elapsed. */
  datatype Audio = Audio(
    tick: Loop,
    seatbeltWarning: Loop,
    alarm: Loop,
    cues: seq<Cue>,
    pending: seq<Timer>)

  /** The read-outs: gear, speed, bars and RPM box. */
  datatype Gauges = Gauges(
    gearText: GearText,
    gearReverse: bool,
    speedText: nat,
    speedColour: SpeedColour,
    healthBar: Tier,
    fuelBar: Tier,
    rpm: RpmBox)

  /** The warning-light icons. */
  datatype Icons = Icons(
    engineIcon: Tier,
    fuelIcon: Tier,
    seatbeltIcon: BeltIcon,
    seatbeltShown: bool,
    leftBlinking: bool,
    rightBlinking: bool,
    lowBeam: Lamp,
    highBeam: Lamp)

  datatype Hud = Hud(v: Vehicle, audio: Audio, gauges: Gauges, icons: Icons)

  /** The state after page load: engine off, motorcycle, full health and fuel,
      unbuckled, no latches set, every loop paused, RPM box blank. */
  function Init(): (r: Hud)
    ensures !r.v.engineOn && !r.v.hasMoved && r.v.isMotorcycle && !r.v.seatbeltBuckled
    ensures r.v.engineHealth == 1.0 && r.v.storedHealth == 1.0 && r.v.storedFuel == 1.0
    ensures r.v.played == NonePlayed && !r.v.leftActive && !r.v.rightActive
    ensures r.audio.tick.paused && r.audio.seatbeltWarning.paused && r.audio.alarm.paused
    ensures r.audio.cues == [] && r.audio.pending == []
  {
    Hud(Vehicle(false, false, true, 1.0, 1.0, 1.0, false, NonePlayed, false, false),
        Audio(Silent, Silent, Silent, [], []),
        Gauges(N, false, 0, White, Dark, Dark, Blank),
        Icons(Dark, Dark, BeltGrey, true, false, false, LampOff, LampOff))
  }

  /** manageLoopingAudio applied to one of the three loops. */
  function ManageLoopingAudio(a: Audio, id: LoopId, shouldPlay: bool): (r: Audio)
    ensures r.tick == if id == Tick then ManageLoop(a.tick, shouldPlay) else a.tick
    ensures r.seatbeltWarning == if id == SeatbeltWarning then ManageLoop(a.seatbeltWarning, shouldPlay) else a.seatbeltWarning
    ensures r.alarm == if id == Alarm then ManageLoop(a.alarm, shouldPlay) else a.alarm
    ensures r.cues == a.cues && r.pending == a.pending
  {
    match id
    case Tick => a.(tick := ManageLoop(a.tick, shouldPlay))
    case SeatbeltWarning => a.(seatbeltWarning := ManageLoop(a.seatbeltWarning, shouldPlay))
    case Alarm => a.(alarm := ManageLoop(a.alarm, shouldPlay))
  }

  /** Stops the seatbelt and the alarm loop. */
  function StopSeatbeltLoops(a: Audio): (r: Audio)
    ensures r.seatbeltWarning.paused && r.alarm.paused
    ensures r.tick == a.tick && r.cues == a.cues && r.pending == a.pending
  {
    ManageLoopingAudio(ManageLoopingAudio(a, SeatbeltWarning, false), Alarm, false)
  }

  /** playOnceAudio: the cue is appended to the log of one-shot cues. */
  function PlayOnceAudio(a: Audio, c: Cue): (r: Audio)
    ensures r.cues == a.cues + [c] && multiset(r.cues)[c] == multiset(a.cues)[c] + 1
    ensures r.tick == a.tick && r.seatbeltWarning == a.seatbeltWarning && r.alarm == a.alarm
    ensures r.pending == a.pending
  {
    a.(cues := a.cues + [c])
  }

  /** One play-once check of cue c against a percentage: the cue fires when
      the percentage is at or below its threshold, its latch is clear and the
      belt is buckled, and its latch is then set. */
  function PlayOnce(h: Hud, c: Cue, pct: real): (r: Hud)
    ensures var s := Latch(pct, Threshold(c), IsPlayed(h.v.played, c), h.v.seatbeltBuckled);
      && r.audio.cues == h.audio.cues + (if s.fired then [c] else [])
      && IsPlayed(r.v.played, c) == (IsPlayed(h.v.played, c) || s.fired)
    ensures SameExcept(r.v.played, h.v.played, c)
    ensures r.v == h.v.(played := r.v.played) && r.audio == h.audio.(cues := r.audio.cues)
    ensures r.gauges == h.gauges && r.icons == h.icons
  {
    if pct <= Threshold(c) && !IsPlayed(h.v.played, c) && h.v.seatbeltBuckled then
      h.(v := h.v.(played := MarkPlayed(h.v.played, c)), audio := h.audio.(cues := h.audio.cues + [c]))
    else h
  }

  /** The reset that follows: the latch of c clears once the percentage is
      above the threshold. */
  function Rearm(h: Hud, c: Cue, pct: real): (r: Hud)
    ensures IsPlayed(r.v.played, c) == (IsPlayed(h.v.played, c) && pct <= Threshold(c))
    ensures SameExcept(r.v.played, h.v.played, c)
    ensures r == h.(v := h.v.(played := r.v.played))
  {
    if pct > Threshold(c) then h.(v := h.v.(played := ClearPlayed(h.v.played, c))) else h
  }

  /** The live checks of updateEngineIcon (script order: check warn1, check
      warn2, reset warn1, reset warn2): each of warn1 and warn2 behaves as one
      Latch step of its threshold, warn1 sounding before warn2, and nothing
      but those two latches and the cue log changes. */
  lemma EngineChecks(h: Hud, pct: real)
    ensures var r := Rearm(Rearm(PlayOnce(PlayOnce(h, Warn1, pct), Warn2, pct), Warn1, pct), Warn2, pct);
      var s1 := Latch(pct, 50.0, h.v.played.warn1, h.v.seatbeltBuckled);
      var s2 := Latch(pct, 20.0, h.v.played.warn2, h.v.seatbeltBuckled);
      && r.v.played == h.v.played.(warn1 := s1.played, warn2 := s2.played)
      && r.audio.cues == h.audio.cues + (if s1.fired then [Warn1] else []) + (if s2.fired then [Warn2] else [])
      && r == h.(v := h.v.(played := r.v.played), audio := h.audio.(cues := r.audio.cues))
  {
    var a := PlayOnce(h, Warn1, pct);
    var b := PlayOnce(a, Warn2, pct);
    var x := Rearm(b, Warn1, pct);
    var y := Rearm(x, Warn2, pct);
  }

  /** The same for the fuel50 and fuel10 checks of updateFuelIcon. */
  lemma FuelChecks(h: Hud, pct: real)
    ensures var r := Rearm(Rearm(PlayOnce(PlayOnce(h, Fuel50, pct), Fuel10, pct), Fuel50, pct), Fuel10, pct);
      var s1 := Latch(pct, 50.0, h.v.played.fuel50, h.v.seatbeltBuckled);
      var s2 := Latch(pct, 10.0, h.v.played.fuel10, h.v.seatbeltBuckled);
      && r.v.played == h.v.played.(fuel50 := s1.played, fuel10 := s2.played)
      && r.audio.cues == h.audio.cues + (if s1.fired then [Fuel50] else []) + (if s2.fired then [Fuel10] else [])
      && r == h.(v := h.v.(played := r.v.played), audio := h.audio.(cues := r.audio.cues))
  {
    var a := PlayOnce(h, Fuel50, pct);
    var b := PlayOnce(a, Fuel10, pct);
    var x := Rearm(b, Fuel50, pct);
    var y := Rearm(x, Fuel10, pct);
  }

  /** updateEngineIcon: with the engine off it only greys the icon; with the
      engine on it runs the warn1 (50) and warn2 (20) checks, gated on the
      seatbelt, and colours the icon by health tier. */
  function UpdateEngineIcon(h: Hud): (r: Hud)
    ensures !h.v.engineOn ==> r == h.(icons := h.icons.(engineIcon := Dark))
    ensures r.icons == h.icons.(engineIcon := TierFor(h.v.engineOn, h.v.engineHealth * 100.0))
    ensures r.v == h.v.(played := r.v.played) && r.gauges == h.gauges
    ensures r.audio == h.audio.(cues := r.audio.cues)
    ensures r.v.played.fuel50 == h.v.played.fuel50 && r.v.played.fuel10 == h.v.played.fuel10
    ensures h.v.engineOn ==>
      var pct := h.v.engineHealth * 100.0;
      var s1 := Latch(pct, 50.0, h.v.played.warn1, h.v.seatbeltBuckled);
      var s2 := Latch(pct, 20.0, h.v.played.warn2, h.v.seatbeltBuckled);
      && r.v.played == h.v.played.(warn1 := s1.played, warn2 := s2.played)
      && r.audio.cues == h.audio.cues + (if s1.fired then [Warn1] else []) + (if s2.fired then [Warn2] else [])
  {
    if !h.v.engineOn then h.(icons := h.icons.(engineIcon := Dark))
    else
      var pct := h.v.engineHealth * 100.0;
      EngineChecks(h, pct);
      var h1 := PlayOnce(PlayOnce(h, Warn1, pct), Warn2, pct);
      var h2 := Rearm(Rearm(h1, Warn1, pct), Warn2, pct);
      h2.(icons := h2.icons.(engineIcon := TierFor(true, pct)))
  }

  /** updateFuelIcon(pct): the same for fuel50 (50) and fuel10 (10). */
  function UpdateFuelIcon(h: Hud, pct: real): (r: Hud)
    ensures !h.v.engineOn ==> r == h.(icons := h.icons.(fuelIcon := Dark))
    ensures r.icons == h.icons.(fuelIcon := TierFor(h.v.engineOn, pct))
    ensures r.v == h.v.(played := r.v.played) && r.gauges == h.gauges
    ensures r.audio == h.audio.(cues := r.audio.cues)
    ensures r.v.played.warn1 == h.v.played.warn1 && r.v.played.warn2 == h.v.played.warn2
    ensures h.v.engineOn ==>
      var s1 := Latch(pct, 50.0, h.v.played.fuel50, h.v.seatbeltBuckled);
      var s2 := Latch(pct, 10.0, h.v.played.fuel10, h.v.seatbeltBuckled);
      && r.v.played == h.v.played.(fuel50 := s1.played, fuel10 := s2.played)
      && r.audio.cues == h.audio.cues + (if s1.fired then [Fuel50] else []) + (if s2.fired then [Fuel10] else [])
  {
    if !h.v.engineOn then h.(icons := h.icons.(fuelIcon := Dark))
    else
      FuelChecks(h, pct);
      var h1 := PlayOnce(PlayOnce(h, Fuel50, pct), Fuel10, pct);
      var h2 := Rearm(Rearm(h1, Fuel50, pct), Fuel10, pct);
      h2.(icons := h2.icons.(fuelIcon := TierFor(true, pct)))
  }

  /** setHealth: clamps and stores the fraction (also as the engine health),
      colours the bar and runs updateEngineIcon. With the engine on and the
      belt buckled, warn1 fires when health is at most 50% and warn2 when at
      most 20%, each only if its latch is clear, warn1 first; a latch is then
      set exactly while health stays at or below its threshold. With the
      engine off no cue fires and no latch changes. */
  function SetHealth(h: Hud, val: real): (r: Hud)
    ensures r.v.storedHealth == Clamp01(val) && r.v.engineHealth == r.v.storedHealth
    ensures r.gauges.healthBar == TierFor(h.v.engineOn, Clamp01(val) * 100.0)
    ensures r.icons.engineIcon == r.gauges.healthBar
    ensures !h.v.engineOn ==> r.audio == h.audio && r.v.played == h.v.played
    ensures h.v.engineOn ==>
      var pct := Clamp01(val) * 100.0;
      && r.audio.cues == h.audio.cues
           + (if pct <= 50.0 && !h.v.played.warn1 && h.v.seatbeltBuckled then [Warn1] else [])
           + (if pct <= 20.0 && !h.v.played.warn2 && h.v.seatbeltBuckled then [Warn2] else [])
      && r.v.played.warn1 == (pct <= 50.0 && (h.v.played.warn1 || h.v.seatbeltBuckled))
      && r.v.played.warn2 == (pct <= 20.0 && (h.v.played.warn2 || h.v.seatbeltBuckled))
    ensures r.v.played.fuel50 == h.v.played.fuel50 && r.v.played.fuel10 == h.v.played.fuel10
    ensures r.v == h.v.(storedHealth := r.v.storedHealth, engineHealth := r.v.engineHealth,
                        played := r.v.played)
    ensures r.audio == h.audio.(cues := r.audio.cues)
    ensures r.gauges == h.gauges.(healthBar := r.gauges.healthBar)
    ensures r.icons == h.icons.(engineIcon := r.icons.engineIcon)
  {
    var p := Clamp01(val);
    var percentage := p * 100.0;
    UpdateEngineIcon(Hud(h.v.(storedHealth := p, engineHealth := p), h.audio,
                         h.gauges.(healthBar := TierFor(h.v.engineOn, percentage)), h.icons))
  }

  /** setFuel: clamps and stores the fraction, colours the bar and runs
      updateFuelIcon with the thresholds 50 (fuel50) and 10 (fuel10). */
  function SetFuel(h: Hud, val: real): (r: Hud)
    ensures r.v.storedFuel == Clamp01(val)
    ensures r.gauges.fuelBar == TierFor(h.v.engineOn, Clamp01(val) * 100.0)
    ensures r.icons.fuelIcon == r.gauges.fuelBar
    ensures !h.v.engineOn ==> r.audio == h.audio && r.v.played == h.v.played
    ensures h.v.engineOn ==>
      var pct := Clamp01(val) * 100.0;
      && r.audio.cues == h.audio.cues
           + (if pct <= 50.0 && !h.v.played.fuel50 && h.v.seatbeltBuckled then [Fuel50] else [])
           + (if pct <= 10.0 && !h.v.played.fuel10 && h.v.seatbeltBuckled then [Fuel10] else [])
      && r.v.played.fuel50 == (pct <= 50.0 && (h.v.played.fuel50 || h.v.seatbeltBuckled))
      && r.v.played.fuel10 == (pct <= 10.0 && (h.v.played.fuel10 || h.v.seatbeltBuckled))
    ensures r.v.played.warn1 == h.v.played.warn1 && r.v.played.warn2 == h.v.played.warn2
    ensures r.v == h.v.(storedFuel := r.v.storedFuel, played := r.v.played)
    ensures r.audio == h.audio.(cues := r.audio.cues)
    ensures r.gauges == h.gauges.(fuelBar := r.gauges.fuelBar)
    ensures r.icons == h.icons.(fuelIcon := r.icons.fuelIcon)
  {
    var p := Clamp01(val);
    var percentage := p * 100.0;
    UpdateFuelIcon(Hud(h.v.(storedFuel := p), h.audio,
                       h.gauges.(fuelBar := TierFor(h.v.engineOn, percentage)), h.icons), percentage)
  }

  /** setGear: the gear text and the gear-reverse class, which is on exactly
      when the text is "R". */
  function SetGear(h: Hud, gear: int): (r: Hud)
    ensures r.gauges.gearText == GearTextFor(h.v.engineOn, gear, h.v.hasMoved)
    ensures r.gauges.gearReverse <==> h.v.engineOn && gear == 0 && h.v.hasMoved
    ensures r == h.(gauges := h.gauges.(gearText := r.gauges.gearText, gearReverse := r.gauges.gearReverse))
  {
    var text := GearTextFor(h.v.engineOn, gear, h.v.hasMoved);
    h.(gauges := h.gauges.(gearText := text, gearReverse := text == R))
  }

  /** setSpeed with the rounded display value: shows it, notes any movement
      whatever the engine state, and colours it by band. */
  function SetSpeed(h: Hud, val: nat): (r: Hud)
    ensures r.gauges.speedText == val
    ensures r.v.hasMoved <==> h.v.hasMoved || val > 0
    ensures r.gauges.speedColour == SpeedColourFor(h.v.engineOn, val)
    ensures r == Hud(h.v.(hasMoved := r.v.hasMoved), h.audio,
                     h.gauges.(speedText := val, speedColour := r.gauges.speedColour), h.icons)
  {
    var g := h.gauges.(speedText := val);
    var v := if val > 0 then h.v.(hasMoved := true) else h.v;
    Hud(v, h.audio, g.(speedColour := SpeedColourFor(v.engineOn, val)), h.icons)
  }

  /** setRPM: only the RPM box changes. */
  function SetRPM(h: Hud, rpm: real): (r: Hud)
    ensures r == h.(gauges := h.gauges.(rpm := RpmBoxFor(rpm)))
  {
    h.(gauges := h.gauges.(rpm := RpmBoxFor(rpm)))
  }

  /** setSeatbelts. On a motorcycle it only stops the seatbelt loop (the flag
      is not stored, the alarm is left alone). Otherwise it stores the flag,
      sets the icon, and plays the seatbelt and alarm loops together exactly
      when unbuckled with the engine on. It never runs a warning check. */
  function SetSeatbelts(h: Hud, isBuckled: bool): (r: Hud)
    ensures h.v.isMotorcycle ==>
      r == h.(audio := h.audio.(seatbeltWarning := ManageLoop(h.audio.seatbeltWarning, false)))
    ensures !h.v.isMotorcycle ==>
      && r.v == h.v.(seatbeltBuckled := isBuckled)
      && (r.audio.seatbeltWarning.paused <==> isBuckled || !h.v.engineOn)
      && r.audio.alarm.paused == r.audio.seatbeltWarning.paused
      && r.icons == h.icons.(seatbeltIcon := if !h.v.engineOn then BeltGrey
                                             else if isBuckled then BeltGreen else BeltFlashing)
    ensures r.audio.cues == h.audio.cues && r.audio.pending == h.audio.pending && r.audio.tick == h.audio.tick
    ensures r.v.played == h.v.played && r.gauges == h.gauges
  {
    if h.v.isMotorcycle then
      h.(audio := ManageLoopingAudio(h.audio, SeatbeltWarning, false))
    else
      var v := h.v.(seatbeltBuckled := isBuckled);
      var icons := h.icons.(seatbeltIcon := if !v.engineOn then BeltGrey
                                            else if isBuckled then BeltGreen else BeltFlashing);
      var shouldPlay := !isBuckled && v.engineOn;
      var audio := ManageLoopingAudio(ManageLoopingAudio(h.audio, SeatbeltWarning, shouldPlay), Alarm, shouldPlay);
      Hud(v, audio, h.gauges, icons)
  }

  /** setVehicleType: `kind == "motorcycle"` decides the flag; a motorcycle
      hides the seatbelt icon and stops both seatbelt loops. */
  function SetVehicleType(h: Hud, kind: string): (r: Hud)
    ensures r.v == h.v.(isMotorcycle := kind == "motorcycle")
    ensures r.icons == h.icons.(seatbeltShown := kind != "motorcycle")
    ensures kind == "motorcycle" ==> r.audio == StopSeatbeltLoops(h.audio)
    ensures kind != "motorcycle" ==> r.audio == h.audio
    ensures r.gauges == h.gauges
  {
    var v := h.v.(isMotorcycle := kind == "motorcycle");
    if v.isMotorcycle then
      Hud(v, StopSeatbeltLoops(h.audio), h.gauges, h.icons.(seatbeltShown := false))
    else
      Hud(v, h.audio, h.gauges, h.icons.(seatbeltShown := true))
  }

  /** playStartupWarnings: the four blocks, in order, each deferring its cue
      when due; the latches are left alone (each is set only when its timer
      fires). */
  function PlayStartupWarnings(h: Hud): (r: Hud)
    ensures r == h.(audio := h.audio.(pending := r.audio.pending))
  {
    var hp, fp, p := h.v.engineHealth * 100.0, h.v.storedFuel * 100.0, h.v.played;
    var s0 := Sequencer(h.audio.pending, 0);
    var s1 := Defer(s0, hp <= 50.0 && !p.warn1, Warn1);
    var s2 := Defer(s1, hp <= 20.0 && !p.warn2, Warn2);
    var s3 := Defer(s2, fp <= 50.0 && !p.fuel50, Fuel50);
    var s4 := Defer(s3, fp <= 10.0 && !p.fuel10, Fuel10);
    h.(audio := h.audio.(pending := s4.pending))
  }

  /** playStartupWarnings appends the startup schedule of the current health,
      fuel and latches to the pending timers. */
  lemma StartupWarningsSchedule(h: Hud)
    ensures PlayStartupWarnings(h) == h.(audio := h.audio.(pending := h.audio.pending
              + StartupSchedule(h.v.engineHealth * 100.0, h.v.storedFuel * 100.0, h.v.played)))
  {
    var hp, fp, p := h.v.engineHealth * 100.0, h.v.storedFuel * 100.0, h.v.played;
    var q := h.audio.pending;
    assert q + [] == q;
    DeferEnqueue(q, [], Due(Warn1, hp, fp, p), Warn1);
    var t1 := Enqueue([], Due(Warn1, hp, fp, p), Warn1);
    DeferEnqueue(q, t1, Due(Warn2, hp, fp, p), Warn2);
    var t2 := Enqueue(t1, Due(Warn2, hp, fp, p), Warn2);
    DeferEnqueue(q, t2, Due(Fuel50, hp, fp, p), Fuel50);
    var t3 := Enqueue(t2, Due(Fuel50, hp, fp, p), Fuel50);
    DeferEnqueue(q, t3, Due(Fuel10, hp, fp, p), Fuel10);
  }

  function RemoveAt<T>(s: seq<T>, i: nat): (r: seq<T>)
    requires i < |s|
    ensures |r| == |s| - 1
    ensures forall k :: 0 <= k < i ==> r[k] == s[k]
    ensures forall k :: i <= k < |r| ==> r[k] == s[k + 1]
  {
    s[..i] + s[i + 1..]
  }

  /** A deferred startup cue elapses: it leaves the pending list, plays, and
      sets its latch, whatever the state is by then (timers are not
      cancelled or re-checked). */
  function FireTimer(h: Hud, i: nat): (r: Hud)
    requires i < |h.audio.pending|
    ensures r.audio.cues == h.audio.cues + [h.audio.pending[i].cue]
    ensures IsPlayed(r.v.played, h.audio.pending[i].cue)
    ensures forall c :: c != h.audio.pending[i].cue ==> IsPlayed(r.v.played, c) == IsPlayed(h.v.played, c)
    ensures r.audio.pending == RemoveAt(h.audio.pending, i)
    ensures r.v == h.v.(played := r.v.played) && r.gauges == h.gauges && r.icons == h.icons
    ensures r.audio == h.audio.(cues := r.audio.cues, pending := r.audio.pending)
  {
    var t := h.audio.pending[i];
    var audio := PlayOnceAudio(h.audio.(pending := RemoveAt(h.audio.pending, i)), t.cue);
    Hud(h.v.(played := MarkPlayed(h.v.played, t.cue)), audio, h.gauges, h.icons)
  }

  /** toggleIcon for an indicator: sets its `active` state. */
  function ToggleIcon(h: Hud, side: Side, on: bool): (r: Hud)
    ensures side == Left ==> r.v.leftActive == on && r.v.rightActive == h.v.rightActive
    ensures side == Right ==> r.v.rightActive == on && r.v.leftActive == h.v.leftActive
    ensures r == h.(v := h.v.(leftActive := r.v.leftActive, rightActive := r.v.rightActive))
  {
    match side
    case Left => h.(v := h.v.(leftActive := on))
    case Right => h.(v := h.v.(rightActive := on))
  }

  /** updateIndicators: the active icons blink and the tick loop plays while
      either is active. */
  function UpdateIndicators(h: Hud): (r: Hud)
    ensures r.icons == h.icons.(leftBlinking := h.v.leftActive, rightBlinking := h.v.rightActive)
    ensures !r.audio.tick.paused <==> h.v.leftActive || h.v.rightActive
    ensures r.audio == h.audio.(tick := r.audio.tick)
    ensures r.v == h.v && r.gauges == h.gauges
  {
    var icons := h.icons.(leftBlinking := h.v.leftActive, rightBlinking := h.v.rightActive);
    Hud(h.v, ManageLoopingAudio(h.audio, Tick, h.v.leftActive || h.v.rightActive), h.gauges, icons)
  }

  function SetLeftIndicator(h: Hud, on: bool): (r: Hud)
    ensures r.v == h.v.(leftActive := on)
    ensures r.icons == h.icons.(leftBlinking := on, rightBlinking := h.v.rightActive)
    ensures !r.audio.tick.paused <==> on || h.v.rightActive
    ensures r.audio == h.audio.(tick := r.audio.tick) && r.gauges == h.gauges
  {
    UpdateIndicators(ToggleIcon(h, Left, on))
  }

  function SetRightIndicator(h: Hud, on: bool): (r: Hud)
    ensures r.v == h.v.(rightActive := on)
    ensures r.icons == h.icons.(rightBlinking := on, leftBlinking := h.v.leftActive)
    ensures !r.audio.tick.paused <==> on || h.v.leftActive
    ensures r.audio == h.audio.(tick := r.audio.tick) && r.gauges == h.gauges
  {
    UpdateIndicators(ToggleIcon(h, Right, on))
  }

  /** setHeadlights: only the two lamp icons change. */
  function SetHeadlights(h: Hud, level: int): (r: Hud)
    ensures (r.icons.lowBeam, r.icons.highBeam) == Headlights(level, h.icons.lowBeam, h.icons.highBeam)
    ensures r == h.(icons := h.icons.(lowBeam := r.icons.lowBeam, highBeam := r.icons.highBeam))
  {
    var lamps := Headlights(level, h.icons.lowBeam, h.icons.highBeam);
    h.(icons := h.icons.(lowBeam := lamps.0, highBeam := lamps.1))
  }

  /** setEngine. Setting the current state does nothing. Turning off clears
      hasMoved, shows "N", stops the seatbelt and alarm loops, re-applies the
      stored health and fuel (greying them) and blanks the RPM box. Turning
      on shows setGear(0), clears the four latches, re-applies the stored
      health and fuel (which may latch them again at once), refreshes the
      seatbelt (or silences it on a motorcycle) and, when buckled, runs the
      startup sequencer. Both then refresh the engine icon and the indicator
      icons and re-apply the displayed speed. */
  function SetEngine(h: Hud, on: bool): (r: Hud)
    ensures on == h.v.engineOn ==> r == h
    ensures r.v.engineOn == on
  {
    if h.v.engineOn == on then h
    else
      var h1 := h.(v := h.v.(engineOn := on));
      Refresh(if !on then EngineOff(h1) else EngineOn(h1))
  }

  /** The common tail of setEngine: the engine icon is updated, the indicator
      icons are re-toggled to their own state (a no-op) and the displayed
      speed is re-applied. */
  function Refresh(h: Hud): (r: Hud)
    ensures r.v == UpdateEngineIcon(h).v.(hasMoved := h.v.hasMoved || h.gauges.speedText > 0)
    ensures r.audio == UpdateEngineIcon(h).audio && r.icons == UpdateEngineIcon(h).icons
    ensures r.gauges == h.gauges.(speedColour := SpeedColourFor(h.v.engineOn, h.gauges.speedText))
  {
    var h3 := UpdateEngineIcon(h);
    var h4 := ToggleIcon(h3, Left, h3.v.leftActive);
    var h5 := ToggleIcon(h4, Right, h4.v.rightActive);
    // the displayed integer speed, converted back and forth, is re-applied
    SetSpeed(h5, h5.gauges.speedText)
  }

  /** The engine-off branch of setEngine, entered with engineOn already false. */
  function EngineOff(h: Hud): (r: Hud)
    requires !h.v.engineOn
    ensures !r.v.engineOn
  {
    // setGear('N'): with the engine off the text is "N" for any argument
    var h1 := SetGear(h.(v := h.v.(hasMoved := false)), 0);
    var h2 := h1.(audio := StopSeatbeltLoops(h1.audio));
    var h3 := SetHealth(h2, h2.v.storedHealth);
    var h4 := SetFuel(h3, h3.v.storedFuel);
    SetRPM(h4, 0.0)
  }

  /** The engine-on branch of setEngine, entered with engineOn already true. */
  function EngineOn(h: Hud): (r: Hud)
    requires h.v.engineOn
    ensures r.v.engineOn
  {
    var g := SetGear(h, 0);
    var h1 := g.(v := g.v.(played := NonePlayed));
    var h2 := SetHealth(h1, h1.v.storedHealth);
    var h3 := SetFuel(h2, h2.v.storedFuel);
    StartupChecks(h3)
  }

  /** The end of the engine-on branch: the seatbelt loops are silenced on a
      motorcycle and refreshed by setSeatbelts otherwise; then, when
      buckled, the startup sequencer runs. */
  function StartupChecks(h: Hud): (r: Hud)
    ensures h.v.isMotorcycle ==> r.audio.seatbeltWarning.paused && r.audio.alarm.paused && r.icons == h.icons
    ensures !h.v.isMotorcycle ==>
      && (r.audio.seatbeltWarning.paused <==> h.v.seatbeltBuckled || !h.v.engineOn)
      && r.audio.alarm.paused == r.audio.seatbeltWarning.paused
      && r.icons == h.icons.(seatbeltIcon := if !h.v.engineOn then BeltGrey
                                             else if h.v.seatbeltBuckled then BeltGreen else BeltFlashing)
    ensures r.audio.pending == h.audio.pending + if h.v.seatbeltBuckled then
      StartupSchedule(h.v.engineHealth * 100.0, h.v.storedFuel * 100.0, h.v.played) else []
    ensures r.v == h.v && r.gauges == h.gauges
    ensures r.audio.cues == h.audio.cues && r.audio.tick == h.audio.tick
  {
    var h4 := if h.v.isMotorcycle then h.(audio := StopSeatbeltLoops(h.audio))
              else SetSeatbelts(h, h.v.seatbeltBuckled);
    if h4.v.seatbeltBuckled then StartupWarningsSchedule(h4); PlayStartupWarnings(h4) else h4
  }
}
