/** Pure classifiers the dashboard uses to turn its state into presentation
    tokens: clamping of fractions, the colour tier of the health and fuel bars
    and icons, the speed colour bands, the gear text, the RPM box and the
    headlight lamps. Exact colour strings, glows and SVG filter ids are reduced
    to the tokens below. */
module Presentation {

  /** Math.max(0, Math.min(1, v)). */
  function Clamp01(v: real): (r: real)
    ensures 0.0 <= r <= 1.0
    ensures 0.0 <= v <= 1.0 ==> r == v
    ensures v < 0.0 ==> r == 0.0
    ensures v > 1.0 ==> r == 1.0
  {
    if v < 0.0 then 0.0 else if v > 1.0 then 1.0 else v
  }

  /** Colour tier shared by the health/fuel bars (transparent, green, yellow,
      red) and the engine/fuel icons (grey and dimmed, high, medium, low). */
  datatype Tier = Dark | High | Medium | Low

  /** The tier for a percentage (fraction times 100): dark with the engine
      off, otherwise breakpoints at 50 and 25. */
  function TierFor(engineOn: bool, pct: real): (t: Tier)
    ensures t == Dark <==> !engineOn
    ensures engineOn ==> (t == High <==> pct >= 50.0)
    ensures engineOn ==> (t == Medium <==> 25.0 <= pct < 50.0)
    ensures engineOn ==> (t == Low <==> pct < 25.0)
  {
    if !engineOn then Dark
    else if pct >= 50.0 then High
    else if pct >= 25.0 then Medium
    else Low
  }

  /** How bad a tier is, for the monotonicity lemma below. */
  function Severity(t: Tier): (r: nat)
  {
    match t
    case Dark => 0
    case High => 1
    case Medium => 2
    case Low => 3
  }

  /** With the engine on, a higher percentage never yields a worse tier. */
  lemma TierMonotone(p: real, q: real)
    requires p <= q
    ensures Severity(TierFor(true, q)) <= Severity(TierFor(true, p))
  {
  }

  datatype SpeedColour = White | Green | Yellow | Red

  /** Colour of the speed read-out for the rounded display value. */
  function SpeedColourFor(engineOn: bool, val: nat): (c: SpeedColour)
    ensures !engineOn ==> c == White
    ensures engineOn ==> (c == White <==> val == 0)
    ensures engineOn ==> (c == Green <==> 1 <= val <= 40)
    ensures engineOn ==> (c == Yellow <==> 41 <= val <= 50)
    ensures engineOn ==> (c == Red <==> val > 50)
  {
    if !engineOn then White
    else if 1 <= val <= 40 then Green
    else if 41 <= val <= 50 then Yellow
    else if val > 50 then Red
    else White
  }

  /** The gear read-out: "N", "R" or the gear number. */
  datatype GearText = N | R | Number(gear: nat)

  /** The text setGear shows for a numeric gear. */
  function GearTextFor(engineOn: bool, gear: int, hasMoved: bool): (t: GearText)
    ensures t == R <==> engineOn && gear == 0 && hasMoved
    ensures t.Number? <==> engineOn && gear > 0
    ensures t.Number? ==> t.gear == gear
    ensures !engineOn ==> t == N
  {
    if !engineOn then N
    else if gear > 0 then Number(gear)
    else if gear == 0 && hasMoved then R
    else N
  }

  /** Math.round for a non-negative argument: the nearest integer, halves
      rounded up. */
  function RoundHalfUp(x: real): (n: nat)
    requires x >= 0.0
    ensures n as real - 0.5 <= x < n as real + 0.5
  {
    (x + 0.5).Floor
  }

  /** The RPM number shown in the box: the clamped fraction scaled to 0..8000. */
  function RpmValue(rpm: real): (n: nat)
    ensures n <= 8000
    ensures n as real - 0.5 <= Clamp01(rpm) * 8000.0 < n as real + 0.5
  {
    RoundHalfUp(Clamp01(rpm) * 8000.0)
  }

  /** The RPM box: empty and unlit, lit ("on") with a value, or in the
      red-line style with a value. */
  datatype RpmBox = Blank | Lit(value: nat) | Redline(value: nat)

  function RpmBoxFor(rpm: real): (b: RpmBox)
    ensures b == Blank <==> rpm <= 0.1
    ensures b.Redline? <==> rpm > 0.8
    ensures b.Lit? <==> 0.1 < rpm <= 0.8
    ensures b != Blank ==> b.value == RpmValue(rpm)
  {
    if rpm > 0.1 then
      if rpm > 0.8 then Redline(RpmValue(rpm)) else Lit(RpmValue(rpm))
    else
      Blank
  }

  datatype Opacity = Opaque | Dimmed | Invisible

  /** A headlight icon: whether its image carries the active filter, and its
      opacity. */
  datatype Lamp = Lamp(activeFilter: bool, opacity: Opacity)

  const LampOff := Lamp(false, Dimmed)
  const LampOn := Lamp(true, Opaque)

  /** The low- and high-beam icons after setHeadlights(level). Level 1 lights
      the low beam and hides the high beam, level 2 the reverse (the hidden
      lamp keeps its filter), anything else greys both. */
  function Headlights(level: int, low: Lamp, high: Lamp): (lamps: (Lamp, Lamp))
    ensures lamps.0 == LampOn <==> level == 1
    ensures lamps.1 == LampOn <==> level == 2
    ensures level == 1 ==> lamps.1.opacity == Invisible && lamps.1.activeFilter == high.activeFilter
    ensures level == 2 ==> lamps.0.opacity == Invisible && lamps.0.activeFilter == low.activeFilter
    ensures level != 1 && level != 2 ==> lamps.0 == LampOff && lamps.1 == LampOff
    ensures !(lamps.0.opacity == Opaque && lamps.1.opacity == Opaque)
  {
    if level == 1 then (LampOn, high.(opacity := Invisible))
    else if level == 2 then (low.(opacity := Invisible), LampOn)
    else (LampOff, LampOff)
  }

  /** Setting the same headlight level twice is the same as setting it once. */
  lemma HeadlightsIdempotent(level: int, low: Lamp, high: Lamp)
    ensures var once := Headlights(level, low, high);
            Headlights(level, once.0, once.1) == once
  {
  }
}
