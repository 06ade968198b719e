/** The latched threshold warnings: one-shot cues that fire once per downward
    crossing of a threshold and re-arm when the metric recovers above it, and
    the startup sequencer that lays the due cues out 1500 ms apart. */
module Warnings {

  /** The four one-shot warning cues. */
  datatype Cue = Warn1 | Warn2 | Fuel50 | Fuel10

  /** The four hasPlayed* latches. */
  datatype Played = Played(warn1: bool, warn2: bool, fuel50: bool, fuel10: bool)

  const NonePlayed := Played(false, false, false, false)

  function IsPlayed(p: Played, c: Cue): (b: bool)
  {
    match c
    case Warn1 => p.warn1
    case Warn2 => p.warn2
    case Fuel50 => p.fuel50
    case Fuel10 => p.fuel10
  }

  /** Sets the latch of cue c and leaves the other three alone. */
  function MarkPlayed(p: Played, c: Cue): (q: Played)
    ensures IsPlayed(q, c)
    ensures forall d :: d != c ==> IsPlayed(q, d) == IsPlayed(p, d)
  {
    match c
    case Warn1 => p.(warn1 := true)
    case Warn2 => p.(warn2 := true)
    case Fuel50 => p.(fuel50 := true)
    case Fuel10 => p.(fuel10 := true)
  }

  /** Clears the latch of cue c and leaves the other three alone. */
  function ClearPlayed(p: Played, c: Cue): (q: Played)
    ensures !IsPlayed(q, c)
    ensures forall d :: d != c ==> IsPlayed(q, d) == IsPlayed(p, d)
  {
    match c
    case Warn1 => p.(warn1 := false)
    case Warn2 => p.(warn2 := false)
    case Fuel50 => p.(fuel50 := false)
    case Fuel10 => p.(fuel10 := false)
  }

  /** p and q agree on every latch except possibly that of cue c. */
  predicate SameExcept(p: Played, q: Played, c: Cue)
  {
    match c
    case Warn1 => p.warn2 == q.warn2 && p.fuel50 == q.fuel50 && p.fuel10 == q.fuel10
    case Warn2 => p.warn1 == q.warn1 && p.fuel50 == q.fuel50 && p.fuel10 == q.fuel10
    case Fuel50 => p.warn1 == q.warn1 && p.warn2 == q.warn2 && p.fuel10 == q.fuel10
    case Fuel10 => p.warn1 == q.warn1 && p.warn2 == q.warn2 && p.fuel50 == q.fuel50
  }

  /** Position of a cue in the fixed severity order warn1, warn2, fuel50, fuel10. */
  function Rank(c: Cue): (r: nat)
  {
    match c
    case Warn1 => 0
    case Warn2 => 1
    case Fuel50 => 2
    case Fuel10 => 3
  }

  /** The threshold, on a 0..100 percentage, at or below which a cue is due. */
  function Threshold(c: Cue): (r: real)
  {
    match c
    case Warn1 => 50.0
    case Warn2 => 20.0
    case Fuel50 => 50.0
    case Fuel10 => 10.0
  }

  /** The result of one live check of one threshold: whether its cue fires
      now, and the new value of its latch. */
  datatype Step = Step(fired: bool, played: bool)

  /** One threshold check as updateEngineIcon/updateFuelIcon run it: the cue
      fires when the metric is at or below the threshold, the latch is clear
      and the gate (seatbelt buckled) is open; firing sets the latch, and a
      metric above the threshold clears it. */
  function Latch(pct: real, threshold: real, played: bool, gate: bool): (s: Step)
    ensures s.fired ==> pct <= threshold && !played && gate
    ensures pct <= threshold && !played && gate ==> s.fired
    ensures s.fired ==> s.played
    ensures pct > threshold ==> !s.played
    ensures pct <= threshold && played ==> s.played
    ensures !gate ==> !s.fired && (pct <= threshold ==> s.played == played)
  {
    var fired := pct <= threshold && !played && gate;
    Step(fired, if pct > threshold then false else played || fired)
  }

  /** With the gate open, the latch after a check records exactly whether the
      metric is at or below the threshold, whatever it was before. */
  lemma LatchRemembersLast(pct: real, threshold: real, played: bool)
    ensures Latch(pct, threshold, played, true).played == (pct <= threshold)
  {
  }

  /** How often a cue fires over successive live checks with the gate open. */
  function FireCount(pcts: seq<real>, threshold: real, played: bool): (r: nat)
    decreases |pcts|
  {
    if pcts == [] then 0
    else
      var s := Latch(pcts[0], threshold, played, true);
      (if s.fired then 1 else 0) + FireCount(pcts[1..], threshold, s.played)
  }

  /** Reference count of downward crossings of a threshold: positions where the
      metric is at or below it while the previous metric was above it
      (`wasBelow` stands for the metric before the first one). */
  function Crossings(pcts: seq<real>, threshold: real, wasBelow: bool): (r: nat)
    decreases |pcts|
  {
    if pcts == [] then 0
    else
      var below := pcts[0] <= threshold;
      (if below && !wasBelow then 1 else 0) + Crossings(pcts[1..], threshold, below)
  }

  /** Hysteresis: with the gate open, a cue fires exactly once per downward
      crossing of its threshold. A clear latch counts as "was above". */
  lemma {:induction false} FiresOncePerCrossing(pcts: seq<real>, threshold: real, played: bool)
    ensures FireCount(pcts, threshold, played) == Crossings(pcts, threshold, played)
    decreases |pcts|
  {
    if pcts != [] {
      LatchRemembersLast(pcts[0], threshold, played);
      FiresOncePerCrossing(pcts[1..], threshold, pcts[0] <= threshold);
    }
  }

  /** A down-up-down crossing fires the cue exactly twice. */
  lemma DownUpDownFiresTwice(a: real, b: real, c: real, threshold: real)
    requires a <= threshold < b && c <= threshold
    ensures FireCount([a, b, c], threshold, false) == 2
  {
    FiresOncePerCrossing([a, b, c], threshold, false);
    assert [a, b, c][1..] == [b, c];
    assert [b, c][1..] == [c];
    assert Crossings([c], threshold, false) == 1;
    assert Crossings([b, c], threshold, true) == 1;
  }

  /** Staying at or below the threshold never fires a latched cue again. */
  lemma {:induction false} NoRefireWhileBelow(pcts: seq<real>, threshold: real)
    requires forall i :: 0 <= i < |pcts| ==> pcts[i] <= threshold
    ensures FireCount(pcts, threshold, true) == 0
    decreases |pcts|
  {
    if pcts != [] {
      NoRefireWhileBelow(pcts[1..], threshold);
    }
  }

  /** True when c is due at startup: its metric is at or below its threshold
      and its latch is clear. */
  predicate Due(c: Cue, healthPct: real, fuelPct: real, p: Played)
  {
    (if c == Warn1 || c == Warn2 then healthPct else fuelPct) <= Threshold(c) && !IsPlayed(p, c)
  }

  /** The due cues in the fixed order warn1, warn2, fuel50, fuel10 (see
      DueCuesMembers and DueCuesOrdered). */
  function DueCues(healthPct: real, fuelPct: real, p: Played): (cs: seq<Cue>)
    ensures |cs| <= 4
  {
    (if Due(Warn1, healthPct, fuelPct, p) then [Warn1] else [])
    + (if Due(Warn2, healthPct, fuelPct, p) then [Warn2] else [])
    + (if Due(Fuel50, healthPct, fuelPct, p) then [Fuel50] else [])
    + (if Due(Fuel10, healthPct, fuelPct, p) then [Fuel10] else [])
  }

  /** A cue is in the list exactly when it is due. */
  lemma DueCuesMembers(healthPct: real, fuelPct: real, p: Played, c: Cue)
    ensures c in DueCues(healthPct, fuelPct, p) <==> Due(c, healthPct, fuelPct, p)
  {
  }

  /** The list follows the fixed severity order, so it has no repetition. */
  lemma DueCuesOrdered(healthPct: real, fuelPct: real, p: Played)
    ensures var cs := DueCues(healthPct, fuelPct, p);
      forall i, j :: 0 <= i < j < |cs| ==> Rank(cs[i]) < Rank(cs[j])
  {
  }

  /** A deferred cue: setTimeout(cue, delay) in milliseconds. */
  datatype Timer = Timer(delay: nat, cue: Cue)

  const Interval: nat := 1500

  /** Schedules the cues one interval apart, the first after `delay` ms. */
  function Spaced(cs: seq<Cue>, delay: nat): (ts: seq<Timer>)
    ensures |ts| == |cs|
    ensures forall i :: 0 <= i < |cs| ==> ts[i] == Timer(delay + Interval * i, cs[i])
    decreases |cs|
  {
    if cs == [] then [] else [Timer(delay, cs[0])] + Spaced(cs[1..], delay + Interval)
  }

  /** Scheduling one more cue after the others appends one timer, one
      interval after the last. */
  lemma SpacedSnoc(cs: seq<Cue>, c: Cue, delay: nat)
    ensures Spaced(cs + [c], delay) == Spaced(cs, delay) + [Timer(delay + Interval * |cs|, c)]
  {
    var l, r := Spaced(cs + [c], delay), Spaced(cs, delay) + [Timer(delay + Interval * |cs|, c)];
    forall i | 0 <= i < |l| ensures l[i] == r[i] {
      if i < |cs| { assert (cs + [c])[i] == cs[i]; }
    }
  }

  /** One step of playStartupWarnings: a due cue is scheduled one interval
      after the cue scheduled before it, the first at once. */
  function Enqueue(ts: seq<Timer>, due: bool, c: Cue): (r: seq<Timer>)
  {
    if due then ts + [Timer(Interval * |ts|, c)] else ts
  }

  /** The timers set so far by playStartupWarnings and the delay for the
      next one. */
  datatype Sequencer = Sequencer(pending: seq<Timer>, delay: nat)

  /** One block of playStartupWarnings: when the cue is due, a timer is set
      for it at the current delay and the delay moves on by one interval. */
  function Defer(s: Sequencer, due: bool, c: Cue): (r: Sequencer)
  {
    if due then Sequencer(s.pending + [Timer(s.delay, c)], s.delay + Interval) else s
  }

  /** Deferring after the timers ts agrees with enqueueing onto ts. */
  lemma DeferEnqueue(q: seq<Timer>, ts: seq<Timer>, due: bool, c: Cue)
    ensures Defer(Sequencer(q + ts, Interval * |ts|), due, c)
         == Sequencer(q + Enqueue(ts, due, c), Interval * |Enqueue(ts, due, c)|)
  {
    if due {
      assert q + ts + [Timer(Interval * |ts|, c)] == q + (ts + [Timer(Interval * |ts|, c)]);
    }
  }

  /** What playStartupWarnings schedules, step by step in the fixed order. */
  function StartupSchedule(healthPct: real, fuelPct: real, p: Played): (ts: seq<Timer>)
    ensures |ts| <= 4
  {
    var t1 := Enqueue([], Due(Warn1, healthPct, fuelPct, p), Warn1);
    var t2 := Enqueue(t1, Due(Warn2, healthPct, fuelPct, p), Warn2);
    var t3 := Enqueue(t2, Due(Fuel50, healthPct, fuelPct, p), Fuel50);
    Enqueue(t3, Due(Fuel10, healthPct, fuelPct, p), Fuel10)
  }

  /** A step of the sequencer agrees with the reference spacing. */
  lemma EnqueueSpaced(cs: seq<Cue>, due: bool, c: Cue)
    ensures Enqueue(Spaced(cs, 0), due, c) == Spaced(cs + (if due then [c] else []), 0)
  {
    if due {
      SpacedSnoc(cs, c, 0);
    } else {
      assert cs + [] == cs;
    }
  }

  /** The schedule is the due cues spaced one interval apart from 0 ms. */
  lemma StartupScheduleSpaced(healthPct: real, fuelPct: real, p: Played)
    ensures StartupSchedule(healthPct, fuelPct, p) == Spaced(DueCues(healthPct, fuelPct, p), 0)
  {
    var d1 := if Due(Warn1, healthPct, fuelPct, p) then [Warn1] else [];
    var d2 := if Due(Warn2, healthPct, fuelPct, p) then [Warn2] else [];
    var d3 := if Due(Fuel50, healthPct, fuelPct, p) then [Fuel50] else [];
    var d4 := if Due(Fuel10, healthPct, fuelPct, p) then [Fuel10] else [];
    assert Spaced([], 0) == [];
    EnqueueSpaced([], Due(Warn1, healthPct, fuelPct, p), Warn1);
    assert [] + d1 == d1;
    EnqueueSpaced(d1, Due(Warn2, healthPct, fuelPct, p), Warn2);
    EnqueueSpaced(d1 + d2, Due(Fuel50, healthPct, fuelPct, p), Fuel50);
    EnqueueSpaced(d1 + d2 + d3, Due(Fuel10, healthPct, fuelPct, p), Fuel10);
  }

  /** The startup schedule holds at most four timers, at 0, 1500, 3000 and
      4500 ms; it holds a timer for a cue exactly when the cue is due, and
      the timers follow the fixed severity order. */
  lemma StartupScheduleShape(healthPct: real, fuelPct: real, p: Played)
    ensures var ts := StartupSchedule(healthPct, fuelPct, p);
      && |ts| <= 4
      && (forall i :: 0 <= i < |ts| ==> ts[i].delay == Interval * i <= 4500)
      && (forall c :: (exists i :: 0 <= i < |ts| && ts[i].cue == c) <==> Due(c, healthPct, fuelPct, p))
      && (forall i, j :: 0 <= i < j < |ts| ==> Rank(ts[i].cue) < Rank(ts[j].cue))
  {
    var cs := DueCues(healthPct, fuelPct, p);
    var ts := StartupSchedule(healthPct, fuelPct, p);
    StartupScheduleSpaced(healthPct, fuelPct, p);
    DueCuesOrdered(healthPct, fuelPct, p);
    forall c ensures (exists i :: 0 <= i < |ts| && ts[i].cue == c) <==> Due(c, healthPct, fuelPct, p) {
      DueCuesMembers(healthPct, fuelPct, p, c);
      if c in cs {
        var i :| 0 <= i < |cs| && cs[i] == c;
        assert ts[i].cue == c;
      }
    }
  }

  /** Once every latch records exactly whether its threshold is crossed, the
      startup sequencer has nothing to schedule. */
  lemma LatchedScheduleIsEmpty(healthPct: real, fuelPct: real)
    ensures StartupSchedule(healthPct, fuelPct,
              Played(healthPct <= 50.0, healthPct <= 20.0, fuelPct <= 50.0, fuelPct <= 10.0)) == []
  {
  }
}
