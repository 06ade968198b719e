# Vehicle dashboard reconciler

This Dafny project models the state reconciler of a browser vehicle dashboard (a
speedometer HUD). A host calls the public setters with the latest telemetry:

- `setHealth`, `setFuel`, `setEngine`, `setSeatbelts`, `setVehicleType`
- `setGear`, `setSpeed`, `setRPM`
- `setLeftIndicator`, `setRightIndicator`, `setHeadlights`

The script keeps a `vehicleState` record and turns each call into a new state and new outputs. The outputs are:

- three looping sounds (indicator tick, seatbelt warning, alarm);
- four one-shot warning cues: engine warn1 at 50% and warn2 at 20% health, and fuel50 and fuel10 at 50% and 10% fuel;
- a startup sequencer that would defer due cues with timers (it never schedules one: see below);
- the gear and speed read-outs;
- the colour tiers of the health and fuel bars and icons;
- the RPM box, the seatbelt icon, the blinking indicator icons and the two headlight icons.

The model has four layers.

- `Presentation` holds the pure classifiers: clamping, the colour tier, the speed bands, the gear text, Math.round and the RPM box, and the headlights.
- `Warnings` holds the latched threshold warning and the startup sequencer.
  - A cue fires once per downward crossing and re-arms when the metric recovers.
  - The sequencer would space due cues 1500 ms apart. When `setEngine(true)` calls it, none is due, because re-applying the stored values has already fired and latched them.
- `Reconciler` is the state as one value (`Hud`), with one function per setter and internal helper giving the state after the call.
- `VehicleHud.Dashboard` is a class whose fields are the script's state. It has:
  - the `vehicleState` fields, with the four `hasPlayed*` latches grouped as one `played` record;
  - the `active` class of the two indicator icons;
  - the loops, the cue log, the pending timers, and the read-outs and icons.

  Each method updates the fields step by step, in the script's order. Each is proved to leave exactly the state that the matching `Reconciler` function computes: `Snapshot() == Reconciler.X(old(Snapshot()), …)`.

`HudProperties` proves what the script promises over any sequence of setter calls (`Run`):

- an invariant that every call keeps;
- the ignition transitions;
- the warning hysteresis, over runs with the engine on, the belt buckled, and no `setEngine` or `setSeatbelts` call;
- the gear-text rules;
- the seatbelt rules on a motorcycle;
- that no deferred startup cue is ever scheduled.

Two inputs are parameters rather than computed:

- the timers (`FireTimer(i)` takes which timer elapses);
- the rounded speed (`SetSpeed(val: nat)`).

The audio is modelled state that the setters update: a start counter and a paused flag per loop, and a log of cues played.

Where the script's behaviour differs from what one might expect, the model follows the script:

- With the engine off, `updateEngineIcon` and `updateFuelIcon` return before any warning or latch logic runs.
- `setSeatbelts` never runs a warning check. So buckling after a low health value stays silent (`BucklingIsSilent`); it does not play warn1 or warn2.
- On a motorcycle, `setSeatbelts` only stops the seatbelt loop. It does not store the flag and does not touch the alarm.
- `setSpeed` notes movement whatever the engine state.
- `setEngine(false)` clears the movement flag, but its common tail re-applies the shown speed, which sets the flag again when that speed is nonzero. So straight after an off-on cycle gear 0 still shows "R" (`ReverseSurvivesIgnitionCycle`).
- At page load the vehicle is a motorcycle. Together with the motorcycle branch of `setSeatbelts`, which does not store the flag, this means that until another vehicle kind is declared the warnings are gated shut: no cue is ever played, whatever is called (`MotorcycleNeverWarns`).
- `setVehicleType('car')` does not call `setSeatbelts`. So a car declared after ignition runs unbuckled with both seatbelt loops paused (`CarDeclaredAfterIgnitionIsSilent`).
- The last startup block (fuel10) does not advance the delay.
- `setEngine(true)` clears the four latches and then re-applies the stored health and fuel, which latches at once every cue whose condition holds. When buckled, these cues fire immediately, and the startup sequencer that runs afterwards finds nothing to schedule (`IgnitionOn`, `EngineOnTimers`, `NoTimerEverScheduled`).

## Model

| member | source | states |
|---|---|---|
| Presentation.Clamp01 | script.js:424 | the result lies in [0,1] and equals the input inside it, 0 below it and 1 above it |
| Presentation.TierFor | script.js:474-490 | dark exactly when the engine is off; otherwise high exactly at ≥50, medium exactly in [25,50), low exactly below 25 |
| Presentation.TierMonotone | script.js:474-490 | with the engine on, a higher percentage never gives a worse tier |
| Presentation.SpeedColourFor | script.js:380-398 | white with the engine off; with it on, white exactly for 0, green exactly for 1..40, yellow for 41..50, red above 50 |
| Presentation.GearTextFor | script.js:404-415 | "R" exactly when the engine is on with gear 0 and movement; the number exactly for gear > 0 with the engine on; "N" whenever the engine is off |
| Presentation.RoundHalfUp | script.js:344 | Math.round of a non-negative value is the integer within one half of it, halves rounded up |
| Presentation.RpmValue | script.js:344 | the RPM shown is at most 8000 and is the rounded clamped fraction times 8000 |
| Presentation.RpmBoxFor | script.js:346-361 | blank exactly at ≤0.1; red-line style exactly above 0.8; lit in between; a non-blank box shows the rounded RPM |
| Presentation.Headlights | script.js:606-622 | level 1 lights exactly the low beam and hides the high beam, keeping its filter; level 2 the reverse; other levels grey both; never both lamps fully opaque |
| Presentation.HeadlightsIdempotent | script.js:592-623 | setting the same level twice is the same as setting it once |
| Warnings.MarkPlayed | script.js:76-79 | the cue's latch is set and the other three are unchanged |
| Warnings.ClearPlayed | script.js:199-204 | the cue's latch is cleared and the other three are unchanged |
| Warnings.Latch | script.js:188-204 | a live check fires iff at or below the threshold with the latch clear and the belt buckled; firing sets the latch; above the threshold the latch clears; with the gate shut nothing fires |
| Warnings.LatchRemembersLast | script.js:188-204 | with the belt buckled the latch afterwards records exactly whether the metric is at or below the threshold |
| Warnings.FiresOncePerCrossing | script.js:188-204 | over any sequence of readings a cue fires exactly as often as the readings cross its threshold downwards |
| Warnings.DownUpDownFiresTwice | script.js:188-204 | down, up and down again fires the cue exactly twice |
| Warnings.NoRefireWhileBelow | script.js:188-204 | readings that stay at or below the threshold never fire a latched cue again |
| Warnings.DueCues | script.js:68-106 | at most four cues are due at startup |
| Warnings.DueCuesMembers | script.js:68-106 | a cue is due at startup exactly when its metric is at or below its threshold and its latch is clear |
| Warnings.DueCuesOrdered | script.js:68-106 | the due cues follow the fixed order warn1, warn2, fuel50, fuel10 |
| Warnings.Spaced | script.js:72-104 | one timer per cue, in order, the i-th at the start delay plus 1500·i ms |
| Warnings.StartupSchedule | script.js:68-106 | the startup sequencer sets at most four timers |
| Warnings.StartupScheduleSpaced | script.js:68-106 | the sequencer's schedule is exactly the due cues, spaced 1500 ms apart from 0 |
| Warnings.StartupScheduleShape | script.js:68-106 | at most four timers, at 0, 1500, 3000 and 4500 ms; a timer for a cue iff it is due; the timers in the fixed order |
| Warnings.LatchedScheduleIsEmpty | script.js:561-575 | when every latch already records its threshold, nothing is scheduled |
| Reconciler.ManageLoop | script.js:45-59 | afterwards the loop is paused iff it should not play; it is restarted (from position 0) only if it was paused |
| Reconciler.ManageLoopIdempotent | script.js:45-59 | asking for the same loop state twice is the same as asking once |
| Reconciler.Init | script.js:31-43 | page load: engine off, no movement, a motorcycle, unbuckled, health and fuel 1.0, no latch set, no indicator active, every loop paused, no cue played, no timer pending |
| Reconciler.ManageLoopingAudio | script.js:45-59 | the chosen loop becomes ManageLoop of itself; the other two loops, the cue log and the timers are unchanged |
| Reconciler.StopSeatbeltLoops | script.js:544-545 | both seatbelt loops end paused; everything else in the audio is unchanged |
| Reconciler.PlayOnceAudio | script.js:61-65 | the cue is appended to the log, whose count of it grows by one; no loop or timer changes |
| Reconciler.PlayOnce | script.js:188-196 | the cue sounds iff one Latch step of its threshold fires (at or below it, latch clear, belt buckled); its latch is then set iff it was set or the step fired; the other latches, the loops, timers, read-outs and icons are unchanged |
| Reconciler.Rearm | script.js:199-204 | the latch stays set iff it was set and the percentage is at or below the threshold; nothing else changes |
| Reconciler.EngineChecks | script.js:188-204 | the four blocks in order (check warn1, check warn2, reset warn1, reset warn2) amount to one Latch step each for warn1 and warn2, warn1's sound first; nothing else but those latches and the cue log changes |
| Reconciler.FuelChecks | script.js:239-255 | the same for the fuel50 and fuel10 blocks |
| Reconciler.UpdateEngineIcon | script.js:164-216 | with the engine off only the icon greys and no cue or latch changes; with it on, warn1 and warn2 each take one Latch step of 50 and 20 on the health percentage, gated on the belt: their latches become the steps' latches, the cue log gains warn1 then warn2 exactly for the steps that fire, the icon gets the health tier, and nothing else changes |
| Reconciler.UpdateFuelIcon | script.js:218-268 | the same for the fuel icon, with fuel50 and fuel10 taking Latch steps of 50 and 10 on the given percentage |
| Reconciler.SetHealth | script.js:458-494 | stores the clamped value as stored and engine health; bar and icon get its tier; with the engine off no cue and no latch changes; with it on, warn1/warn2 fire iff at or below 50/20 with the latch clear and the belt buckled, in that order; each latch afterwards is set iff at or below its threshold and it was set or the belt is buckled; every other field is unchanged |
| Reconciler.SetFuel | script.js:422-456 | the same for the stored fuel, fuel50 and fuel10 |
| Reconciler.SetGear | script.js:401-420 | the text is the gear text of the engine state, gear and movement; the reverse class is on iff the text is "R"; nothing else changes |
| Reconciler.SetSpeed | script.js:370-399 | shows the value; movement is noted iff already noted or the value is nonzero, whatever the engine state; the colour is the band of the value |
| Reconciler.SetRPM | script.js:343-365 | only the RPM box changes |
| Reconciler.SetSeatbelts | script.js:496-533 | on a motorcycle only the seatbelt loop stops; on a car the flag is stored and the icon is grey, green or flashing by engine and belt; both loops play iff unbuckled with the engine on; no cue, timer or latch changes |
| Reconciler.SetVehicleType | script.js:322-334 | the flag is set iff the kind is "motorcycle"; a motorcycle hides the seatbelt icon and stops both seatbelt loops |
| Reconciler.PlayStartupWarnings | script.js:68-106 | only the pending timers change; no latch is set when a cue is scheduled |
| Reconciler.StartupWarningsSchedule | script.js:68-106 | the sequencer appends exactly the startup schedule of the current health, fuel and latches to the pending timers |
| Reconciler.FireTimer | script.js:76-104 | an elapsing timer leaves the pending list, its cue is appended to the log and its latch is set; the other latches and the rest of the state are unchanged |
| Reconciler.ToggleIcon | script.js:108-131 | only that side's active flag changes, and it becomes the value given |
| Reconciler.UpdateIndicators | script.js:625-644 | the blinking icons are exactly the active ones; the tick loop plays iff either is active |
| Reconciler.SetLeftIndicator | script.js:646-649 | the left indicator becomes active or inactive, its icon blinks iff active, and the tick plays iff either indicator is active |
| Reconciler.SetRightIndicator | script.js:651-654 | the same for the right indicator |
| Reconciler.SetHeadlights | script.js:592-623 | the two lamps become those of the headlight level; nothing else changes |
| Reconciler.SetEngine | script.js:535-537 | setting the current engine state changes nothing; afterwards the engine state is the one asked for |
| Reconciler.Refresh | script.js:577-589 | the common tail of setEngine: the engine icon update, the indicator icons left as they are, and the displayed speed re-applied (its colour recomputed, movement noted if nonzero) |
| Reconciler.EngineOff | script.js:541-550 | the engine stays off |
| Reconciler.EngineOn | script.js:551-575 | the engine stays on |
| Reconciler.StartupChecks | script.js:564-575 | a motorcycle has both seatbelt loops stopped and its icons untouched; a car has both loops playing exactly when unbuckled with the engine on and the seatbelt icon grey, green or flashing; the pending timers grow by the startup schedule exactly when buckled; the vehicle state, read-outs, cue log and tick are unchanged |
| HudProperties.InitInv | script.js:31-43 | the state after page load satisfies the invariant |
| HudProperties.RefreshRestoresInv | script.js:577-589 | the common tail of setEngine restores the whole invariant from its settled part |
| HudProperties.EngineOffFacts | script.js:541-550 | the engine-off branch clears movement, shows "N", stops both seatbelt loops, blanks the RPM box, greys bars and icons, and keeps cues, latches, timers, stored values and belt |
| HudProperties.IgnitionOff | script.js:535-590 | setEngine(false) from a running engine has those effects; movement stays noted only if the displayed speed is nonzero, and the speed is white |
| HudProperties.HealthRelatch | script.js:561 | re-applying the stored health with cleared latches fires and latches exactly the due health cues |
| HudProperties.FuelRelatch | script.js:562 | the same for the stored fuel |
| HudProperties.ReapplyFacts | script.js:561-562 | re-applying health then fuel fires the due cues in the fixed order and latches them |
| HudProperties.StartupQuiet | script.js:571-573 | with every latch recording its threshold, playStartupWarnings changes nothing |
| HudProperties.EngineOnLatches | script.js:551-575 | the engine-on branch leaves the latches determined by the belt and the stored values, and fires exactly the due cues |
| HudProperties.EngineOnTimers | script.js:551-575 | the engine-on branch schedules no timer |
| HudProperties.EngineOnState | script.js:551-575 | the engine-on branch clamps the stored values, shows setGear(0), gives bars and fuel icon their tiers, and keeps speed and indicators |
| HudProperties.EngineOnLoops | script.js:564-570 | after the engine-on branch the seatbelt and alarm loops agree; a motorcycle has them stopped; a car has them playing exactly when unbuckled and its seatbelt icon green if buckled, flashing if not; the tick is untouched |
| HudProperties.RecheckIsQuiet | script.js:188-204 | checking health again against latches that already record it changes nothing |
| HudProperties.IgnitionOn | script.js:535-590 | setEngine(true) from off: latches as re-latched, exactly the due cues fired, no timer, belt and clamped values kept, gear shown as setGear(0), speed kept, movement noted iff already noted or speed shown; a car's seatbelt and alarm loops play exactly when unbuckled and its icon is green or flashing, a motorcycle's are stopped |
| HudProperties.IgnitionCycleResetsLatches | script.js:541-562 | after an off-on cycle the latches depend only on the stored values and the belt, not on what they were |
| HudProperties.ApplyKeepsPending | script.js:68-106 | no setter call changes the pending timers |
| HudProperties.NoTimerEverScheduled | script.js:571-573 | from an empty pending list, no sequence of setter calls ever schedules a deferred cue |
| HudProperties.EngineOnKeepsInv | script.js:551-575 | setEngine(true) keeps the invariant |
| HudProperties.EngineOffKeepsInv | script.js:541-550 | setEngine(false) keeps the invariant |
| HudProperties.ApplyKeepsInv | script.js:322-654 | every setter call keeps the invariant: stored values in [0,1] with the engine health equal to the stored health; bars and icons in the tiers of the stored values; the speed in the band of the shown value, and a nonzero shown value means movement; the reverse class iff "R"; a gear text other than "N" only with the engine on, and "R" only after movement; the seatbelt and alarm loops together and never on a motorcycle; the tick iff an indicator is active; an icon blinks iff its indicator is active |
| HudProperties.InvAlways | script.js:322-654 | the invariant holds after any sequence of setter calls |
| HudProperties.LoopsFollowTheirSources | script.js:496-533 | after any calls from page load the tick plays iff an indicator is active, a motorcycle never plays the seatbelt or alarm loop, and the two seatbelt loops play together |
| HudProperties.CarDeclaredAfterIgnitionIsSilent | script.js:322-334 | page load, ignition, then declaring a car gives a running, unbuckled car with both seatbelt loops paused |
| HudProperties.MotorcycleNeverWarns | script.js:496-500 | from an unbuckled motorcycle, any calls that declare no other vehicle kind play no cue at all |
| HudProperties.MotorcycleSeatbeltsInert | script.js:496-500 | on a motorcycle, setSeatbelts changes nothing at all |
| HudProperties.BucklingIsSilent | script.js:496-533 | a low health set while unbuckled stays silent when the belt is then buckled |
| HudProperties.StraightToCritical | script.js:188-196 | one update straight to 20% or less fires warn1 and then warn2 |
| HudProperties.HealthStep | script.js:458-494 | with the engine on and the belt buckled, one setHealth adds the crossings of its reading to each cue's count and leaves the latch recording it |
| HudProperties.FuelStep | script.js:422-456 | the same for setFuel |
| HudProperties.StepCount | script.js:322-654 | with the engine on and the belt buckled, any call other than setEngine or setSeatbelts adds exactly the downward crossings of its reading to each cue's count, leaves the latch recording the reading, and keeps the ignition and the belt |
| HudProperties.CueFiresOncePerCrossing | script.js:188-255 | over any sequence of calls without ignition or seatbelt changes, each cue fires exactly once per downward crossing of its threshold by the values set |
| HudProperties.CueCountIsFireCount | script.js:188-255 | over the same runs each cue sounds exactly as often as successive Latch steps of its threshold fire on the values set |
| HudProperties.NoRefireWhileLow | script.js:188-204 | once a cue is latched, values set at or below its threshold never sound it again, however many there are |
| HudProperties.DownUpDownHealth | script.js:188-204 | health set down below 50%, back above, and down again fires warn1 exactly twice |
| HudProperties.ReverseUntilEngineOff | script.js:374 | once moved with the engine running, gear 0 shows "R" until the engine is turned off, whatever else is called |
| HudProperties.ReverseSurvivesIgnitionCycle | script.js:577-589 | with a nonzero speed shown, gear 0 shows "R" straight after an off-on ignition cycle |
| HudProperties.GearScenario | script.js:401-420 | gear 0 shows "N" before movement and "R" after; engine-off shows "N" again |
| HudProperties.IndicatorScenario | script.js:625-654 | left on and right off: only the left blinks and the tick plays; left off then stops the tick |
| VehicleHud.Dashboard.constructor | script.js:31-43 | the fields start as the page-load state and satisfy the invariant |
| VehicleHud.Dashboard.ManageLoopingAudio | script.js:45-59 | the chosen loop becomes ManageLoop of itself; nothing else changes |
| VehicleHud.Dashboard.PlayOnceAudio | script.js:61-65 | the cue is appended to the log |
| VehicleHud.Dashboard.PlayOnceCheck | script.js:188-196 | one play-once block performs Reconciler.PlayOnce |
| VehicleHud.Dashboard.Rearm | script.js:199-204 | one reset block performs Reconciler.Rearm |
| VehicleHud.Dashboard.UpdateEngineIcon | script.js:164-216 | the fields end as Reconciler.UpdateEngineIcon of the state before |
| VehicleHud.Dashboard.UpdateFuelIcon | script.js:218-268 | the fields end as Reconciler.UpdateFuelIcon |
| VehicleHud.Dashboard.SetHealth | script.js:458-494 | the fields end as Reconciler.SetHealth, and the invariant Valid is kept when it held before |
| VehicleHud.Dashboard.SetFuel | script.js:422-456 | the fields end as Reconciler.SetFuel, and the invariant Valid is kept when it held before |
| VehicleHud.Dashboard.SetGear | script.js:401-420 | the fields end as Reconciler.SetGear, and the invariant Valid is kept when it held before |
| VehicleHud.Dashboard.SetSpeed | script.js:370-399 | the fields end as Reconciler.SetSpeed, and the invariant Valid is kept when it held before |
| VehicleHud.Dashboard.SetRPM | script.js:343-365 | the fields end as Reconciler.SetRPM, and the invariant Valid is kept when it held before |
| VehicleHud.Dashboard.SetSeatbelts | script.js:496-533 | the fields end as Reconciler.SetSeatbelts, and the invariant Valid is kept when it held before |
| VehicleHud.Dashboard.SetVehicleType | script.js:322-334 | the fields end as Reconciler.SetVehicleType of the state before, and the invariant Valid is kept |
| VehicleHud.Dashboard.PlayStartupWarnings | script.js:68-106 | the four blocks, with a delay variable that grows after each of the first three scheduled cues, leave the fields as Reconciler.PlayStartupWarnings |
| VehicleHud.Dashboard.FireTimer | script.js:76-104 | the fields end as Reconciler.FireTimer |
| VehicleHud.Dashboard.ToggleIcon | script.js:108-131 | the fields end as Reconciler.ToggleIcon |
| VehicleHud.Dashboard.UpdateIndicators | script.js:625-644 | the fields end as Reconciler.UpdateIndicators |
| VehicleHud.Dashboard.SetLeftIndicator | script.js:646-649 | the fields end as Reconciler.SetLeftIndicator of the state before, and the invariant Valid is kept |
| VehicleHud.Dashboard.SetRightIndicator | script.js:651-654 | the fields end as Reconciler.SetRightIndicator of the state before, and the invariant Valid is kept |
| VehicleHud.Dashboard.SetHeadlights | script.js:592-623 | the fields end as Reconciler.SetHeadlights of the state before, and the invariant Valid is kept |
| VehicleHud.Dashboard.EngineOff | script.js:541-550 | the fields end as Reconciler.EngineOff |
| VehicleHud.Dashboard.EngineOn | script.js:551-562 | the fields end as Reconciler.EngineOn |
| VehicleHud.Dashboard.StartupChecks | script.js:564-575 | the fields end as Reconciler.StartupChecks |
| VehicleHud.Dashboard.Refresh | script.js:577-589 | the fields end as Reconciler.Refresh |
| VehicleHud.Dashboard.Switch | script.js:539-590 | past the guard, the engine flag flips, the branch and the common tail run, and the fields end as Reconciler.SetEngine |
| VehicleHud.Dashboard.SetEngine | script.js:535-590 | the fields end as Reconciler.SetEngine of the state before, and the invariant Valid is kept |

## Left out

- The layout and CSS setters (script.js:271-320) only write CSS custom properties.
- `refreshAllIcons` (script.js:136-159) recovers the fuel level by parsing a CSS transform string; it is not a setter of the reconciler.
- The floating-point speed conversion: `setSpeed` takes the rounded display value. The parse-and-divide round trip in `setEngine` is modelled as re-applying that value.
- Real time. `setTimeout` appends a timer to the pending list, and `FireTimer(i)` says which timer elapses. Elapsed time and the order in which timers fire come from outside the model. This is not a restriction in practice: no timer is ever scheduled (`NoTimerEverScheduled`).
- The audio promise `.catch` logging and every missing-element guard: all elements are assumed to exist, and every playback request is assumed to succeed. A `play()` that the browser rejects (an autoplay policy, say) leaves the element paused, but `ManageLoop` records it as playing.
- Exact colour, glow and opacity strings and SVG filter URLs are reduced to tokens. The rest of the CSS classes (`active`, `hidden`, `fuel-low`, `engine-warning`, …) are not modelled, except `gear-reverse`, `seatbelt-warning`, the RPM box's `on` and `redline` classes, the indicators' `active` class and `is-blinking`.
- The RPM fill width, the RPM box creation and the bars' translateY are pure DOM.
- The indicator icons' opacity and filter written by `toggleIcon` are left out; their `active` state is modelled.
- The seatbelt icon is not reset when the engine turns off (the script does not call `setSeatbelts` there), so a flashing icon stays as it was. The model keeps that; it is not an omission.
- `setGear('N')` in the engine-off branch is modelled as `SetGear(h, 0)`: with the engine off the text is "N" for any argument.
- The initial presentation (seatbelt icon shown, lamps dimmed, gear "N", speed 0) comes from page markup that is not part of this model. These are assumed as the page-load state.
- VehicleHud.Dashboard.SetHealth: this method and SetFuel, SetGear, SetSpeed, SetRPM and SetSeatbelts do not require `Valid()`, because setEngine calls them on intermediate states that break the invariant (movement already cleared while a speed is still shown, say). They ensure `old(Valid()) ==> Valid()` instead. SetEngine, SetVehicleType, the indicator setters and SetHeadlights require and ensure `Valid()`.
- Numbers are Dafny reals, not IEEE doubles. Products such as the health fraction times 100 are exact, so there is no rounding near the 50, 25, 20 and 10 thresholds. A NaN argument cannot be represented: the script would clamp NaN to NaN, store it, and show it in the lowest tier because every comparison with it is false. None of that is modelled.
- HudProperties.LoopsFollowTheirSources: the car rule (both seatbelt loops play exactly while unbuckled with the engine on) is not an invariant of the script and is not claimed. It holds right after `setSeatbelts` and after ignition, not after `setVehicleType`, which never calls `setSeatbelts` (`CarDeclaredAfterIgnitionIsSilent`).
