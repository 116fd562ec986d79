# Wind-up robot and rewinding disc: the gameplay rules in Dafny

This project models the gameplay core of a small puzzle game. A wind-up robot
throws a battery disc. The disc bounces around the level, breaks after too many
bounces, and can be recalled. A recall either flies the disc straight back, or
rewinds it backwards through the places it bounced off. The disc charges on a
charge station and powers a power station. Floor switches, torches and fans
act on it along the way. The robot's power runs down while it acts, and holding
the rewind key winds it back up.

Everything is modelled as immutable datatypes and pure step functions.

- **Disc** (`disc.dfy`, module `Discs`): the state machine. `ChangeState` is the
  single entry point of every transition. Alongside it sit the physics tick, the
  collision and trigger callbacks, and the four recall strategies, charging and
  breaking.
- **Disc properties** (`disc_props.dfy`, `DiscRuns`): the recall, charging and
  bounce properties that span many resumes.
- **Player** (`player.dfy`, `Players`): the power model, the per-frame `Update`,
  `ChangeState`, and the power-on, throw, recall, catch and intro routines.
- **Player properties** (`player_props.dfy`, `PlayerRuns`): properties over many
  frames or routine resumes.
- **Devices**: `Spinners`, `ChargeStations`, `PowerStations`, `Switches`,
  `Torches` and `WindTriggers`, one module each.
- **`Game`**: wires the disc, the robot and a charge station together and proves
  end-to-end scenarios.

Coroutines become data. Each entity keeps the list of its live routines, each
parked at a yield point (a `Routine` value):

- Starting a routine runs it to its first yield and appends it to the list. If
  it ends without yielding, its final transition is made at once.
- The scheduler resumes the routine at index `i`. A routine that yields again
  stays in its place. One that ends is removed, and then its final call is made.

Unity never stops these coroutines, and the list keeps them all. In `Discs`,
`Start`, `Continue` and `Resume` are this scheduler. In `Players`, routines are
started inside `ChangeState`, `TriggerCatching` and `BeginIntro`, and `Continue`
and `Resume` resume them.

Calls between the disc and the robot are returned as requests, and `Game` carries
them out:

- The disc asks the robot to disable its inputs or to start a catch.
- The robot commands the disc into a state.

What one entity reads of the other is passed in as a parameter: the robot's
mounting point, launch point and `IsPoweredOn`, or the disc's state.

Positions are concrete vectors compared exactly. Where the game moves something
by geometry, the new position, or whether the robot has arrived, is a parameter of
the resume. Frame times are non-negative reals.

## Model

| member | source | states |
|---|---|---|
| Spinners.Awake | Spinner.cs:12-17 | the designer's axis is also the remembered one; spinning iff that axis is not zero |
| Spinners.SetAxis | Spinner.cs:7-10 | the setter replaces the current axis and never the remembered one |
| Spinners.Stop | Spinner.cs:33-37 | the spinner stands still and remembers the axis it had, whatever it was |
| Spinners.Spin | Spinner.cs:39-42 | the remembered axis becomes current and stays remembered |
| Spinners.SpinIf | Spinner.cs:25-31 | `Spin(true)` is `Spin()`, `Spin(false)` is `Stop()` |
| Spinners.StopThenSpinRestores | Spinner.cs:33-42 | stop then spin brings back the axis held before the stop |
| Spinners.StopTwiceForgets | Spinner.cs:33-42 | a second stop remembers zero, so a later spin stays still |
| Spinners.SetAxisKeepsMemory | Spinner.cs:7-10 | setting the axis does not change what a later spin resumes |
| Discs.AttachTo | Disc.cs:330-347 | attaching halts the disc, makes it follow the mounting point and puts it there; nothing else changes |
| Discs.ChangeState | Disc.cs:261-302 | every transition sets the state and clears the elemental state; only a charged disc sent to Charging ends Charged at once, and a recall may end Attached or Flying at once. Breaking parks the fade routine, and charging an uncharged disc parks the charge loop at zero. Each docked state attaches to its own mounting point. Caught halts and asks for a catch. A rewind recall disables the robot's inputs. Bounces, wind and (except in a recall) the path are kept, and routines are only ever appended |
| Discs.BeginBreak | Disc.cs:378-383 | the break routine sets the charge flag from the level and waits one frame |
| Discs.BeginCharging | Disc.cs:488-494 | charging attaches to the charge station; a charged disc goes straight to Charged, an uncharged one waits at charge zero |
| Discs.ChargeLoop | Disc.cs:495-505 | the routine waits exactly while the charge is below one; then the disc is marked charged and goes to Charged |
| Discs.BeginRecall | Disc.cs:349-371 | the recall dispatch covers all four recall types; Immediate attaches at once, and a recall only ends in Attached or Flying |
| Discs.SimpleLoop | Disc.cs:392-426 | the simple return keeps waiting iff the disc is away from the mount and the robot is powered; then it attaches, or is launched to fly when the robot has no power |
| Discs.RewindSnap | Disc.cs:472-485 | each step of the simple rewind teleports to the head of the remaining points, and head plus rest is exactly the list before; nothing else changes, and with no point left the disc attaches |
| Discs.Waypoints | Disc.cs:440-444 | the rewind waypoints are the path backwards with the robot's mounting point last (put in unless the path already starts there); empty only for an empty path with the mount at the origin |
| Discs.FirstOrDefault | Disc.cs:441 | the head of the recorded path, or the origin when the path is empty; `Waypoints` decides on it whether the mounting point is put in |
| Discs.SkipReached | Disc.cs:446-455 | the waypoints the disc already stands on are dropped without waiting; what is left is a suffix whose head differs from the position |
| Discs.RewindAdvance | Disc.cs:446-458 | the next waypoint not yet reached becomes the destination and the rest stays in the path; with none left the disc attaches with an empty path |
| Discs.BeginRewind | Disc.cs:432-453 | a rewind recall halts the disc and heads for the first waypoint it is not on, or attaches with an empty path |
| Discs.Continue | Disc.cs:378-506 | resuming any disc routine keeps state, bounces, wind and elemental state; a routine ends only in Dispensed, Charged, Attached or Flying |
| Discs.Start | Disc.cs:261-302 | starting a routine parks it at the end of the list, or, when it ends at once, makes its final transition; starting never asks for the inputs to be disabled |
| Discs.Resume | Disc.cs:378-506 | resuming routine `i` never asks anything of the robot and keeps bounces and wind; the list keeps its length, or loses exactly that routine |
| Discs.Init | Disc.cs:138-170 | a fresh disc with an empty path goes to its starting place; on the charge station it powers the station exactly when charged and charges if not |
| Discs.Frame | Disc.cs:172-189 | in every docked state the bounce count is reset and the disc snaps to its mount; in other states nothing changes |
| Discs.FixedTick | Disc.cs:191-211 | a fired disc becomes Flying from the launch point with zero bounces and a path holding only the mounting point; other states are untouched |
| Discs.ClipIndex | Disc.cs:231 | the bounce clip is a valid index: the bounce count when in range, otherwise the first clip |
| Discs.Collide | Disc.cs:224-240 | only a flying disc reacts. It records its position and counts the bounce, and stays flying iff the count before was below the limit, otherwise it breaks. Below the limit the bounce clip plays, at `ClipIndex`; at the limit the break clip plays. With no clips the handler faults after recording |
| Discs.EnterTrigger | Disc.cs:243-254 | a flying disc entering the pickup trigger of a powered robot is halted and caught and asks for a catch; otherwise nothing changes |
| DiscRuns.RewindArrival | Disc.cs:446-458 | one arriving resume of a rewind recall, spelled out: the next destination is the next unreached waypoint, or the disc attaches |
| DiscRuns.RewindResumeStep | Disc.cs:446-458 | each arriving resume consumes only waypoints the disc stands on and strictly shortens the path |
| DiscRuns.RewindVisitsRemaining | Disc.cs:446-458 | a rewind recall visits every remaining waypoint in order, standing on each, and ends attached at the mount with an empty path and no routine |
| DiscRuns.RewindRecallStart | Disc.cs:432-453 | starting a rewind recall disables the robot's inputs and halts the disc |
| DiscRuns.RewindRecall | Disc.cs:432-459 | from the start, a rewind recall replays the recorded path backwards, ending at the mount: waypoints the disc stands on are passed, the rest visited in order, and the disc ends Attached with an empty path |
| DiscRuns.SnapsVisitPath | Disc.cs:472-485 | the simple rewind teleports to each remaining point in order, then attaches |
| DiscRuns.SimpleRewindRecall | Disc.cs:465-486 | a simple rewind visits the recorded points in reverse order without the mount point, leaves inputs enabled and ends attached |
| DiscRuns.SimpleRecall | Disc.cs:392-426 | a simple recall approaches while the robot is powered, attaches on arrival, and flies again if the robot loses power |
| DiscRuns.ImmediateRecall | Disc.cs:364-365 | an immediate recall attaches at once without a routine |
| DiscRuns.ChargeStep | Disc.cs:495-501 | each frame adds exactly `dt / chargingTime`; the routine continues iff the sum stays below one, else the disc is Charged |
| DiscRuns.ChargingCompletes | Disc.cs:495-505 | once the frames add up to the missing charge, the disc is Charged and charged, with the routine gone |
| DiscRuns.ChargingStart | Disc.cs:488-494 | an uncharged disc starts charging from zero; a charged one is Charged at once |
| DiscRuns.BouncesWithinLimit | Disc.cs:224-234 | within the limit, every collision keeps the disc flying, adds one to the count and records the position |
| DiscRuns.LimitPlusOneBreaks | Disc.cs:224-240 | a fresh flight survives exactly `totalBounces` collisions and breaks on the next; the break ends at the dispenser with the level's charge flag |
| Players.Initial | Player.cs:95-97 | the robot starts with inputs disabled, the catch trigger off and no power |
| Players.IsPoweredOn | Player.cs:125-132 | the robot counts as powered on when it is neither off nor powering on and has power left; `PlayerRuns.PoweredOnAfterFrame` ties it to the state each frame leaves |
| Players.DisableUpdates | Player.cs:163-173 | a frame is skipped in Disabled, GameCompleted, GameRewinded and LevelCompleted, or while paused; `PlayerRuns.DisabledFrameIsNoOp` proves such a frame changes nothing |
| Players.ChangeState | Player.cs:384-433 | PoweredOff and GameCompleted disable inputs and the catch trigger and stop the key. PoweredOn enables inputs and LevelCompleted disables them. Recalling disables the catch trigger and commands the recall. GameRewinded drains the power and ends PoweredOff. Routines start only for PoweringOn, Throwing and Recalling |
| Players.TriggerCatching | Player.cs:500-516 | starting a catch disables the catch trigger and appends the catch, turning to the disc first when asked |
| Players.Rewind | Player.cs:298-316 | for a positive duration, power rises by `dt / rewindSpeed`, capped at one, and stays in range; it reaches one iff the sum does. A zero duration fills the power at once (the float step is infinite or NaN, and `Mathf.Min` picks the cap); a negative one lowers it. Power never exceeds one. The state changes only from PoweredOff to PoweringOn, exactly when full |
| Players.Unwind | Player.cs:318-343 | for a positive duration, power falls by `dt / unwindSpeed`, floored at zero, and stays in range; it reaches zero iff the difference does. A zero duration empties the power at once; a negative one raises it. Power never drops below zero. On reaching zero, any state other than PoweredOff powers off |
| Players.Update | Player.cs:189-247 | nothing happens while updates are disabled. With non-negative durations, power stays in range. The state changes only to PoweringOn, PoweredOff, Throwing or Recalling. A throw starts only from PoweredOn on a click with the disc held, and a recall only on a click with the disc at the dispenser, on the charger or in flight; only a recall commands the disc |
| Players.ThrowEnd | Player.cs:463-468 | the throw ends in PoweredOn with the catch trigger armed iff power is left |
| Players.RecallWait | Player.cs:489-497 | the recall waits iff the robot is powered and the disc is not attached, then hands over to a catch if powered |
| Players.CatchHold | Player.cs:529-534 | the catch waits for its animation iff the robot is powered |
| Players.Continue | Player.cs:435-573 | resuming a robot routine never changes power or state; only the throw fires the disc and only the catch forces it on |
| Players.Resume | Player.cs:435-573 | a resumed routine keeps power in range, changes the state only to PoweredOn (inputs enabled), and commands the disc only from the throw's launch or the catch |
| Players.BeginIntro | Player.cs:550-552 | the intro gives the robot at least 30% power, never less than it had, and stays in range |
| PlayerRuns.HoldingRewindPowersOn | Player.cs:298-316 | holding the rewind key long enough winds a powered-off robot to full power and it starts powering on |
| PlayerRuns.IdlingPowersOff | Player.cs:318-343 | an idle powered robot runs down and powers off with inputs disabled, catch trigger off and the key still |
| PlayerRuns.UpdateWindsExactlyWhenRewinding | Player.cs:197-246 | with room to move, power rises iff the frame rewinds and falls iff it does not |
| PlayerRuns.PoweredOnAfterFrame | Player.cs:125-132 | after any enabled frame, a robot in PoweredOn is powered on, and in any other state it is powered on iff it is throwing or recalling with power left (or in the unused BatteryCaught state with power left) |
| PlayerRuns.ClickDispatch | Player.cs:206-240 | without a click nothing starts; a click while still powered recalls iff the disc is Dispensed, Charged or Flying and throws iff it is Attached, otherwise nothing |
| PlayerRuns.DisabledFrameIsNoOp | Player.cs:163-173 | a frame changes nothing in Disabled, GameCompleted, GameRewinded, LevelCompleted or while paused |
| PlayerRuns.ThrowFiresOnlyWithPower | Player.cs:454-461 | the disc is fired iff power is left at the launch moment; otherwise the throw ends there |
| PlayerRuns.ThrowEndsArmedOnlyWithPower | Player.cs:463-468 | the catch trigger is armed and the robot returns to PoweredOn only if power is left |
| PlayerRuns.RecallHandsOverToCatch | Player.cs:489-497 | the recall keeps waiting while powered and the disc is away, hands over to a catch once it is attached, and stops without power |
| PlayerRuns.CatchForcesAttach | Player.cs:518-527 | the catch commands the disc onto the hand iff it is not attached yet |
| PlayerRuns.CatchEndsPoweredOnOnlyWithPower | Player.cs:529-537 | the catch returns the robot to PoweredOn only if it is still powered |
| PlayerRuns.GameRewindPowersOff | Player.cs:424-431 | rewinding the game leaves the robot off with no power, inputs disabled and catch trigger off |
| ChargeStations.SetPoweredOnAsWritten | ChargeStation.cs:10-19 | the trigger follows the value; switching on resumes whatever axis the rotor last remembered |
| ChargeStations.StartAsWritten | ChargeStation.cs:31-36 | the station starts with the trigger as configured; powered, it resumes the rotor's wake-up axis |
| ChargeStations.OffTwiceThenOnStandsStill | ChargeStation.cs:13-18 | two offs in a row and then on leave a powered station whose rotor stands still |
| ChargeStations.PoweredStartResumesWakeAxis | ChargeStation.cs:31-36 | a station started powered with a rotor that woke up still does not spin |
| ChargeStations.SetPoweredOn | ChargeStation.cs:13-18 | trigger and power follow the value, and the rotor turns along the designer's axis exactly while powered |
| ChargeStations.Start | ChargeStation.cs:31-36 | the started station's trigger and rotor match its initial power |
| ChargeStations.SetState | ChargeStation.cs:48-51 | the switch-target entry point goes through the corrected setter. It agrees with the setter as written on power, trigger and a stopped rotor; switched on, the two rotors agree exactly when the remembered axis is the designer's |
| ChargeStations.LastSettingWins | ChargeStation.cs:48-51 | after any series of settings the trigger and rotor follow the last one |
| ChargeStations.DiscEnters | ChargeStation.cs:38-46 | a disc entering a powered station goes to Charging (or Charged when already charged) on the charge mount; unpowered, or not a disc, nothing happens |
| Switches.SetTarget | ButtonTarget.cs:16-19 | each target takes the state it is given; a charge station through its setter |
| Switches.FanOut | ButtonSwitch.cs:53 | every target receives the same state, in order |
| Switches.Start | ButtonSwitch.cs:51-53 | at start the animation and every target take the initial state |
| Switches.ToggleState | ButtonSwitch.cs:62-78 | a used single-press button does nothing. Otherwise the state flips, the on or off sound plays iff turning that way and configured, and the animation and targets follow |
| Switches.Enter | ButtonSwitch.cs:56-60 | only a collider tagged as the disc presses the button |
| Switches.ToggleParity | ButtonSwitch.cs:62-78 | a toggle button is on after `n` presses iff it started on and `n` is even, or off and `n` odd; its targets follow |
| Switches.SinglePressOnce | ButtonSwitch.cs:64-67 | a single-press button changes at most once; every later press is a no-op |
| PowerStations.DiscEnters | PowerStation.cs:13-21 | a charged disc connects and latches the station on; an uncharged disc or other collider changes nothing |
| PowerStations.LatchStaysOn | PowerStation.cs:5-21 | after any series of entries the station is on iff it was on or some charged disc entered; it never turns off |
| Torches.DiscTouches | Torch.cs:36-42 | a burning disc lights the torch, a lit torch sets the disc on fire, and an unlit torch with a cold disc changes nothing |
| Torches.Enter | Torch.cs:21-26 | only a collider that is a disc is passed on |
| Torches.FireSpreads | Torch.cs:36-42 | afterwards both burn iff either did, and the torch never removes the disc's fire |
| Torches.TouchIdempotent | Torch.cs:36-42 | a second touch changes nothing |
| WindTriggers.Stay | WindTrigger.cs:24-43 | a blocked stream changes nothing. Otherwise a torch goes out, a burning disc is put out (a cold one keeps its state), and the disc records the stream |
| WindTriggers.Exit | WindTrigger.cs:45-50 | a disc leaving the stream forgets it |
| WindTriggers.PassingThroughPutsOut | WindTrigger.cs:24-50 | passing through an open stream leaves the disc put out and not pushed, everything else unchanged |
| WindTriggers.StayIdempotent | WindTrigger.cs:24-43 | a second frame in the stream changes nothing more |
| Game.View | Disc.cs:249 | the disc sees the robot's `IsPoweredOn`, mount and launch point |
| Game.ApplyDisc | Disc.cs:284-287 | the disc's catch request starts a catch turning to the disc; its input request disables the robot's inputs |
| Game.ApplyPlayer | Player.cs:457-461 | the robot's command runs the disc transition, which sees the robot as it now is |
| Game.InitDisc | Disc.cs:161-164 | a disc starting on the charge station powers the station iff it is charged, through the corrected setter |
| Game.Frame | Player.cs:189-247 | with non-negative durations, a frame keeps the robot's power in range |
| Game.FixedTick | Disc.cs:195-210 | a fired disc is launched with a path holding only the mounting point |
| Game.Collide | Disc.cs:224-240 | a collision never touches the robot |
| Game.EnterPickup | Disc.cs:243-254 | a flying disc reaching a powered robot whose catch trigger is enabled is caught and the robot starts a catch; otherwise, and whenever the trigger is disabled, nothing changes |
| Game.EnterStation | ChargeStation.cs:38-46 | a disabled station trigger changes nothing; a powered station starts charging |
| Game.ResumePlayer | Player.cs:435-538 | resuming a robot routine never changes its power |
| Game.ResumeDisc | Disc.cs:378-506 | resuming a disc routine never changes the robot's state or power |
| Game.ThrowLaunchesDisc | Player.cs:443-461 | a click by a powered robot holding the disc leads, resume by resume, to the disc fired and then flying from the launch point |
| Game.CatchReturnsToPoweredOn | Player.cs:505-538 | with the catch trigger armed, a caught disc is forced onto the hand and the robot ends PoweredOn with inputs enabled |
| Game.RewindRecallLocksInputs | Disc.cs:432-436 | a rewind recall started by a click disables the robot's inputs |
| Game.UnchargedStartChargesOnDarkStation | Disc.cs:161-163 | an uncharged disc starting on the charge station charges while the station is left unpowered |

## Left out

- Geometry and motion are not modelled:
  - `MoveTowards` and the `Distance` tests with their 0.01 and 0.1 tolerances;
  - velocity normalisation and wind force (Disc.cs:212-219), turning and camera-relative walking (Player.cs:252-277);
  - `LookAt`, and the throw preview raycast (Player.cs:279-287, 366-382).

  Each resume instead takes the disc's new position, or the robot's `arrived` flag.
- Unity's approximate `Vector3 ==`: positions are compared exactly, in the `FirstOrDefault` test (Disc.cs:441) and for arrival.
- Wait durations are not modelled (power-on, launch, throw, catch and the 0.25 s snaps). Each wait is one resume, and the caller chooses which routine resumes when.
- Floats are reals: 30% is the real 0.3, and rounding of `float` sums is not modelled.
- Audio, animator parameters, renderers, trails, particles and looping-clip bookkeeping are presentation only (Player.cs:345-364, Disc.cs:513-526, Torch.cs:28-34).
- The robot's `OnTriggerEnter` for the level exit (Player.cs:289-296) and the position reset of `GameRewinded` (Player.cs:426-429) are scene flow and geometry. The callers of `ChangeState(LevelCompleted/GameCompleted/GameRewinded)` (GameManager.cs, LevelController.cs) are UI and scene loading; these states are inputs here.
- Torch.IsOn: the getter returns itself (Torch.cs:12), so reading it would never return. Nothing reads it, so only the field `isOn` is modelled.
- WindTriggers.Stay: the line-of-sight cast is the `blocked` parameter, and the push force (WindTrigger.cs:16) is geometry.
- Whether the engine delivers a trigger or collision event (layers, `detectCollisions`) is the caller's choice, except for two trigger flags the model honours: the charge station's own trigger, and the robot's catch trigger, which `Game.EnterPickup` reads. A collider is given as the optional component it carries.
- Discs.Collide: with no bounce clips the array read throws after the position is recorded. The model returns `Fault`, with the bounce count unchanged.
- The recall `default` branch (Disc.cs:367-369) cannot be reached: the match over the four recall types is exhaustive.
- `Game.Frame` runs the robot's `Update` before the disc's. Unity does not fix this order.
- DiscRuns.RewindVisitsRemaining: proved when the geometry brings the disc onto each waypoint in one resume; a longer approach adds resumes that leave the waypoints unchanged.
- DiscRuns.RewindRecall: proved for a disc with no other live routine. The other multi-resume lemmas (`SimpleRewindRecall`, `ChargingCompletes`, `LimitPlusOneBreaks`) assume the same.
- PlayerRuns.HoldingRewindPowersOn: stated for frames with a positive frame time. `IdlingPowersOff` and the charging lemmas assume the same.
- Discs.FixedTick: the recorded path is cleared on the first fixed tick after `Fired` (Disc.cs:195-197), not on entering `Fired`; until that tick the disc keeps its old path.
- Discs.ChargeLoop: the charge level is the disc field `currentCharge` (Disc.cs:97), written by `Init` (Disc.cs:153) and by every charging routine (Disc.cs:491, 498, 503). Two overlapping charging routines would share it. The model gives each `ChargingUp` routine its own counter, starting from 0 or 1 as the routine does (Disc.cs:491). It drops the value `Init` writes, because a charging routine overwrites it before any read. Breaking sets the charged flag without touching the level (Disc.cs:382), so a full level does not imply a charged disc.
- ChargeStations.SetState: computes the corrected setter, not ChargeStation.cs:50's `IsPoweredOn = isOn`. Power and trigger are the same. Switched on, the rotor turns along the station's own axis, where the code resumes the rotor's remembered axis. Its contract states exactly when the two agree.
- Players.Rewind / Players.Unwind: the durations are not bounded in the inspector (Player.cs:100, 103). Zero and negative durations are modelled in the step, but floats are not: the value NaN, an infinite power, and a power that runs past the float range are not modelled.
- PlayerRuns.HoldingRewindPowersOn, `IdlingPowersOff`, `UpdateWindsExactlyWhenRewinding`, `PoweredOnAfterFrame` and `ClickDispatch`, and the scenarios `Game.ThrowLaunchesDisc` and `Game.RewindRecallLocksInputs`: stated for positive durations (`Players.ValidConfig`), the designer's intent of "seconds to wind up and down". With a negative duration, rewinding drains the robot and idling charges it.
- Switches.SetTarget: a charge-station target goes through the corrected setter `ChargeStations.SetState`. Switched on, its rotor turns along the station's own axis, where the code (ChargeStation.cs:17) resumes the rotor's remembered axis. `OffTwiceThenOnStandsStill` and `PoweredStartResumesWakeAxis` model the code as written (see Findings).
- Game.InitDisc: powers the station through the corrected setter as well, where Disc.cs:162 calls the setter as written; the same rotor difference applies.

## Findings

| source | as written | input that shows it | evidently intended | confidence | as-written member | corrected member |
|---|---|---|---|---|---|---|
| ChargeStation.cs:13-18 | the power setter drives the rotor through `Spin(bool)`. Switching off saves whatever axis is current, even zero; switching on restores the saved axis | the station's own `Start` switches it off; a switch that starts off then sends `SetState(false)`; later the switch turns on. Also: a station that starts powered with a rotor whose inspector axis is zero | the rotor turns along the station's spin direction exactly while the station is powered | medium, not executed (the first input depends on which `Start` runs first) | ChargeStations.OffTwiceThenOnStandsStill | ChargeStations.LastSettingWins |
