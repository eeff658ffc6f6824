# Mission control console: a verified model of its coordination logic

The mission control console is an rqt plugin. The operator drives the robot
with it, either from the keyboard or with the form's push buttons. The
plugin also switches the robot between teleoperation and autonomy. This
project models the part of `mission_control.cpp` that coordinates all of
that. It covers:

- the keyboard event filter;
- the teleop commands and the motor watchdog;
- the table that connects button signals to slots;
- the enable/disable bookkeeping of the widgets;
- the retrying toggle calls for control and motors;
- the mode transitions, with the turntable reset and the software stop that
  go with them.

The model is in six modules.

- `Wrappers` (`wrappers.dfy`) holds the `Option` type.
- `Codes` (`codes.dfy`) holds the teleop command codes and their 8-bit tags.
- `Input` (`input.dfy`) holds the pure tables:
  - the event filter, key by key, with the Qt key codes;
  - which buttons `setTeleop` greys;
  - the signal/slot connections.
- `Coordinator` (`coordinator.dfy`) is the console as a pure state machine.
  - A `Console` value holds:
    - the `teleopEnabled` flag;
    - the set of enabled buttons;
    - whether the motor watchdog is armed;
    - each action channel as the robot side keeps it;
    - the answers the robot side will give to the next service calls;
    - a log of every effect on the outside world, in order, except the
      `ROS_INFO` log messages.
  - Each effect is a service call and its answer, a sleep, a goal sent, a
    cancel, a poll and its answer, a wait, a widget update, or the clock
    start.
  - Every console operation is a function from state to state.
  - `Step` and `Run` feed it one sequential stream of events: key presses,
    button signals, watchdog expiries, and goals that finish on the robot
    side.
- `Properties` (`properties.dfy`) holds the reference definitions and the
  lemmas.
  - The reference definitions give the closed forms of the retry and drain
    loops, the goals a log sends on a channel, and the last acknowledged
    toggle of each switch.
  - The lemmas prove what each operation does and the order in which it
    does it.
  - They also prove three invariants that every event keeps:
    - while an autonomy goal is outstanding, the keys are off;
    - while an autonomy goal is outstanding, the 13 buttons of the teleop
      surface are greyed;
    - the control and motor buttons always show the state the robot side
      last acknowledged.
- `MissionControl` (`mission_control.dfy`) is the console as the object it
  is.
  - Its fields change in place.
  - `while (!ros::service::call(...))` and
    `while (!x.getState().isDone()) x.cancelAllGoals();` are `while` loops
    with invariants.
  - Each method is proved to leave the object in exactly the state the
    corresponding `Coordinator` function computes. Most pairs share a name.
    The others are:
    - `EventFilter` and `KeyEvent`;
    - `MotorKillTimeout` and `WatchdogTimeout`;
    - `OnButton` and `ButtonSignal`;
    - `Dispatch` and `Perform`;
    - `OnGoalFinished` and `GoalFinished`;
    - `CallUntilAccepted` and `Retry`;
    - `CancelUntilDone` and `Drain`;
    - `CallService` and `CallOnce`;
    - `IsDone` and `Poll`;
    - `SetEnabled` and `SetButtons`;
    - `SetControl`/`SetMotors` and `SetSwitch`;
    - `ToggleControl`/`ToggleMotors` and `ToggleSwitch`.
  - The event handlers keep `Valid()`, the three invariants above.

### The environment, and why the loops end

The source retries `toggle_control`, `toggle_motors` and `/zero_turntable`
without bound. It also cancels the goals of a channel until a poll reports
done, again without bound. Neither loop ends unless the robot side
eventually cooperates. The model states that assumption inside the state
instead of hiding it:

- `replies` are the answers to the next service calls, in order. Once
  they are used up, every call succeeds.
- `Channel.lag` is how many cancel requests the server still lets pass
  before the current goal reaches a done state.
- Each new goal draws its own `lag` from `Channel.lags`, the script of the
  goals still to be sent on that channel. Once that script is used up, a
  goal gives way to the first cancel. So a later goal on a channel can need
  as many cancels as the first one: `Properties.EachGoalOwnLag`.
- `waitForResult` is one step that leaves the channel done. This assumes
  that every goal the console waits on eventually finishes: the
  STOP_DRIVEBASE goal of `softwareStop`, and with it `goAutonomousMode` and
  `goTeleopMode`.

So every loop has a measure that decreases: the remaining answers, or the
pending cancels. Nothing about the loops is bounded silently. Three kinds of
run are left out: those in which the robot side refuses a call forever,
those in which it ignores cancels forever, and those in which a waited-on
goal never finishes. Every finite pattern of refusals, for each call and
each goal, is one of the modelled environments.

### Where the code departs from what its comments and names suggest (the model follows the code)

- `goAutonomousMode` drains the teleop channel, not the autonomy channel,
  before it sends the autonomy goal (mission_control.cpp:428). That channel
  has just been waited on by `softwareStop`, so the drain is always a single
  poll with no cancel (`Properties.GoAutonomousModeSteps`).
- Releasing a drive button sends STOP_DRIVEBASE but does not stop the
  watchdog (mission_control.cpp:150-168). A watchdog armed by W/S/A/D still
  fires afterwards (`Properties.DriveReleaseKeepsWatchdog`).
- `setTeleop(false)` greys only 13 buttons. The reset, raise-arm, turntable,
  start and clock buttons stay enabled in autonomy. An enabled clockwise
  button therefore sends a teleop goal while the autonomy goal is
  outstanding (`Properties.TurntableButtonDuringAutonomy`).
- Nothing stops the watchdog on a mode switch. A watchdog armed before
  `goAutonomousMode` sends STOP_DRIVEBASE during autonomy
  (`Properties.WatchdogAfterAutonomy`).
- Teleop input is locked out during autonomy only in part.
  - `Properties.RunKeepsInv` proves two things while an autonomy goal is outstanding:
    - the keys are off;
    - the 13 buttons that `setTeleop(false)` greys stay greyed, because only
      `goTeleopMode` enables them again, after draining the autonomy channel.
  - `Properties.KeysInertDuringAutonomy` and
    `Properties.SurfaceInertDuringAutonomy` prove that a key, or a signal of one
    of those buttons, then does nothing.
  - Not locked out are:
    - the clicks on the reset, raise-arm and turntable buttons;
    - the watchdog;
    - the start and clock buttons.

    A start click re-runs `goAutonomousMode`, which sends DRIVING_POSITION and
    STOP_DRIVEBASE on teleop while the earlier autonomy goal is still
    outstanding.

## Model

| member | source | states |
|---|---|---|
| Codes.FromTag | src/tfr_mission_control/src/tfr_mission_control/mission_control.cpp:447-452 | decoding a goal's uint8 tag gives a code carrying that tag, and exactly the tags 0..18 decode |
| Codes.TagInjective | src/tfr_mission_control/src/tfr_mission_control/mission_control.cpp:447-452 | two codes with the same uint8 tag are the same code, so the receiving side can tell every command apart |
| Input.KeyBinding | src/tfr_mission_control/src/tfr_mission_control/mission_control.cpp:321-361 | a key is bound iff it is one of W, S, A, D, Space, U, J, I, K, O, L. It re-arms the watchdog iff it is W/S/A/D, which is iff its code is a drive motion. W, S, A, D send the press code of the forward, backward, left and right buttons. Space sends their release code (STOP_DRIVEBASE). U, J, I, O, L send what clicking the lower-arm, upper-arm-extend and scoop buttons of the same name sends. K sends I's code, not the upper-arm-retract button's, and no key sends UPPER_ARM_RETRACT |
| Input.Filter | src/tfr_mission_control/src/tfr_mission_control/mission_control.cpp:315-369 | an event is consumed iff it is a key press while teleopEnabled. Otherwise it is passed on with nothing sent and the watchdog untouched. A consumed key sends a code iff it is bound, and that code is the one its binding names. It re-arms the watchdog iff it is a drive key |
| Input.Connection | src/tfr_mission_control/src/tfr_mission_control/mission_control.cpp:90-168 | every non-drive button's click has a slot, and only a click does. startMission, startManual, goAutonomousMode and goTeleopMode each run for exactly one event: a click on start, clock, autonomy and teleop respectively. Exactly the four switch buttons flip a switch, each its own switch to its own state. Every other click sends a panel code. A drive button's press sends its motion and its release sends STOP_DRIVEBASE, and only a press sends a drive motion |
| Input.ClickCodesDistinct | src/tfr_mission_control/src/tfr_mission_control/mission_control.cpp:113-147 | no two code buttons send the same code when clicked |
| Input.EveryPanelCodeHasButton | src/tfr_mission_control/src/tfr_mission_control/mission_control.cpp:113-147 | every panel code has a button whose click sends it. With ClickCodesDistinct, the 13 code buttons and the 13 codes other than the drive motions, STOP_DRIVEBASE and DRIVING_POSITION correspond one to one |
| Properties.AttemptClosedForm | src/tfr_mission_control/src/tfr_mission_control/mission_control.cpp:455-470 | a retry loop consumes exactly the failed answers and the first success of the script, and logs one failed call (plus a sleep when backing off) per failure, then one success |
| Properties.RetryLogShape | src/tfr_mission_control/src/tfr_mission_control/mission_control.cpp:226-227 | a retry log has k failures (each followed by a sleep when backing off) and ends in the one successful call. It acknowledges no toggle unless the request is a toggle |
| Properties.RetryLogLastAck | src/tfr_mission_control/src/tfr_mission_control/mission_control.cpp:455-470 | the only acknowledgement in a retry log is its final success, so it acknowledges exactly its own toggle request |
| Properties.RetryUnfold | src/tfr_mission_control/src/tfr_mission_control/mission_control.cpp:459 | one turn of the retry loop: success ends it, failure (and its sleep) starts the next turn |
| Properties.PollsClosedForm | src/tfr_mission_control/src/tfr_mission_control/mission_control.cpp:428 | the drain loop makes exactly Pending(c) not-done polls, each followed by a cancel, then one poll that reports done, and leaves the channel done |
| Properties.DrainLogShape | src/tfr_mission_control/src/tfr_mission_control/mission_control.cpp:439 | in a drain log only the last poll reports done, not-done polls alternate with cancels, and no goal is sent and no toggle acknowledged |
| Properties.DrainUnfold | src/tfr_mission_control/src/tfr_mission_control/mission_control.cpp:428 | one turn of the drain loop: a poll that reports done ends it, otherwise a cancel starts the next turn |
| Properties.ToggleSwitchHonest | src/tfr_mission_control/src/tfr_mission_control/mission_control.cpp:455-461 | toggleControl/toggleMotors log the retried call before the two widget updates. Afterwards the enable button is enabled iff the state is off and the disable button iff it is on. No other button, flag or channel changes, and the last acknowledged toggle of the switch is the requested state |
| Properties.ToggleSwitchAcks | src/tfr_mission_control/src/tfr_mission_control/mission_control.cpp:464-470 | a toggle replaces the last acknowledgement of its own switch with the requested state and keeps the other switch's |
| Properties.ResetTurntableSteps | src/tfr_mission_control/src/tfr_mission_control/mission_control.cpp:220-232 | resetTurntable logs, in order: motors off (retried, then the buttons), zero_turntable retried with a sleep between attempts, DRIVING_POSITION sent, motors on |
| Properties.ResetTurntableZeroesWhileOff | src/tfr_mission_control/src/tfr_mission_control/mission_control.cpp:220-232 | the successful zero_turntable call happens while the last acknowledged motor toggle is "off", and it comes before everything else resetTurntable does after it |
| Properties.ResetTurntableAcks | src/tfr_mission_control/src/tfr_mission_control/mission_control.cpp:220-232 | after resetTurntable the last acknowledged motor toggle is "on" and the control switch's is unchanged |
| Properties.ResetTurntableButtons | src/tfr_mission_control/src/tfr_mission_control/mission_control.cpp:220-232 | after resetTurntable the motor buttons show "on", every other button is as it was, and only the teleop channel (now busy) changed |
| Properties.ResetTurntableSends | src/tfr_mission_control/src/tfr_mission_control/mission_control.cpp:220-232 | resetTurntable sends exactly one goal, DRIVING_POSITION on teleop, and none on autonomy |
| Properties.SoftwareStopSteps | src/tfr_mission_control/src/tfr_mission_control/mission_control.cpp:284-288 | softwareStop logs the STOP_DRIVEBASE goal and then its wait. It leaves the teleop channel done and changes nothing else |
| Properties.SoftwareStopSends | src/tfr_mission_control/src/tfr_mission_control/mission_control.cpp:284-288 | softwareStop sends exactly one goal, STOP_DRIVEBASE on teleop |
| Properties.GoAutonomousModeSteps | src/tfr_mission_control/src/tfr_mission_control/mission_control.cpp:422-433 | after resetTurntable, goAutonomousMode logs the STOP_DRIVEBASE and its wait, the teleop button enabled, one poll of the teleop channel reporting done, the autonomy goal, and then the teleop surface greyed. It ends with the keys off, the teleop channel done and the autonomy goal outstanding |
| Properties.GoAutonomousModeExclusive | src/tfr_mission_control/src/tfr_mission_control/mission_control.cpp:422-433 | the one autonomy goal is sent right after a poll found the teleop channel done, which follows the waited-on STOP_DRIVEBASE. It ends with teleopEnabled false, teleop_button enabled, every teleop-surface button greyed, and the motors acknowledged and shown on |
| Properties.GoAutonomousModeSends | src/tfr_mission_control/src/tfr_mission_control/mission_control.cpp:422-433 | goAutonomousMode sends exactly one autonomy goal and, on teleop, exactly DRIVING_POSITION then STOP_DRIVEBASE |
| Properties.GoTeleopModeSteps | src/tfr_mission_control/src/tfr_mission_control/mission_control.cpp:436-444 | goTeleopMode logs the teleop button greyed, the full drain of the autonomy channel, the 13 teleop buttons enabled, and a STOP_DRIVEBASE waited on. It ends with the keys on and the autonomy channel drained |
| Properties.GoTeleopModeExclusive | src/tfr_mission_control/src/tfr_mission_control/mission_control.cpp:436-444 | the teleop surface is enabled right after a poll found the autonomy channel done, and the switch ends with a waited-on STOP_DRIVEBASE. It ends with teleopEnabled true, all 13 teleop buttons enabled, teleop_button greyed and both channels done |
| Properties.EachGoalOwnLag | src/tfr_mission_control/src/tfr_mission_control/mission_control.cpp:422-444 | after autonomy, teleop and autonomy again, the second autonomy goal needs its own scripted number of cancels. The first drain does not use up the robot side's refusals |
| Properties.GoTeleopModeSends | src/tfr_mission_control/src/tfr_mission_control/mission_control.cpp:436-444 | goTeleopMode sends no autonomy goal and exactly one teleop goal, STOP_DRIVEBASE |
| Properties.StartTimeServiceSteps | src/tfr_mission_control/src/tfr_mission_control/mission_control.cpp:395-401 | starting the time service logs one start_mission call and then the clock start, and changes nothing but the answers and the log |
| Properties.StartMissionEnds | src/tfr_mission_control/src/tfr_mission_control/mission_control.cpp:404-410 | startMission calls start_mission before anything else. It ends in autonomy with control and motors acknowledged and shown on, the keys off and the autonomy goal outstanding |
| Properties.StartManualEnds | src/tfr_mission_control/src/tfr_mission_control/mission_control.cpp:413-419 | startManual calls start_mission before anything else. It ends in teleop with control and motors acknowledged and shown on, the keys on and both channels done |
| Properties.PerformTeleopSends | src/tfr_mission_control/src/tfr_mission_control/mission_control.cpp:447-452 | performTeleop(c) appends exactly one teleop goal whose code is c's tag, and changes nothing else |
| Properties.KeyEventSends | src/tfr_mission_control/src/tfr_mission_control/mission_control.cpp:315-369 | with the keys on, a bound key sends exactly one teleop goal carrying its binding's code and an unbound key sends nothing. Only W/S/A/D arm the watchdog. Buttons, flag, answers and the autonomy channel are untouched. With the keys off nothing changes |
| Properties.UpperArmKeys | src/tfr_mission_control/src/tfr_mission_control/mission_control.cpp:349-354 | I and K have the same effect: one UPPER_ARM_EXTEND goal |
| Properties.WatchdogSingleShot | src/tfr_mission_control/src/tfr_mission_control/mission_control.cpp:110-111 | an expiry of an armed watchdog sends exactly one STOP_DRIVEBASE and leaves it disarmed, so a second expiry does nothing |
| Properties.DriveReleaseKeepsWatchdog | src/tfr_mission_control/src/tfr_mission_control/mission_control.cpp:150-168 | releasing an enabled drive button sends exactly STOP_DRIVEBASE and leaves the watchdog as it was |
| Properties.DrivePressSends | src/tfr_mission_control/src/tfr_mission_control/mission_control.cpp:150-168 | pressing an enabled drive button sends exactly its motion code and does not arm the watchdog |
| Properties.TurntableButtonDuringAutonomy | src/tfr_mission_control/src/tfr_mission_control/mission_control.cpp:237-253 | setTeleop(false) leaves the turntable buttons enabled, so after goAutonomousMode a clockwise click sends a teleop goal while the autonomy goal is outstanding |
| Properties.WatchdogAfterAutonomy | src/tfr_mission_control/src/tfr_mission_control/mission_control.cpp:422-433 | a watchdog armed before goAutonomousMode still sends STOP_DRIVEBASE on teleop while the autonomy goal is outstanding |
| Properties.StepKeepsAcks | src/tfr_mission_control/src/tfr_mission_control/mission_control.cpp:455-470 | every event keeps the control and motor buttons showing the last acknowledged toggle, never an unconfirmed one |
| Properties.StepKeepsExclusive | src/tfr_mission_control/src/tfr_mission_control/mission_control.cpp:422-444 | every event keeps "keys on implies no autonomy goal outstanding" |
| Properties.InitInv | src/tfr_mission_control/src/tfr_mission_control/mission_control.cpp:15-25 | the console starts with the invariants, whatever the form enables, whatever the robot side will answer, and however many cancels each goal will need |
| Properties.RunKeepsInv | src/tfr_mission_control/src/tfr_mission_control/mission_control.cpp:422-470 | all three invariants hold after any stream of events |
| Properties.StepKeepsSurface | src/tfr_mission_control/src/tfr_mission_control/mission_control.cpp:237-253 | every event keeps the 13 teleop-surface buttons greyed while an autonomy goal is outstanding |
| Properties.SurfaceInertDuringAutonomy | src/tfr_mission_control/src/tfr_mission_control/mission_control.cpp:237-253 | after any stream of events, while an autonomy goal is outstanding, any signal of a teleop-surface button changes nothing |
| Properties.KeysInertDuringAutonomy | src/tfr_mission_control/src/tfr_mission_control/mission_control.cpp:315-369 | after any stream of events, while an autonomy goal is outstanding, a key event changes nothing |
| MissionControl.MissionControl.constructor | src/tfr_mission_control/src/tfr_mission_control/mission_control.cpp:15-25 | the object starts as `Init`: keys off, watchdog idle, both channels done, and the invariants hold |
| MissionControl.MissionControl.SetTeleop | src/tfr_mission_control/src/tfr_mission_control/mission_control.cpp:237-253 | sets the 13 teleop widgets and teleopEnabled to the value |
| MissionControl.MissionControl.SetAutonomy | src/tfr_mission_control/src/tfr_mission_control/mission_control.cpp:258-261 | sets teleop_button to the value |
| MissionControl.MissionControl.SetControl | src/tfr_mission_control/src/tfr_mission_control/mission_control.cpp:266-270 | enable button to !value, then disable button to value |
| MissionControl.MissionControl.SetMotors | src/tfr_mission_control/src/tfr_mission_control/mission_control.cpp:275-279 | enable button to !value, then disable button to value |
| MissionControl.MissionControl.PerformTeleop | src/tfr_mission_control/src/tfr_mission_control/mission_control.cpp:447-452 | sends the code's uint8 tag as a teleop goal |
| MissionControl.MissionControl.SoftwareStop | src/tfr_mission_control/src/tfr_mission_control/mission_control.cpp:284-288 | STOP_DRIVEBASE, then waits for the teleop result |
| MissionControl.MissionControl.CallUntilAccepted | src/tfr_mission_control/src/tfr_mission_control/mission_control.cpp:226-227 | the retry loop (with or without the sleep) ends in exactly the state the recursive retry reaches |
| MissionControl.MissionControl.ToggleControl | src/tfr_mission_control/src/tfr_mission_control/mission_control.cpp:455-461 | retries toggle_control until it succeeds, then shows the state; the buttons show it and it is the last acknowledged |
| MissionControl.MissionControl.ToggleMotors | src/tfr_mission_control/src/tfr_mission_control/mission_control.cpp:464-470 | retries toggle_motors until it succeeds, then shows the state; the buttons show it and it is the last acknowledged |
| MissionControl.MissionControl.ResetTurntable | src/tfr_mission_control/src/tfr_mission_control/mission_control.cpp:220-232 | motors off, zero_turntable retried with sleeps, DRIVING_POSITION, motors on |
| MissionControl.MissionControl.CancelUntilDone | src/tfr_mission_control/src/tfr_mission_control/mission_control.cpp:428 | the poll-and-cancel loop ends in exactly the state the recursive drain reaches |
| MissionControl.MissionControl.GoAutonomousMode | src/tfr_mission_control/src/tfr_mission_control/mission_control.cpp:422-433 | the autonomy transition; it ends with keys off, teleop_button enabled, teleop done and the autonomy goal outstanding |
| MissionControl.MissionControl.GoTeleopMode | src/tfr_mission_control/src/tfr_mission_control/mission_control.cpp:436-444 | the teleop transition; it ends with keys on, the 13 teleop buttons enabled, teleop_button greyed and both channels done |
| MissionControl.MissionControl.StartTimeService | src/tfr_mission_control/src/tfr_mission_control/mission_control.cpp:395-401 | one start_mission call, answer ignored, then the clock start |
| MissionControl.MissionControl.StartMission | src/tfr_mission_control/src/tfr_mission_control/mission_control.cpp:404-410 | time service, autonomy, control on, motors on |
| MissionControl.MissionControl.StartManual | src/tfr_mission_control/src/tfr_mission_control/mission_control.cpp:413-419 | time service, teleop, control on, motors on |
| MissionControl.MissionControl.EventFilter | src/tfr_mission_control/src/tfr_mission_control/mission_control.cpp:315-369 | returns true exactly for a key press while teleopEnabled, does what the key table says, and keeps the invariants |
| MissionControl.MissionControl.MotorKillTimeout | src/tfr_mission_control/src/tfr_mission_control/mission_control.cpp:110-111 | the single-shot watchdog's timeout sends STOP_DRIVEBASE once, and keeps the invariants |
| MissionControl.MissionControl.Dispatch | src/tfr_mission_control/src/tfr_mission_control/mission_control.cpp:90-147 | running a connected slot does exactly what that console operation does (performTeleop, startMission, startManual, goAutonomousMode, goTeleopMode, toggleControl or toggleMotors) |
| MissionControl.MissionControl.OnGoalFinished | src/tfr_mission_control/src/tfr_mission_control/mission_control.cpp:428 | a goal finishing on the robot side marks only its channel done, which the isDone polls then observe, and keeps the invariants |
| MissionControl.MissionControl.OnButton | src/tfr_mission_control/src/tfr_mission_control/mission_control.cpp:90-168 | runs the slot the signal is connected to, nothing for a disabled button, and keeps the invariants |

## Left out

- Widget construction, `waitForServer`, `shutdownPlugin`, the destructor, `saveSettings` and `restoreSettings` (mission_control.cpp:50-211) are Qt and ROS lifecycle code with no coordination logic. Only the signal/slot table of `initPlugin` is modelled. Which buttons the form enables at first is a parameter of the constructor.
- `widget->setFocus()` at the end of both mode transitions only moves keyboard focus. It is not modelled.
- The `ROS_INFO` message of `resetTurntable` (mission_control.cpp:222) writes to the ROS log only. It is not an entry of the model's effect log.
- `updateStatus`, `renderStatus` and `renderClock` are left out. They format status text, scroll the log and display the remaining time in floating point. `getStatusMessage` is not part of this model. The `time_remaining` service is not modelled. The clock timer appears only as the `StartClock` entry in the log.
- Real time is not modelled: there is no `MOTOR_INTERVAL`, no 0.1 s sleep duration and no 500 ms clock period. The watchdog is an armed flag plus an explicit expiry event, and the sleep is a `Backoff` entry in the log.
- Concurrency is not modelled. Qt signal/slot queuing and ROS callback threads become one sequential stream of events. A goal the robot side finishes on its own is an explicit event.
- Liveness of the retry and drain loops and of `waitForResult` is assumed, not proved. The robot side eventually answers `true`, eventually honours a cancel, and eventually finishes a goal that is waited on, as `replies`, `Channel.lag`, `Channel.lags` and `WaitForResult` encode. The wait concerns `softwareStop`, and through it `goAutonomousMode` and `goTeleopMode`. A robot side that never does so is outside the model.
- What the robot side does with a goal is not modelled. A channel records only whether its current goal is done. The teleop and autonomy goal payloads are a uint8 code and the empty goal.
- The content of the `toggle_control`/`toggle_motors` requests is modelled: it is the requested state. The content of the empty requests to `/zero_turntable` and `start_mission` is not.
- The numeric values of the teleop codes are in `tfr_utilities`, which is not part of this model. `Codes.Tag` numbers the codes in declaration order. Only two things matter: the tags are distinct, and they fit in a uint8.
- src/tfr_control/src/controller.cpp is context only. Its `read` and `write` are empty, and `register_joint` only registers hardware handles.
- `setTeleop` (the 13 widgets) and `setAutonomy` log one `Enable` entry each, so the order of the 13 `setEnabled` calls within `setTeleop` is not recorded. `setControl` and `setMotors` log one entry per button, in the source's order.
