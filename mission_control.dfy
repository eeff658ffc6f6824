/**
 * The operator console as the object it is: its fields change in place, the
 * retry and drain loops are `while` loops, and every method is proved to
 * take the console from `old(Model())` to exactly the state the
 * corresponding coordinator function computes. The invariants proved about those
 * functions then hold of the object: the event handlers keep `Valid()`.
 *
 * The robot side is part of the object's state, as the coordinator has it:
 * `replies` are the answers the next service calls get, and each channel
 * records whether its goal is done and how many cancel requests its server
 * still ignores.
 */
module MissionControl {
  import opened Wrappers
  import opened Codes
  import opened Input
  import opened Coordinator
  import Properties

  class MissionControl {
    var teleopEnabled: bool
    var enabled: set<Button>
    var watchdogArmed: bool
    var teleop: Channel
    var autonomy: Channel
    var replies: seq<bool>
    var log: seq<Effect>

    /** The console's state as a value. */
    function Model(): Console
      reads this
    {
      Console(teleopEnabled, enabled, watchdogArmed, teleop, autonomy, replies, log)
    }

    /** The keys and the teleop surface never drive while autonomy runs, and the switch buttons show what was acknowledged. */
    predicate Valid()
      reads this
    {
      Properties.Inv(Model())
    }

    constructor(initiallyEnabled: set<Button>, answers: seq<bool>, teleopLags: seq<nat>, autonomyLags: seq<nat>)
      ensures Model() == Init(initiallyEnabled, answers, teleopLags, autonomyLags)
      ensures Valid()
    {
      teleopEnabled := false;
      enabled := initiallyEnabled;
      watchdogArmed := false;
      teleop := Channel(true, 0, teleopLags);
      autonomy := Channel(true, 0, autonomyLags);
      replies := answers;
      log := [];
    }

    /* -------------------------------------------------------------------- */
    /* The outside world: service calls, action clients, widgets            */
    /* -------------------------------------------------------------------- */

    /** ros::service::call: the robot side's next answer; once the answers run out, every call succeeds. */
    method CallService(req: Request) returns (ok: bool)
      modifies this
      ensures Outcome(ok, Model()) == Coordinator.CallOnce(old(Model()), req)
    {
      if replies == [] {
        ok := true;
      } else {
        ok := replies[0];
        replies := replies[1..];
      }
      log := log + [Call(req, ok)];
    }

    method Sleep()
      modifies this
      ensures Model() == Coordinator.Sleep(old(Model()))
    {
      log := log + [Backoff];
    }

    method SendGoal(g: Goal)
      modifies this
      ensures Model() == Coordinator.SendGoal(old(Model()), g)
    {
      match ChannelOf(g) {
        case TeleopChannel => teleop := Fresh(teleop);
        case AutonomyChannel => autonomy := Fresh(autonomy);
      }
      log := log + [Send(g)];
    }

    /** getState().isDone() */
    method IsDone(ch: ChannelId) returns (done: bool)
      modifies this
      ensures done == Chan(old(Model()), ch).done
      ensures Model() == Poll(old(Model()), ch)
    {
      done := if ch == TeleopChannel then teleop.done else autonomy.done;
      log := log + [Polled(ch, done)];
    }

    method CancelAllGoals(ch: ChannelId)
      modifies this
      ensures Model() == Coordinator.CancelAllGoals(old(Model()), ch)
    {
      match ch {
        case TeleopChannel => teleop := Cancelled(teleop);
        case AutonomyChannel => autonomy := Cancelled(autonomy);
      }
      log := log + [CancelAll(ch)];
    }

    method WaitForResult(ch: ChannelId)
      modifies this
      ensures Model() == Coordinator.WaitForResult(old(Model()), ch)
    {
      match ch {
        case TeleopChannel => teleop := teleop.(done := true);
        case AutonomyChannel => autonomy := autonomy.(done := true);
      }
      log := log + [Waited(ch)];
    }

    /** setEnabled(on) on each of the widgets `bs`. */
    method SetEnabled(bs: set<Button>, on: bool)
      modifies this
      ensures Model() == SetButtons(old(Model()), bs, on)
    {
      enabled := if on then enabled + bs else enabled - bs;
      log := log + [Enable(bs, on)];
    }

    /* -------------------------------------------------------------------- */
    /* UI bookkeeping                                                       */
    /* -------------------------------------------------------------------- */

    method SetTeleop(value: bool)
      modifies this
      ensures Model() == Coordinator.SetTeleop(old(Model()), value)
    {
      SetEnabled(TeleopSurface, value);
      teleopEnabled := value;
    }

    method SetAutonomy(value: bool)
      modifies this
      ensures Model() == Coordinator.SetAutonomy(old(Model()), value)
    {
      SetEnabled({TeleopButton}, value);
    }

    method SetControl(value: bool)
      modifies this
      ensures Model() == SetSwitch(old(Model()), Control, value)
    {
      SetEnabled({ControlEnableButton}, !value);
      SetEnabled({ControlDisableButton}, value);
    }

    method SetMotors(value: bool)
      modifies this
      ensures Model() == SetSwitch(old(Model()), Motors, value)
    {
      SetEnabled({MotorEnableButton}, !value);
      SetEnabled({MotorDisableButton}, value);
    }

    /* -------------------------------------------------------------------- */
    /* Commands                                                             */
    /* -------------------------------------------------------------------- */

    method PerformTeleop(c: Code)
      modifies this
      ensures Model() == Coordinator.PerformTeleop(old(Model()), c)
    {
      SendGoal(TeleopGoal(Tag(c)));
    }

    method SoftwareStop()
      modifies this
      ensures Model() == Coordinator.SoftwareStop(old(Model()))
    {
      PerformTeleop(StopDrivebase);
      WaitForResult(TeleopChannel);
    }

    /** Call until the service reports success, sleeping between attempts when `backoff` is set. */
    method CallUntilAccepted(req: Request, backoff: bool)
      modifies this
      ensures Model() == Retry(old(Model()), req, backoff)
    {
      ghost var target := Retry(Model(), req, backoff);
      Properties.RetryUnfold(Model(), req, backoff);
      var ok := CallService(req);
      while !ok
        invariant ok ==> Model() == target
        invariant !ok ==> Retry(if backoff then Coordinator.Sleep(Model()) else Model(), req, backoff) == target
        decreases |replies| + (if ok then 0 else 1)
      {
        if backoff {
          Sleep();
        }
        Properties.RetryUnfold(Model(), req, backoff);
        ok := CallService(req);
      }
    }

    method ToggleControl(state: bool)
      modifies this
      ensures Model() == ToggleSwitch(old(Model()), Control, state)
      ensures Properties.Shows(enabled, Control, state) && Properties.LastAck(log, Control) == Some(state)
    {
      Properties.ToggleSwitchHonest(Model(), Control, state);
      CallUntilAccepted(Toggle(Control, state), false);
      SetControl(state);
    }

    method ToggleMotors(state: bool)
      modifies this
      ensures Model() == ToggleSwitch(old(Model()), Motors, state)
      ensures Properties.Shows(enabled, Motors, state) && Properties.LastAck(log, Motors) == Some(state)
    {
      Properties.ToggleSwitchHonest(Model(), Motors, state);
      CallUntilAccepted(Toggle(Motors, state), false);
      SetMotors(state);
    }

    method ResetTurntable()
      modifies this
      ensures Model() == Coordinator.ResetTurntable(old(Model()))
    {
      ToggleMotors(false);
      CallUntilAccepted(ZeroTurntable, true);
      PerformTeleop(DrivingPosition);
      ToggleMotors(true);
    }

    /** while (!ch.getState().isDone()) ch.cancelAllGoals(); */
    method CancelUntilDone(ch: ChannelId)
      modifies this
      ensures Model() == Drain(old(Model()), ch)
    {
      ghost var target := Drain(Model(), ch);
      Properties.DrainUnfold(Model(), ch);
      var done := IsDone(ch);
      while !done
        invariant done == Chan(Model(), ch).done
        invariant done ==> Model() == target
        invariant !done ==> Drain(Coordinator.CancelAllGoals(Model(), ch), ch) == target
        decreases Pending(Chan(Model(), ch))
      {
        CancelAllGoals(ch);
        Properties.DrainUnfold(Model(), ch);
        done := IsDone(ch);
      }
    }

    /* -------------------------------------------------------------------- */
    /* Mode transitions                                                     */
    /* -------------------------------------------------------------------- */

    method GoAutonomousMode()
      modifies this
      ensures Model() == Coordinator.GoAutonomousMode(old(Model()))
      ensures !teleopEnabled && TeleopButton in enabled && teleop.done && !autonomy.done
    {
      Properties.GoAutonomousModeEnds(Model());
      ResetTurntable();
      SoftwareStop();
      SetAutonomy(true);
      CancelUntilDone(TeleopChannel);
      SendGoal(AutonomyGoal);
      SetTeleop(false);
    }

    method GoTeleopMode()
      modifies this
      ensures Model() == Coordinator.GoTeleopMode(old(Model()))
      ensures teleopEnabled && TeleopSurface <= enabled && TeleopButton !in enabled && teleop.done && autonomy.done
    {
      Properties.GoTeleopModeEnds(Model());
      SetAutonomy(false);
      CancelUntilDone(AutonomyChannel);
      SetTeleop(true);
      SoftwareStop();
    }

    method StartTimeService()
      modifies this
      ensures Model() == Coordinator.StartTimeService(old(Model()))
    {
      var _ := CallService(StartMissionClock);
      log := log + [StartClock];
    }

    method StartMission()
      modifies this
      ensures Model() == Coordinator.StartMission(old(Model()))
    {
      StartTimeService();
      GoAutonomousMode();
      ToggleControl(true);
      ToggleMotors(true);
    }

    method StartManual()
      modifies this
      ensures Model() == Coordinator.StartManual(old(Model()))
    {
      StartTimeService();
      GoTeleopMode();
      ToggleControl(true);
      ToggleMotors(true);
    }

    /* -------------------------------------------------------------------- */
    /* Events                                                               */
    /* -------------------------------------------------------------------- */

    /** The key filter: with the keys on, every key press is consumed, bound or not. */
    method EventFilter(e: Event) returns (consumed: bool)
      modifies this
      ensures consumed == Filter(e, old(teleopEnabled)).consumed
      ensures Model() == KeyEvent(old(Model()), e)
      ensures old(Valid()) ==> Valid()
    {
      ghost var before := Model();
      if e.KeyPress? && teleopEnabled {
        var k := e.key;
        if k == KeyW {
          watchdogArmed := true;
          PerformTeleop(Forward);
        } else if k == KeyS {
          watchdogArmed := true;
          PerformTeleop(Backward);
        } else if k == KeyA {
          watchdogArmed := true;
          PerformTeleop(Left);
        } else if k == KeyD {
          watchdogArmed := true;
          PerformTeleop(Right);
        } else if k == KeySpace {
          PerformTeleop(StopDrivebase);
        } else if k == KeyU {
          PerformTeleop(LowerArmExtend);
        } else if k == KeyJ {
          PerformTeleop(LowerArmRetract);
        } else if k == KeyI {
          PerformTeleop(UpperArmExtend);
        } else if k == KeyK {
          PerformTeleop(UpperArmExtend);
        } else if k == KeyO {
          PerformTeleop(ScoopExtend);
        } else if k == KeyL {
          PerformTeleop(ScoopRetract);
        }
        consumed := true;
      } else {
        consumed := false;
      }
      if Properties.Inv(before) {
        Properties.StepKeepsAcks(before, KeyInput(e));
        Properties.StepKeepsExclusive(before, KeyInput(e));
        Properties.StepKeepsSurface(before, KeyInput(e));
      }
    }

    /** The motor watchdog's timeout; a single-shot timer is idle once it has fired. */
    method MotorKillTimeout()
      modifies this
      ensures Model() == WatchdogTimeout(old(Model()))
      ensures old(Valid()) ==> Valid()
    {
      ghost var before := Model();
      if watchdogArmed {
        watchdogArmed := false;
        PerformTeleop(StopDrivebase);
      }
      if Properties.Inv(before) {
        Properties.StepKeepsAcks(before, WatchdogExpired);
        Properties.StepKeepsExclusive(before, WatchdogExpired);
        Properties.StepKeepsSurface(before, WatchdogExpired);
      }
    }

    /** Runs the slot a signal is connected to. */
    method Dispatch(slot: Slot)
      modifies this
      ensures Model() == Perform(old(Model()), slot)
    {
      match slot
      case SendCode(c) => PerformTeleop(c);
      case BeginMission => StartMission();
      case BeginManual => StartManual();
      case EnterAutonomy => GoAutonomousMode();
      case EnterTeleop => GoTeleopMode();
      case Flip(Control, on) => ToggleControl(on);
      case Flip(Motors, on) => ToggleMotors(on);
    }

    /** A button signal; a disabled button emits none. */
    method OnButton(ev: ButtonEvent)
      modifies this
      ensures Model() == ButtonSignal(old(Model()), ev)
      ensures old(Valid()) ==> Valid()
    {
      ghost var before := Model();
      var slot := Connection(ev);
      if ev.button in enabled && slot.Some? {
        Dispatch(slot.value);
      }
      if Properties.Inv(before) {
        Properties.StepKeepsAcks(before, ButtonInput(ev));
        Properties.StepKeepsExclusive(before, ButtonInput(ev));
        Properties.StepKeepsSurface(before, ButtonInput(ev));
      }
    }

    /** The robot side finishes the channel's current goal on its own. */
    method OnGoalFinished(ch: ChannelId)
      modifies this
      ensures Model() == GoalFinished(old(Model()), ch)
      ensures old(Valid()) ==> Valid()
    {
      match ch
      case TeleopChannel => teleop := teleop.(done := true);
      case AutonomyChannel => autonomy := autonomy.(done := true);
    }
  }
}
