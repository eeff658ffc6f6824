/**
 * The input side of the console: the keyboard table of the event filter and
 * the table that connects the widgets' signals to the console's slots.
 * Both are pure lookups.
 */
module Input {
  import opened Wrappers
  import opened Codes

  // Qt key codes of the keys the event filter recognises.
  const KeySpace: int := 0x20
  const KeyA: int := 0x41
  const KeyD: int := 0x44
  const KeyI: int := 0x49
  const KeyJ: int := 0x4a
  const KeyK: int := 0x4b
  const KeyL: int := 0x4c
  const KeyO: int := 0x4f
  const KeyS: int := 0x53
  const KeyU: int := 0x55
  const KeyW: int := 0x57

  /** The keys that drive the robot; holding one keeps the motor watchdog armed. */
  const DriveKeys: set<int> := {KeyW, KeyS, KeyA, KeyD}

  /** Every key the event filter sends a command for. */
  const BoundKeys: set<int> := DriveKeys + {KeySpace, KeyU, KeyJ, KeyI, KeyK, KeyO, KeyL}

  /** An event delivered to the console's widget: a key press, or anything else. */
  datatype Event = KeyPress(key: int) | OtherEvent

  /** What a recognised key does: the code it sends, and whether it re-arms the watchdog. */
  datatype KeyAction = KeyAction(code: Code, armsWatchdog: bool)

  /** The switch of the event filter, key by key. */
  function KeyBinding(key: int): (r: Option<KeyAction>)
    ensures r.Some? <==> key in BoundKeys
    ensures r.Some? ==> (r.value.armsWatchdog <==> key in DriveKeys)
    ensures r.Some? ==> (r.value.armsWatchdog <==> r.value.code in DriveCodes)
    ensures (r.Some? && r.value.code == UpperArmExtend) <==> (key == KeyI || key == KeyK)
    ensures r.Some? ==> r.value.code != UpperArmRetract
    // The drive keys send the motion of the drive button of the same direction, Space its release.
    ensures key == KeyW ==> r == Some(KeyAction(DriveCode(ForwardButton), true))
    ensures key == KeyS ==> r == Some(KeyAction(DriveCode(BackwardButton), true))
    ensures key == KeyA ==> r == Some(KeyAction(DriveCode(LeftButton), true))
    ensures key == KeyD ==> r == Some(KeyAction(DriveCode(RightButton), true))
    ensures key == KeySpace ==>
      r.Some? && !r.value.armsWatchdog && Connection(ButtonEvent(Released, ForwardButton)) == Some(SendCode(r.value.code))
    // The arm and scoop keys send what the button of the same name sends; K repeats I.
    ensures key == KeyU ==> r.Some? && Connection(ButtonEvent(Clicked, LowerArmExtendButton)) == Some(SendCode(r.value.code))
    ensures key == KeyJ ==> r.Some? && Connection(ButtonEvent(Clicked, LowerArmRetractButton)) == Some(SendCode(r.value.code))
    ensures key == KeyI ==> r.Some? && Connection(ButtonEvent(Clicked, UpperArmExtendButton)) == Some(SendCode(r.value.code))
    ensures key == KeyK ==> r.Some? && Connection(ButtonEvent(Clicked, UpperArmExtendButton)) == Some(SendCode(r.value.code))
    ensures key == KeyK ==> r.Some? && Connection(ButtonEvent(Clicked, UpperArmRetractButton)) != Some(SendCode(r.value.code))
    ensures key == KeyO ==> r.Some? && Connection(ButtonEvent(Clicked, ScoopExtendButton)) == Some(SendCode(r.value.code))
    ensures key == KeyL ==> r.Some? && Connection(ButtonEvent(Clicked, ScoopRetractButton)) == Some(SendCode(r.value.code))
  {
    if key == KeyW then Some(KeyAction(Forward, true))
    else if key == KeyS then Some(KeyAction(Backward, true))
    else if key == KeyA then Some(KeyAction(Left, true))
    else if key == KeyD then Some(KeyAction(Right, true))
    else if key == KeySpace then Some(KeyAction(StopDrivebase, false))
    else if key == KeyU then Some(KeyAction(LowerArmExtend, false))
    else if key == KeyJ then Some(KeyAction(LowerArmRetract, false))
    else if key == KeyI then Some(KeyAction(UpperArmExtend, false))
    else if key == KeyK then Some(KeyAction(UpperArmExtend, false))
    else if key == KeyO then Some(KeyAction(ScoopExtend, false))
    else if key == KeyL then Some(KeyAction(ScoopRetract, false))
    else None
  }

  /**
   * The outcome of the event filter for one event: whether the event is
   * consumed, the teleop code it sends, if any, and whether the motor
   * watchdog is (re)started.
   */
  datatype FilterResult = FilterResult(consumed: bool, send: Option<Code>, rearm: bool)

  /** The event filter seen as a function of the event and the teleopEnabled flag. */
  function Filter(e: Event, teleopEnabled: bool): (r: FilterResult)
    ensures !teleopEnabled ==> r == FilterResult(false, None, false)
    ensures r.consumed <==> e.KeyPress? && teleopEnabled
    ensures !r.consumed ==> r.send.None? && !r.rearm
    ensures r.consumed ==> (r.send.Some? <==> e.key in BoundKeys)
    ensures r.rearm <==> r.consumed && e.key in DriveKeys
    ensures r.rearm ==> r.send.Some? && r.send.value in DriveCodes
    ensures r.send.Some? ==> KeyBinding(e.key).Some? && r.send.value == KeyBinding(e.key).value.code
  {
    if e.KeyPress? && teleopEnabled then
      match KeyBinding(e.key)
      case None => FilterResult(true, None, false)
      case Some(a) => FilterResult(true, Some(a.code), a.armsWatchdog)
    else
      FilterResult(false, None, false)
  }

  /** The push buttons of the console's form. */
  datatype Button =
    | StartButton | ClockButton | AutonomyButton | TeleopButton
    | ControlEnableButton | ControlDisableButton
    | MotorEnableButton | MotorDisableButton
    | ResetStartingButton | ResetDumpingButton | DumpButton | DigButton
    | LowerArmExtendButton | LowerArmRetractButton
    | UpperArmExtendButton | UpperArmRetractButton
    | ScoopExtendButton | ScoopRetractButton
    | RaiseArmButton | CwButton | CcwButton
    | ForwardButton | BackwardButton | LeftButton | RightButton

  /** The thirteen buttons that setTeleop greys and ungreys together. */
  const TeleopSurface: set<Button> := {
    LeftButton, RightButton, ForwardButton, BackwardButton, AutonomyButton,
    DumpButton, DigButton, LowerArmExtendButton, LowerArmRetractButton,
    UpperArmExtendButton, UpperArmRetractButton, ScoopExtendButton, ScoopRetractButton}

  /** The drive buttons: a teleop goal on press, a stop on release. */
  const DriveButtons: set<Button> := {ForwardButton, BackwardButton, LeftButton, RightButton}

  /** The two operational switches behind an enable/disable pair of buttons. */
  datatype Switch = Control | Motors

  function EnableButton(sw: Switch): Button
  {
    match sw
    case Control => ControlEnableButton
    case Motors => MotorEnableButton
  }

  function DisableButton(sw: Switch): Button
  {
    match sw
    case Control => ControlDisableButton
    case Motors => MotorDisableButton
  }

  /** The buttons of both switches. */
  const SwitchButtons: set<Button> :=
    {ControlEnableButton, ControlDisableButton, MotorEnableButton, MotorDisableButton}

  datatype Signal = Clicked | Pressed | Released

  /** A signal emitted by a button. */
  datatype ButtonEvent = ButtonEvent(signal: Signal, button: Button)

  /** The console operation a signal is connected to. */
  datatype Slot =
    | SendCode(code: Code)         // performTeleop(code)
    | BeginMission                 // startMission
    | BeginManual                  // startManual
    | EnterAutonomy                // goAutonomousMode
    | EnterTeleop                  // goTeleopMode
    | Flip(sw: Switch, on: bool)   // toggleControl(on) / toggleMotors(on)

  /** The drive button's motion code. */
  function DriveCode(b: Button): Code
    requires b in DriveButtons
  {
    match b
    case ForwardButton => Forward
    case BackwardButton => Backward
    case LeftButton => Left
    case RightButton => Right
  }

  /** The codes that a click on one of the form's code buttons sends. */
  const PanelCodes: set<Code> := {
    ResetStarting, ResetDumping, Dump, Dig, LowerArmExtend, LowerArmRetract,
    UpperArmExtend, UpperArmRetract, ScoopExtend, ScoopRetract,
    RaiseArm, Clockwise, Counterclockwise}

  /** The signal/slot connections made when the console is set up. */
  function Connection(ev: ButtonEvent): (r: Option<Slot>)
    ensures ev.button in DriveButtons && ev.signal == Released ==> r == Some(SendCode(StopDrivebase))
    ensures ev.button in DriveButtons && ev.signal == Pressed ==> r == Some(SendCode(DriveCode(ev.button)))
    ensures ev.button in DriveButtons && ev.signal == Clicked ==> r.None?
    ensures ev.button !in DriveButtons && ev.signal != Clicked ==> r.None?
    ensures ev.button !in DriveButtons && ev.signal == Clicked ==> r.Some?
    ensures r.Some? && r.value.SendCode? && r.value.code in DriveCodes ==> ev.signal == Pressed
    ensures r.Some? && r.value.Flip? ==>
      ev.button == (if r.value.on then EnableButton(r.value.sw) else DisableButton(r.value.sw))
    ensures (r.Some? && r.value.Flip?) <==> ev.signal == Clicked && ev.button in SwitchButtons
    // Each mode slot has exactly one button.
    ensures r == Some(BeginMission) <==> ev == ButtonEvent(Clicked, StartButton)
    ensures r == Some(BeginManual) <==> ev == ButtonEvent(Clicked, ClockButton)
    ensures r == Some(EnterAutonomy) <==> ev == ButtonEvent(Clicked, AutonomyButton)
    ensures r == Some(EnterTeleop) <==> ev == ButtonEvent(Clicked, TeleopButton)
    ensures ev.signal == Clicked && r.Some? && r.value.SendCode? ==> r.value.code in PanelCodes
  {
    match ev.signal
    case Clicked => (
      match ev.button
      case StartButton => Some(BeginMission)
      case ClockButton => Some(BeginManual)
      case AutonomyButton => Some(EnterAutonomy)
      case TeleopButton => Some(EnterTeleop)
      case ControlEnableButton => Some(Flip(Control, true))
      case ControlDisableButton => Some(Flip(Control, false))
      case MotorEnableButton => Some(Flip(Motors, true))
      case MotorDisableButton => Some(Flip(Motors, false))
      case ResetStartingButton => Some(SendCode(ResetStarting))
      case ResetDumpingButton => Some(SendCode(ResetDumping))
      case DumpButton => Some(SendCode(Dump))
      case DigButton => Some(SendCode(Dig))
      case LowerArmExtendButton => Some(SendCode(LowerArmExtend))
      case LowerArmRetractButton => Some(SendCode(LowerArmRetract))
      case UpperArmExtendButton => Some(SendCode(UpperArmExtend))
      case UpperArmRetractButton => Some(SendCode(UpperArmRetract))
      case ScoopExtendButton => Some(SendCode(ScoopExtend))
      case ScoopRetractButton => Some(SendCode(ScoopRetract))
      case RaiseArmButton => Some(SendCode(RaiseArm))
      case CwButton => Some(SendCode(Clockwise))
      case CcwButton => Some(SendCode(Counterclockwise))
      case _ => None)
    case Pressed => if ev.button in DriveButtons then Some(SendCode(DriveCode(ev.button))) else None
    case Released => if ev.button in DriveButtons then Some(SendCode(StopDrivebase)) else None
  }

  /** The panel codes are every code but the drive motions, the stop and the driving position. */
  lemma PanelCodesAreTheRest(c: Code)
    ensures c in PanelCodes <==> c !in DriveCodes && c != StopDrivebase && c != DrivingPosition
  {
  }

  /** No two code buttons send the same code when clicked. */
  lemma ClickCodesDistinct(b: Button, d: Button, c: Code)
    requires Connection(ButtonEvent(Clicked, b)) == Some(SendCode(c))
    requires Connection(ButtonEvent(Clicked, d)) == Some(SendCode(c))
    ensures b == d
  {
  }

  /** Every panel code has a button whose click sends it, so clicks and panel codes correspond one to one. */
  lemma EveryPanelCodeHasButton(c: Code)
    requires c in PanelCodes
    ensures exists b :: Connection(ButtonEvent(Clicked, b)) == Some(SendCode(c))
  {
    var b := match c
      case ResetStarting => ResetStartingButton
      case ResetDumping => ResetDumpingButton
      case Dump => DumpButton
      case Dig => DigButton
      case LowerArmExtend => LowerArmExtendButton
      case LowerArmRetract => LowerArmRetractButton
      case UpperArmExtend => UpperArmExtendButton
      case UpperArmRetract => UpperArmRetractButton
      case ScoopExtend => ScoopExtendButton
      case ScoopRetract => ScoopRetractButton
      case RaiseArm => RaiseArmButton
      case Clockwise => CwButton
      case _ => CcwButton;
    assert Connection(ButtonEvent(Clicked, b)) == Some(SendCode(c));
  }
}
