/**
 * The mode and command coordinator of the operator console, as a pure state
 * machine. A `Console` value holds what the console owns (the teleopEnabled
 * flag, which buttons are enabled, whether the motor watchdog is armed), the
 * state of the two action channels as the robot side keeps it, the answers
 * the robot side will give to the next service calls, and a log of every
 * effect the console has had on the outside world, in order.
 *
 * Every operation of the console is a function from the state before to the
 * state after; the retry and drain loops are recursive functions whose
 * termination rests on the robot side eventually answering (see `replies`
 * and `Channel.lag`, drawn for each goal from `Channel.lags`).
 */
module Coordinator {
  import opened Wrappers
  import opened Codes
  import opened Input

  datatype ChannelId = TeleopChannel | AutonomyChannel

  /** A goal: a teleop command carrying its code, or the empty autonomy goal. */
  datatype Goal = TeleopGoal(code: byte) | AutonomyGoal

  function ChannelOf(g: Goal): ChannelId
  {
    match g
    case TeleopGoal(_) => TeleopChannel
    case AutonomyGoal => AutonomyChannel
  }

  /** The service requests the console makes: toggle_control or toggle_motors, /zero_turntable, start_mission. */
  datatype Request = Toggle(sw: Switch, on: bool) | ZeroTurntable | StartMissionClock

  /** One effect of the console on the outside world. */
  datatype Effect =
    | Call(req: Request, ok: bool)               // a service call and whether it succeeded
    | Backoff                                    // the 0.1 s sleep between zero_turntable attempts
    | Send(goal: Goal)                           // sendGoal on the goal's channel
    | CancelAll(channel: ChannelId)              // cancelAllGoals
    | Polled(channel: ChannelId, done: bool)     // getState().isDone() and its answer
    | Waited(channel: ChannelId)                 // waitForResult returned
    | Enable(buttons: set<Button>, on: bool)     // setEnabled on these widgets
    | StartClock                                 // the mission clock timer started

  /**
   * An action channel as the robot side keeps it: whether its current goal is
   * done, how many more cancelAllGoals requests the server will let pass
   * before that goal reaches a done state, and the same number for each goal
   * still to be sent on the channel, in order (once they are used up, a goal
   * gives way to the first cancel).
   */
  datatype Channel = Channel(done: bool, lag: nat, lags: seq<nat>)

  datatype Console = Console(
    teleopEnabled: bool,
    enabled: set<Button>,
    watchdogArmed: bool,
    teleop: Channel,
    autonomy: Channel,
    replies: seq<bool>,   // answers to the next service calls, in order; after them every call succeeds
    log: seq<Effect>)

  /**
   * The console as it is after construction: teleop disabled, the watchdog
   * idle, no goal sent on either channel, nothing done yet. Which buttons the
   * form enables at first is a parameter.
   */
  function Init(enabled: set<Button>, replies: seq<bool>, teleopLags: seq<nat>, autonomyLags: seq<nat>): Console
  {
    Console(false, enabled, false, Channel(true, 0, teleopLags), Channel(true, 0, autonomyLags), replies, [])
  }

  function Chan(s: Console, ch: ChannelId): Channel
  {
    match ch
    case TeleopChannel => s.teleop
    case AutonomyChannel => s.autonomy
  }

  function WithChan(s: Console, ch: ChannelId, c: Channel): Console
  {
    match ch
    case TeleopChannel => s.(teleop := c)
    case AutonomyChannel => s.(autonomy := c)
  }

  /* ---------------------------------------------------------------------- */
  /* Service calls                                                          */
  /* ---------------------------------------------------------------------- */

  datatype Outcome = Outcome(ok: bool, next: Console)

  /** One service call: the robot side's next scripted answer, success once the script is used up. */
  function CallOnce(s: Console, req: Request): (o: Outcome)
    ensures !o.ok ==> |o.next.replies| == |s.replies| - 1
    ensures |o.next.replies| <= |s.replies|
    ensures o.next.log == s.log + [Call(req, o.ok)]
  {
    if s.replies == [] then Outcome(true, s.(log := s.log + [Call(req, true)]))
    else Outcome(s.replies[0], s.(replies := s.replies[1..], log := s.log + [Call(req, s.replies[0])]))
  }

  function Sleep(s: Console): Console
  {
    s.(log := s.log + [Backoff])
  }

  /** What one retry loop logs, and the answers it leaves unread. */
  datatype Attempts = Attempts(log: seq<Effect>, rest: seq<bool>)

  /**
   * The attempts of a retry loop against the scripted answers: a failed
   * call, followed by a sleep when `backoff` is set, repeats the loop.
   */
  function Attempt(replies: seq<bool>, req: Request, backoff: bool): Attempts
    decreases |replies|
  {
    if replies == [] then Attempts([Call(req, true)], [])
    else if replies[0] then Attempts([Call(req, true)], replies[1..])
    else
      var more := Attempt(replies[1..], req, backoff);
      Attempts([Call(req, false)] + (if backoff then [Backoff] else []) + more.log, more.rest)
  }

  /** Call until the call succeeds, sleeping between attempts when `backoff` is set. */
  function Retry(s: Console, req: Request, backoff: bool): Console
  {
    var a := Attempt(s.replies, req, backoff);
    s.(replies := a.rest, log := s.log + a.log)
  }

  /* ---------------------------------------------------------------------- */
  /* Action channels                                                        */
  /* ---------------------------------------------------------------------- */

  /** The channel once a new goal is sent on it: running, with the next scripted lag. */
  function Fresh(c: Channel): (r: Channel)
    ensures !r.done
    ensures c.lags == [] ==> r.lag == 0 && r.lags == []
    ensures c.lags != [] ==> [r.lag] + r.lags == c.lags
  {
    if c.lags == [] then Channel(false, 0, []) else Channel(false, c.lags[0], c.lags[1..])
  }

  function SendGoal(s: Console, g: Goal): Console
  {
    WithChan(s, ChannelOf(g), Fresh(Chan(s, ChannelOf(g)))).(log := s.log + [Send(g)])
  }

  function Poll(s: Console, ch: ChannelId): Console
  {
    s.(log := s.log + [Polled(ch, Chan(s, ch).done)])
  }

  /** The robot side's response to one cancel request. */
  function Cancelled(c: Channel): Channel
  {
    if c.done then c
    else if c.lag == 0 then c.(done := true)
    else c.(lag := c.lag - 1)
  }

  function CancelAllGoals(s: Console, ch: ChannelId): Console
  {
    WithChan(s, ch, Cancelled(Chan(s, ch))).(log := s.log + [CancelAll(ch)])
  }

  /** waitForResult: blocks until the current goal of the channel is done. */
  function WaitForResult(s: Console, ch: ChannelId): Console
  {
    WithChan(s, ch, Chan(s, ch).(done := true)).(log := s.log + [Waited(ch)])
  }

  /** How many cancel requests the channel still needs before it reports done. */
  function Pending(c: Channel): nat
  {
    if c.done then 0 else c.lag + 1
  }

  /** What one drain loop logs, and the channel it leaves. */
  datatype Drainage = Drainage(log: seq<Effect>, chan: Channel)

  /** Poll the channel; while the poll reports a goal running, cancel all goals and poll again. */
  function Polls(c: Channel, ch: ChannelId): Drainage
    decreases Pending(c)
  {
    if c.done then Drainage([Polled(ch, true)], c)
    else
      var more := Polls(Cancelled(c), ch);
      Drainage([Polled(ch, false), CancelAll(ch)] + more.log, more.chan)
  }

  /** Poll the channel and cancel all its goals until a poll reports done. */
  function Drain(s: Console, ch: ChannelId): Console
  {
    var d := Polls(Chan(s, ch), ch);
    WithChan(s, ch, d.chan).(log := s.log + d.log)
  }

  /* ---------------------------------------------------------------------- */
  /* UI bookkeeping                                                         */
  /* ---------------------------------------------------------------------- */

  function SetButtons(s: Console, bs: set<Button>, on: bool): Console
  {
    s.(enabled := if on then s.enabled + bs else s.enabled - bs, log := s.log + [Enable(bs, on)])
  }

  /** setTeleop: the teleop surface and the flag the event filter reads. */
  function SetTeleop(s: Console, value: bool): Console
  {
    SetButtons(s, TeleopSurface, value).(teleopEnabled := value)
  }

  /** setAutonomy: the button that leaves autonomy. */
  function SetAutonomy(s: Console, value: bool): Console
  {
    SetButtons(s, {TeleopButton}, value)
  }

  /** setControl and setMotors: enable button iff off, disable button iff on. */
  function SetSwitch(s: Console, sw: Switch, value: bool): Console
  {
    SetButtons(SetButtons(s, {EnableButton(sw)}, !value), {DisableButton(sw)}, value)
  }

  /** toggleControl and toggleMotors: retry the service until it succeeds, then update the buttons. */
  function ToggleSwitch(s: Console, sw: Switch, state: bool): Console
  {
    SetSwitch(Retry(s, Toggle(sw, state), false), sw, state)
  }

  /* ---------------------------------------------------------------------- */
  /* Commands and mode transitions                                          */
  /* ---------------------------------------------------------------------- */

  function PerformTeleop(s: Console, c: Code): Console
  {
    SendGoal(s, TeleopGoal(Tag(c)))
  }

  function SoftwareStop(s: Console): Console
  {
    WaitForResult(PerformTeleop(s, StopDrivebase), TeleopChannel)
  }

  function ResetTurntable(s: Console): Console
  {
    var off := ToggleSwitch(s, Motors, false);
    var zeroed := Retry(off, ZeroTurntable, true);
    var driving := PerformTeleop(zeroed, DrivingPosition);
    ToggleSwitch(driving, Motors, true)
  }

  function GoAutonomousMode(s: Console): Console
  {
    var stopped := SoftwareStop(ResetTurntable(s));
    var drained := Drain(SetAutonomy(stopped, true), TeleopChannel);
    SetTeleop(SendGoal(drained, AutonomyGoal), false)
  }

  function GoTeleopMode(s: Console): Console
  {
    var drained := Drain(SetAutonomy(s, false), AutonomyChannel);
    SoftwareStop(SetTeleop(drained, true))
  }

  /** One start_mission call, whose answer is not looked at, then the mission clock. */
  function StartTimeService(s: Console): Console
  {
    var o := CallOnce(s, StartMissionClock);
    o.next.(log := o.next.log + [StartClock])
  }

  function StartMission(s: Console): Console
  {
    ToggleSwitch(ToggleSwitch(GoAutonomousMode(StartTimeService(s)), Control, true), Motors, true)
  }

  function StartManual(s: Console): Console
  {
    ToggleSwitch(ToggleSwitch(GoTeleopMode(StartTimeService(s)), Control, true), Motors, true)
  }

  /* ---------------------------------------------------------------------- */
  /* Events                                                                 */
  /* ---------------------------------------------------------------------- */

  /** The event filter's effect on the console. */
  function KeyEvent(s: Console, e: Event): (r: Console)
    ensures !s.teleopEnabled ==> r == s
  {
    var f := Filter(e, s.teleopEnabled);
    var armed := if f.rearm then s.(watchdogArmed := true) else s;
    match f.send
    case None => armed
    case Some(c) => PerformTeleop(armed, c)
  }

  /** The motor watchdog's single-shot timeout; nothing happens when the watchdog is idle. */
  function WatchdogTimeout(s: Console): Console
  {
    if s.watchdogArmed then PerformTeleop(s.(watchdogArmed := false), StopDrivebase) else s
  }

  function Perform(s: Console, slot: Slot): Console
  {
    match slot
    case SendCode(c) => PerformTeleop(s, c)
    case BeginMission => StartMission(s)
    case BeginManual => StartManual(s)
    case EnterAutonomy => GoAutonomousMode(s)
    case EnterTeleop => GoTeleopMode(s)
    case Flip(sw, on) => ToggleSwitch(s, sw, on)
  }

  /** A button signal; a disabled button emits none. */
  function ButtonSignal(s: Console, ev: ButtonEvent): Console
  {
    if ev.button !in s.enabled then s
    else match Connection(ev)
      case None => s
      case Some(slot) => Perform(s, slot)
  }

  /** The robot side finishes a channel's current goal on its own. */
  function GoalFinished(s: Console, ch: ChannelId): Console
  {
    WithChan(s, ch, Chan(s, ch).(done := true))
  }

  /** The single sequential stream of events the console reacts to. */
  datatype Stimulus =
    | KeyInput(event: Event)
    | ButtonInput(ev: ButtonEvent)
    | WatchdogExpired
    | Finished(channel: ChannelId)

  function Step(s: Console, i: Stimulus): Console
  {
    match i
    case KeyInput(e) => KeyEvent(s, e)
    case ButtonInput(ev) => ButtonSignal(s, ev)
    case WatchdogExpired => WatchdogTimeout(s)
    case Finished(ch) => GoalFinished(s, ch)
  }

  function Run(s: Console, inputs: seq<Stimulus>): Console
    decreases |inputs|
  {
    if inputs == [] then s else Run(Step(s, inputs[0]), inputs[1..])
  }
}
