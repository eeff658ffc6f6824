/**
 * What the console's operations do, stated against reference definitions
 * (the closed forms of the retry and drain loops, the goals a log sends, the
 * last acknowledged toggle), and the invariants every event keeps.
 */
module Properties {
  import opened Wrappers
  import opened Codes
  import opened Input
  import opened Coordinator

  /* ---------------------------------------------------------------------- */
  /* Reference definitions                                                  */
  /* ---------------------------------------------------------------------- */

  /** How many calls fail before the first success, given the scripted answers. */
  function Failures(replies: seq<bool>): nat
  {
    if replies == [] || replies[0] then 0 else 1 + Failures(replies[1..])
  }

  /** The answers left once a retry loop has had its success. */
  function RestAfter(replies: seq<bool>): seq<bool>
  {
    if replies == [] then [] else if replies[0] then replies[1..] else RestAfter(replies[1..])
  }

  /** k failed attempts, each followed by a sleep when `backoff` is set, then one success. */
  function RetryLog(req: Request, k: nat, backoff: bool): seq<Effect>
  {
    if k == 0 then [Call(req, true)]
    else [Call(req, false)] + (if backoff then [Backoff] else []) + RetryLog(req, k - 1, backoff)
  }

  /** n polls that report the goal still running, each followed by a cancel, then one poll that reports done. */
  function DrainLog(ch: ChannelId, n: nat): seq<Effect>
  {
    if n == 0 then [Polled(ch, true)] else [Polled(ch, false), CancelAll(ch)] + DrainLog(ch, n - 1)
  }

  /** The channel once drained. */
  function Drained(c: Channel): Channel
  {
    if c.done then c else c.(done := true, lag := 0)
  }

  /** The goals a log sends on a channel, in order. */
  function Sent(log: seq<Effect>, ch: ChannelId): seq<Goal>
  {
    if log == [] then []
    else (if log[0].Send? && ChannelOf(log[0].goal) == ch then [log[0].goal] else []) + Sent(log[1..], ch)
  }

  predicate IsAck(e: Effect)
  {
    e.Call? && e.ok && e.req.Toggle?
  }

  /** The state of the last toggle request of the switch the robot side acknowledged, if any. */
  function LastAck(log: seq<Effect>, sw: Switch): Option<bool>
    decreases |log|
  {
    if log == [] then None
    else
      var e := log[|log| - 1];
      if IsAck(e) && e.req.sw == sw then Some(e.req.on) else LastAck(log[..|log| - 1], sw)
  }

  predicate NoAck(t: seq<Effect>)
  {
    forall i :: 0 <= i < |t| ==> !IsAck(t[i])
  }

  /** The switch's buttons show state `on`: enable greyed iff on, disable greyed iff off. */
  predicate Shows(enabled: set<Button>, sw: Switch, on: bool)
  {
    (EnableButton(sw) in enabled <==> !on) && (DisableButton(sw) in enabled <==> on)
  }

  /** Invariant: the switch buttons show the last acknowledged toggle (never an unconfirmed one). */
  predicate AckHonest(s: Console)
  {
    forall sw :: LastAck(s.log, sw).Some? ==> Shows(s.enabled, sw, LastAck(s.log, sw).value)
  }

  /** Invariant: while keys drive the robot, no autonomy goal is outstanding. */
  predicate Exclusive(s: Console)
  {
    s.teleopEnabled ==> s.autonomy.done
  }

  /** Invariant: while an autonomy goal is outstanding, the teleop surface of the form is greyed. */
  predicate SurfaceLocked(s: Console)
  {
    !s.autonomy.done ==> s.enabled !! TeleopSurface
  }

  predicate Inv(s: Console)
  {
    Exclusive(s) && SurfaceLocked(s) && AckHonest(s)
  }

  /* ---------------------------------------------------------------------- */
  /* The retry and drain loops                                              */
  /* ---------------------------------------------------------------------- */

  /** A retry loop makes k failed calls of the same request and then exactly one successful one, last. */
  lemma {:induction false} RetryLogShape(req: Request, k: nat, backoff: bool)
    ensures |RetryLog(req, k, backoff)| == if backoff then 2 * k + 1 else k + 1
    ensures RetryLog(req, k, backoff)[|RetryLog(req, k, backoff)| - 1] == Call(req, true)
    ensures forall i :: 0 <= i < |RetryLog(req, k, backoff)| - 1 ==>
      RetryLog(req, k, backoff)[i] == Call(req, false) || (backoff && RetryLog(req, k, backoff)[i] == Backoff)
    ensures NoAck(RetryLog(req, k, backoff)) <==> !req.Toggle?
  {
    if k > 0 {
      RetryLogShape(req, k - 1, backoff);
      var head := [Call(req, false)] + (if backoff then [Backoff] else []);
      assert RetryLog(req, k, backoff) == head + RetryLog(req, k - 1, backoff);
    }
  }

  /** The retry loop in closed form: it consumes the failures and the first success of the script. */
  lemma {:induction false} AttemptClosedForm(replies: seq<bool>, req: Request, backoff: bool)
    ensures Attempt(replies, req, backoff) == Attempts(RetryLog(req, Failures(replies), backoff), RestAfter(replies))
    decreases |replies|
  {
    if replies != [] && !replies[0] {
      AttemptClosedForm(replies[1..], req, backoff);
    }
  }

  lemma RetryClosedForm(s: Console, req: Request, backoff: bool)
    ensures Retry(s, req, backoff)
         == s.(replies := RestAfter(s.replies), log := s.log + RetryLog(req, Failures(s.replies), backoff))
  {
    AttemptClosedForm(s.replies, req, backoff);
  }

  /** Draining takes Pending polls-and-cancels and one final poll that reports done. */
  lemma {:induction false} PollsClosedForm(c: Channel, ch: ChannelId)
    ensures Polls(c, ch) == Drainage(DrainLog(ch, Pending(c)), Drained(c))
    decreases Pending(c)
  {
    if !c.done {
      PollsClosedForm(Cancelled(c), ch);
      assert Pending(Cancelled(c)) == Pending(c) - 1;
    }
  }

  lemma DrainClosedForm(s: Console, ch: ChannelId)
    ensures Drain(s, ch)
         == WithChan(s, ch, Drained(Chan(s, ch))).(log := s.log + DrainLog(ch, Pending(Chan(s, ch))))
  {
    PollsClosedForm(Chan(s, ch), ch);
  }

  /** One turn of the retry loop: a successful call ends it, a failed one (and its sleep) starts the next turn. */
  lemma RetryUnfold(s: Console, req: Request, backoff: bool)
    ensures var o := CallOnce(s, req);
      Retry(s, req, backoff) == if o.ok then o.next else Retry(if backoff then Sleep(o.next) else o.next, req, backoff)
  {
    if s.replies != [] && !s.replies[0] {
      var more := Attempt(s.replies[1..], req, backoff);
      var head := [Call(req, false)] + (if backoff then [Backoff] else []);
      var n := if backoff then Sleep(CallOnce(s, req).next) else CallOnce(s, req).next;
      assert n == s.(replies := s.replies[1..], log := s.log + head);
      assert Attempt(s.replies, req, backoff) == Attempts(head + more.log, more.rest);
      assert s.log + (head + more.log) == (s.log + head) + more.log;
    }
  }

  /** One turn of the drain loop: a poll that reports done ends it, otherwise a cancel starts the next turn. */
  lemma DrainUnfold(s: Console, ch: ChannelId)
    ensures Drain(s, ch) == if Chan(s, ch).done then Poll(s, ch) else Drain(CancelAllGoals(Poll(s, ch), ch), ch)
  {
    if !Chan(s, ch).done {
      var more := Polls(Cancelled(Chan(s, ch)), ch);
      var head := [Polled(ch, false), CancelAll(ch)];
      assert s.log + (head + more.log) == (s.log + head) + more.log;
    }
  }

  /** A drain log: exactly one poll reports done, the last; before it, not-done polls alternate with cancels. */
  lemma {:induction false} DrainLogShape(ch: ChannelId, n: nat)
    ensures |DrainLog(ch, n)| == 2 * n + 1
    ensures DrainLog(ch, n)[2 * n] == Polled(ch, true)
    ensures forall i :: 0 <= i < n ==> DrainLog(ch, n)[2 * i] == Polled(ch, false) && DrainLog(ch, n)[2 * i + 1] == CancelAll(ch)
    ensures NoAck(DrainLog(ch, n))
    ensures Sent(DrainLog(ch, n), TeleopChannel) == [] && Sent(DrainLog(ch, n), AutonomyChannel) == []
  {
    if n > 0 {
      DrainLogShape(ch, n - 1);
      var rest := DrainLog(ch, n - 1);
      assert DrainLog(ch, n) == [Polled(ch, false), CancelAll(ch)] + rest;
      forall i | 0 <= i < n
        ensures DrainLog(ch, n)[2 * i] == Polled(ch, false) && DrainLog(ch, n)[2 * i + 1] == CancelAll(ch)
      {
        if i > 0 {
          assert DrainLog(ch, n)[2 * i] == rest[2 * (i - 1)];
          assert DrainLog(ch, n)[2 * i + 1] == rest[2 * (i - 1) + 1];
        }
      }
      assert DrainLog(ch, n)[1..][1..] == rest;
    }
  }

  /* ---------------------------------------------------------------------- */
  /* Logs                                                                   */
  /* ---------------------------------------------------------------------- */

  lemma {:induction false} SentConcat(a: seq<Effect>, b: seq<Effect>, ch: ChannelId)
    ensures Sent(a + b, ch) == Sent(a, ch) + Sent(b, ch)
    decreases |a|
  {
    if a != [] {
      SentConcat(a[1..], b, ch);
      assert (a + b)[1..] == a[1..] + b;
    } else {
      assert a + b == b;
    }
  }

  lemma {:induction false} RetryLogSendsNothing(req: Request, k: nat, backoff: bool, ch: ChannelId)
    ensures Sent(RetryLog(req, k, backoff), ch) == []
  {
    if k > 0 {
      RetryLogSendsNothing(req, k - 1, backoff, ch);
      var head := [Call(req, false)] + (if backoff then [Backoff] else []);
      SentConcat(head, RetryLog(req, k - 1, backoff), ch);
      assert Sent(head, ch) == [] by {
        if backoff { assert head[1..] == [Backoff]; assert head[1..][1..] == []; }
        else { assert head[1..] == []; }
      }
    }
  }

  lemma SentOne(e: Effect, ch: ChannelId)
    ensures Sent([e], ch) == if e.Send? && ChannelOf(e.goal) == ch then [e.goal] else []
  {
    assert [e][1..] == [];
  }

  /** The last acknowledged toggle of a concatenation is the second part's, if it has one. */
  lemma {:induction false} LastAckConcat(a: seq<Effect>, b: seq<Effect>, sw: Switch)
    ensures LastAck(a + b, sw) == if LastAck(b, sw).Some? then LastAck(b, sw) else LastAck(a, sw)
    decreases |b|
  {
    if b == [] {
      assert a + b == a;
    } else {
      assert (a + b)[..|a + b| - 1] == a + b[..|b| - 1];
      LastAckConcat(a, b[..|b| - 1], sw);
    }
  }

  lemma {:induction false} NoAckLastAck(t: seq<Effect>, sw: Switch)
    requires NoAck(t)
    ensures LastAck(t, sw) == None
    decreases |t|
  {
    if t != [] {
      NoAckLastAck(t[..|t| - 1], sw);
    }
  }

  /** The last acknowledgement in a retry log: its own request's, if it is a toggle of that switch. */
  lemma {:induction false} RetryLogLastAck(req: Request, k: nat, backoff: bool, sw: Switch)
    ensures LastAck(RetryLog(req, k, backoff), sw) == if req.Toggle? && req.sw == sw then Some(req.on) else None
  {
    if k == 0 {
      assert RetryLog(req, k, backoff) == [] + [Call(req, true)];
      LastAckConcat([], [Call(req, true)], sw);
    } else {
      var head := [Call(req, false)] + (if backoff then [Backoff] else []);
      RetryLogLastAck(req, k - 1, backoff, sw);
      assert NoAck(head);
      NoAckLastAck(head, sw);
      assert RetryLog(req, k, backoff) == head + RetryLog(req, k - 1, backoff);
      LastAckConcat(head, RetryLog(req, k - 1, backoff), sw);
    }
  }

  /* ---------------------------------------------------------------------- */
  /* Toggles                                                                */
  /* ---------------------------------------------------------------------- */

  /**
   * toggleControl/toggleMotors: the buttons change only after the service
   * call has succeeded, and then show the requested state; nothing else changes.
   */
  lemma ToggleSwitchHonest(s: Console, sw: Switch, state: bool)
    ensures var r := ToggleSwitch(s, sw, state);
      && r.log == s.log + RetryLog(Toggle(sw, state), Failures(s.replies), false) + SwitchLog(sw, state)
      && r.replies == RestAfter(s.replies)
      && Shows(r.enabled, sw, state)
      && (forall b :: b != EnableButton(sw) && b != DisableButton(sw) ==> (b in r.enabled <==> b in s.enabled))
      && r.teleopEnabled == s.teleopEnabled && r.watchdogArmed == s.watchdogArmed
      && r.teleop == s.teleop && r.autonomy == s.autonomy
      && LastAck(r.log, sw) == Some(state)
  {
    ToggleSwitchLog(s, sw, state);
    ToggleSwitchFrame(s, sw, state);
    ToggleSwitchAck(s, sw, state);
  }

  /** A toggle touches only the switch buttons, the answers and the log. */
  lemma ToggleSwitchFrame(s: Console, sw: Switch, state: bool)
    ensures var r := ToggleSwitch(s, sw, state);
      r == s.(enabled := r.enabled, replies := r.replies, log := r.log)
  {
    RetryClosedForm(s, Toggle(sw, state), false);
  }

  lemma ToggleSwitchLog(s: Console, sw: Switch, state: bool)
    ensures var r := ToggleSwitch(s, sw, state);
      && r.log == s.log + RetryLog(Toggle(sw, state), Failures(s.replies), false) + SwitchLog(sw, state)
      && r.replies == RestAfter(s.replies)
      && Shows(r.enabled, sw, state)
      && (forall b :: b != EnableButton(sw) && b != DisableButton(sw) ==> (b in r.enabled <==> b in s.enabled))
  {
    RetryClosedForm(s, Toggle(sw, state), false);
  }

  lemma ToggleSwitchAck(s: Console, sw: Switch, state: bool)
    ensures LastAck(ToggleSwitch(s, sw, state).log, sw) == Some(state)
  {
    ToggleSwitchAcks(s, sw, state, sw);
  }

  /** A toggle leaves as last acknowledgement its own switch's request, and the other switch's as it was. */
  lemma ToggleSwitchAcks(s: Console, sw: Switch, state: bool, w: Switch)
    ensures LastAck(ToggleSwitch(s, sw, state).log, w) == if w == sw then Some(state) else LastAck(s.log, w)
  {
    var rl := RetryLog(Toggle(sw, state), Failures(s.replies), false);
    var tail := SwitchLog(sw, state);
    ToggleSwitchLog(s, sw, state);
    RetryLogLastAck(Toggle(sw, state), Failures(s.replies), false, w);
    assert NoAck(tail);
    NoAckLastAck(tail, w);
    LastAckConcat(s.log + rl, tail, w);
    LastAckConcat(s.log, rl, w);
  }

  /** A toggle keeps the other switch's last acknowledgement. */
  lemma ToggleSwitchKeepsOther(s: Console, sw: Switch, other: Switch, state: bool)
    requires other != sw
    ensures LastAck(ToggleSwitch(s, sw, state).log, other) == LastAck(s.log, other)
  {
    ToggleSwitchAcks(s, sw, state, other);
  }

  /** The enable and disable updates a toggle makes once its call has succeeded. */
  function SwitchLog(sw: Switch, state: bool): seq<Effect>
  {
    [Enable({EnableButton(sw)}, !state), Enable({DisableButton(sw)}, state)]
  }

  /* ---------------------------------------------------------------------- */
  /* Mode transitions                                                       */
  /* ---------------------------------------------------------------------- */

  /** `a` is a prefix of `b`. */
  predicate Prefix(a: seq<Effect>, b: seq<Effect>)
  {
    |a| <= |b| && b[..|a|] == a
  }

  lemma PrefixAppend(a: seq<Effect>, t: seq<Effect>)
    ensures Prefix(a, a + t)
  {
    assert (a + t)[..|a|] == a;
  }

  lemma PrefixTrans(a: seq<Effect>, b: seq<Effect>, c: seq<Effect>)
    requires Prefix(a, b) && Prefix(b, c)
    ensures Prefix(a, c)
  {
    assert c[..|a|] == c[..|b|][..|a|];
  }

  /** The log of resetTurntable up to and including the successful zero_turntable call. */
  function ZeroedLog(s: Console): seq<Effect>
  {
    var q2 := RestAfter(s.replies);
    s.log + RetryLog(Toggle(Motors, false), Failures(s.replies), false) + SwitchLog(Motors, false)
          + RetryLog(ZeroTurntable, Failures(q2), true)
  }

  /**
   * resetTurntable, in order: motors off (acknowledged), zero_turntable
   * retried with a sleep between attempts, the driving position sent,
   * motors on.
   */
  lemma ResetTurntableSteps(s: Console)
    ensures var r := ResetTurntable(s);
      var q3 := RestAfter(RestAfter(s.replies));
      && r.log == ZeroedLog(s) + [Send(TeleopGoal(Tag(DrivingPosition)))]
                               + RetryLog(Toggle(Motors, true), Failures(q3), false) + SwitchLog(Motors, true)
      && r.replies == RestAfter(q3)
  {
    var off := ToggleSwitch(s, Motors, false);
    ToggleSwitchLog(s, Motors, false);
    RetryClosedForm(off, ZeroTurntable, true);
    var driving := PerformTeleop(Retry(off, ZeroTurntable, true), DrivingPosition);
    ToggleSwitchLog(driving, Motors, true);
  }

  /**
   * The turntable is zeroed only while the motors are acknowledged off:
   * the last entry of the zeroed prefix is the successful zero_turntable
   * call, and the last acknowledged motor toggle before it is "off".
   */
  lemma ResetTurntableZeroesWhileOff(s: Console)
    ensures var zeroed := ZeroedLog(s);
      && zeroed[|zeroed| - 1] == Call(ZeroTurntable, true)
      && LastAck(zeroed, Motors) == Some(false)
      && Prefix(zeroed, ResetTurntable(s).log)
  {
    var q2 := RestAfter(s.replies);
    var offLog := s.log + RetryLog(Toggle(Motors, false), Failures(s.replies), false) + SwitchLog(Motors, false);
    var zl := RetryLog(ZeroTurntable, Failures(q2), true);
    RetryLogShape(ZeroTurntable, Failures(q2), true);
    RetryLogLastAck(ZeroTurntable, Failures(q2), true, Motors);
    LastAckConcat(offLog, zl, Motors);
    var rl := RetryLog(Toggle(Motors, false), Failures(s.replies), false);
    assert NoAck(SwitchLog(Motors, false));
    NoAckLastAck(SwitchLog(Motors, false), Motors);
    LastAckConcat(s.log + rl, SwitchLog(Motors, false), Motors);
    RetryLogLastAck(Toggle(Motors, false), Failures(s.replies), false, Motors);
    LastAckConcat(s.log, rl, Motors);
    ResetTurntableSteps(s);
    var r := ResetTurntable(s);
    PrefixAppend(ZeroedLog(s), r.log[|ZeroedLog(s)|..]);
    assert r.log == ZeroedLog(s) + r.log[|ZeroedLog(s)|..];
  }

  /** resetTurntable's last acknowledgements: motors on, control as it was. */
  lemma ResetTurntableAcks(s: Console, w: Switch)
    ensures LastAck(ResetTurntable(s).log, w) == if w == Motors then Some(true) else LastAck(s.log, w)
  {
    var off := ToggleSwitch(s, Motors, false);
    ToggleSwitchAcks(s, Motors, false, w);
    var zeroed := Retry(off, ZeroTurntable, true);
    RetryClosedForm(off, ZeroTurntable, true);
    RetryLogLastAck(ZeroTurntable, Failures(off.replies), true, w);
    LastAckConcat(off.log, RetryLog(ZeroTurntable, Failures(off.replies), true), w);
    var driving := PerformTeleop(zeroed, DrivingPosition);
    assert NoAck([Send(TeleopGoal(Tag(DrivingPosition)))]);
    NoAckLastAck([Send(TeleopGoal(Tag(DrivingPosition)))], w);
    LastAckConcat(zeroed.log, [Send(TeleopGoal(Tag(DrivingPosition)))], w);
    ToggleSwitchAcks(driving, Motors, true, w);
  }

  /** resetTurntable's buttons and frame: the motor pair shows "on", the rest is untouched. */
  lemma ResetTurntableButtons(s: Console)
    ensures var r := ResetTurntable(s);
      && Shows(r.enabled, Motors, true)
      && (forall b :: b != MotorEnableButton && b != MotorDisableButton ==> (b in r.enabled <==> b in s.enabled))
      && r == s.(enabled := r.enabled, replies := r.replies, log := r.log, teleop := Fresh(s.teleop))
  {
    var off := ToggleSwitch(s, Motors, false);
    ToggleSwitchLog(s, Motors, false);
    ToggleSwitchFrame(s, Motors, false);
    var zeroed := Retry(off, ZeroTurntable, true);
    RetryClosedForm(off, ZeroTurntable, true);
    var driving := PerformTeleop(zeroed, DrivingPosition);
    ToggleSwitchLog(driving, Motors, true);
    ToggleSwitchFrame(driving, Motors, true);
  }

  /** resetTurntable in short: the motors end acknowledged on, the teleop channel is busy with the driving position. */
  lemma ResetTurntableEnds(s: Console)
    ensures var r := ResetTurntable(s);
      && Shows(r.enabled, Motors, true)
      && LastAck(r.log, Motors) == Some(true)
      && LastAck(r.log, Control) == LastAck(s.log, Control)
      && (forall b :: b != MotorEnableButton && b != MotorDisableButton ==> (b in r.enabled <==> b in s.enabled))
      && r == s.(enabled := r.enabled, replies := r.replies, log := r.log, teleop := Fresh(s.teleop))
  {
    ResetTurntableButtons(s);
    ResetTurntableAcks(s, Motors);
    ResetTurntableAcks(s, Control);
  }

  /** softwareStop: exactly one STOP_DRIVEBASE goal, waited to completion. */
  lemma SoftwareStopSteps(s: Console)
    ensures var r := SoftwareStop(s);
      && r.log == s.log + [Send(TeleopGoal(Tag(StopDrivebase))), Waited(TeleopChannel)]
      && r.teleop == Fresh(s.teleop).(done := true)
      && r == s.(teleop := r.teleop, log := r.log)
  {
  }

  /** What goAutonomousMode logs after resetTurntable. */
  function AutonomyTail(): seq<Effect>
  {
    [Send(TeleopGoal(Tag(StopDrivebase))), Waited(TeleopChannel),
     Enable({TeleopButton}, true), Polled(TeleopChannel, true),
     Send(AutonomyGoal), Enable(TeleopSurface, false)]
  }

  /** goAutonomousMode, step by step. Since the stop was waited on, the teleop drain is one poll. */
  lemma GoAutonomousModeSteps(s: Console)
    ensures var reset := ResetTurntable(s);
      var r := GoAutonomousMode(s);
      && r.log == reset.log + AutonomyTail()
      && r.enabled == (reset.enabled + {TeleopButton}) - TeleopSurface
      && !r.teleopEnabled
      && r.teleop == Fresh(Fresh(s.teleop)).(done := true)
      && r.autonomy == Fresh(s.autonomy)
      && r.watchdogArmed == s.watchdogArmed
      && r.replies == reset.replies
  {
    var reset := ResetTurntable(s);
    ResetTurntableEnds(s);
    var raised := SetAutonomy(SoftwareStop(reset), true);
    DrainClosedForm(raised, TeleopChannel);
  }

  /** goAutonomousMode sends one autonomy goal, and on teleop the driving position and a stop. */
  lemma GoAutonomousModeSends(s: Console, ch: ChannelId)
    ensures Sent(GoAutonomousMode(s).log, ch)
         == Sent(s.log, ch) + (if ch == AutonomyChannel then [AutonomyGoal]
                               else [TeleopGoal(Tag(DrivingPosition)), TeleopGoal(Tag(StopDrivebase))])
  {
    var reset := ResetTurntable(s);
    var stopped := SoftwareStop(reset);
    var raised := SetAutonomy(stopped, true);
    var drained := Drain(raised, TeleopChannel);
    var sent := SendGoal(drained, AutonomyGoal);
    ResetTurntableSends(s, ch);
    SoftwareStopSends(reset, ch);
    SetButtonsSends(stopped, {TeleopButton}, true, ch);
    DrainSends(raised, TeleopChannel, ch);
    SendGoalSends(drained, AutonomyGoal, ch);
    SetButtonsSends(sent, TeleopSurface, false, ch);
  }

  /**
   * goAutonomousMode retires the teleop channel before it commands autonomy:
   * its one autonomy goal is sent right after a poll found the teleop
   * channel done, which follows the waited-on STOP_DRIVEBASE. It ends with
   * keys off, the teleop button enabled, the motors acknowledged on, the
   * teleop channel done and the autonomy goal outstanding.
   */
  lemma GoAutonomousModeExclusive(s: Console)
    ensures var r := GoAutonomousMode(s);
      var n := |r.log|;
      && n >= 6
      && r.log[n - 6] == Send(TeleopGoal(Tag(StopDrivebase))) && r.log[n - 5] == Waited(TeleopChannel)
      && r.log[n - 3] == Polled(TeleopChannel, true) && r.log[n - 2] == Send(AutonomyGoal)
      && !r.teleopEnabled && TeleopButton in r.enabled && r.enabled !! TeleopSurface
      && Shows(r.enabled, Motors, true) && LastAck(r.log, Motors) == Some(true)
      && r.teleop.done && !r.autonomy.done
  {
    GoAutonomousModeOrder(s);
    GoAutonomousModeEnds(s);
    GoAutonomousModeMotors(s);
  }

  lemma GoAutonomousModeOrder(s: Console)
    ensures var r := GoAutonomousMode(s);
      var n := |r.log|;
      && n >= 6
      && r.log[n - 6] == Send(TeleopGoal(Tag(StopDrivebase))) && r.log[n - 5] == Waited(TeleopChannel)
      && r.log[n - 3] == Polled(TeleopChannel, true) && r.log[n - 2] == Send(AutonomyGoal)
  {
    GoAutonomousModeSteps(s);
  }

  lemma GoAutonomousModeEnds(s: Console)
    ensures var r := GoAutonomousMode(s);
      && !r.teleopEnabled && TeleopButton in r.enabled && r.enabled !! TeleopSurface
      && r.teleop.done && !r.autonomy.done
  {
    GoAutonomousModeSteps(s);
  }

  lemma GoAutonomousModeMotors(s: Console)
    ensures var r := GoAutonomousMode(s);
      Shows(r.enabled, Motors, true) && LastAck(r.log, Motors) == Some(true)
      && LastAck(r.log, Control) == LastAck(s.log, Control)
  {
    GoAutonomousModeShows(s);
    GoAutonomousModeAcks(s);
  }

  lemma GoAutonomousModeShows(s: Console)
    ensures Shows(GoAutonomousMode(s).enabled, Motors, true)
  {
    ResetTurntableButtons(s);
    GoAutonomousModeSwitches(s);
  }

  lemma GoAutonomousModeAcks(s: Console)
    ensures var r := GoAutonomousMode(s);
      LastAck(r.log, Motors) == Some(true) && LastAck(r.log, Control) == LastAck(s.log, Control)
  {
    var reset := ResetTurntable(s);
    ResetTurntableAcks(s, Motors);
    ResetTurntableAcks(s, Control);
    GoAutonomousModeLog(s);
    var last := AutonomyTail();
    assert NoAck(last);
    NoAckLastAck(last, Motors);
    NoAckLastAck(last, Control);
    LastAckConcat(reset.log, last, Motors);
    LastAckConcat(reset.log, last, Control);
  }

  /** softwareStop sends one goal, STOP_DRIVEBASE on the teleop channel. */
  lemma SoftwareStopSends(s: Console, ch: ChannelId)
    ensures Sent(SoftwareStop(s).log, ch)
         == Sent(s.log, ch) + (if ch == TeleopChannel then [TeleopGoal(Tag(StopDrivebase))] else [])
  {
    var p := PerformTeleop(s, StopDrivebase);
    SendGoalSends(s, TeleopGoal(Tag(StopDrivebase)), ch);
    SentConcat(p.log, [Waited(TeleopChannel)], ch);
    SentOne(Waited(TeleopChannel), ch);
  }

  /** Draining a channel sends no goal. */
  lemma DrainSends(s: Console, drained: ChannelId, ch: ChannelId)
    ensures Sent(Drain(s, drained).log, ch) == Sent(s.log, ch)
  {
    DrainClosedForm(s, drained);
    DrainLogShape(drained, Pending(Chan(s, drained)));
    SentConcat(s.log, DrainLog(drained, Pending(Chan(s, drained))), ch);
  }

  /** Retrying a call sends no goal. */
  lemma RetrySends(s: Console, req: Request, backoff: bool, ch: ChannelId)
    ensures Sent(Retry(s, req, backoff).log, ch) == Sent(s.log, ch)
  {
    RetryClosedForm(s, req, backoff);
    RetryLogSendsNothing(req, Failures(s.replies), backoff, ch);
    SentConcat(s.log, RetryLog(req, Failures(s.replies), backoff), ch);
  }

  /** Setting the enabled state of buttons sends no goal. */
  lemma SetButtonsSends(s: Console, bs: set<Button>, on: bool, ch: ChannelId)
    ensures Sent(SetButtons(s, bs, on).log, ch) == Sent(s.log, ch)
  {
    SentConcat(s.log, [Enable(bs, on)], ch);
    SentOne(Enable(bs, on), ch);
  }

  /** A toggle sends no goal. */
  lemma ToggleSwitchSends(s: Console, sw: Switch, state: bool, ch: ChannelId)
    ensures Sent(ToggleSwitch(s, sw, state).log, ch) == Sent(s.log, ch)
  {
    var called := Retry(s, Toggle(sw, state), false);
    RetrySends(s, Toggle(sw, state), false, ch);
    var half := SetButtons(called, {EnableButton(sw)}, !state);
    SetButtonsSends(called, {EnableButton(sw)}, !state, ch);
    SetButtonsSends(half, {DisableButton(sw)}, state, ch);
  }

  /** Sending a goal adds it to its channel's goals and to no other channel's. */
  lemma SendGoalSends(s: Console, g: Goal, ch: ChannelId)
    ensures Sent(SendGoal(s, g).log, ch) == Sent(s.log, ch) + (if ChannelOf(g) == ch then [g] else [])
  {
    SentConcat(s.log, [Send(g)], ch);
    SentOne(Send(g), ch);
  }

  /** resetTurntable sends one teleop goal, the driving position, and no autonomy goal. */
  lemma ResetTurntableSends(s: Console, ch: ChannelId)
    ensures Sent(ResetTurntable(s).log, ch)
         == Sent(s.log, ch) + (if ch == TeleopChannel then [TeleopGoal(Tag(DrivingPosition))] else [])
  {
    var off := ToggleSwitch(s, Motors, false);
    ToggleSwitchSends(s, Motors, false, ch);
    var zeroed := Retry(off, ZeroTurntable, true);
    RetrySends(off, ZeroTurntable, true, ch);
    var driving := PerformTeleop(zeroed, DrivingPosition);
    SendGoalSends(zeroed, TeleopGoal(Tag(DrivingPosition)), ch);
    ToggleSwitchSends(driving, Motors, true, ch);
  }

  /** goTeleopMode, step by step. */
  lemma GoTeleopModeSteps(s: Console)
    ensures var r := GoTeleopMode(s);
      && r.log == s.log + [Enable({TeleopButton}, false)] + DrainLog(AutonomyChannel, Pending(s.autonomy))
                        + [Enable(TeleopSurface, true), Send(TeleopGoal(Tag(StopDrivebase))), Waited(TeleopChannel)]
      && r.enabled == (s.enabled - {TeleopButton}) + TeleopSurface
      && r.teleopEnabled
      && r.autonomy == Drained(s.autonomy)
      && r.teleop == Fresh(s.teleop).(done := true)
      && r.watchdogArmed == s.watchdogArmed
      && r.replies == s.replies
  {
    DrainClosedForm(SetAutonomy(s, false), AutonomyChannel);
  }

  /**
   * Every autonomy goal meets the robot side's own cancel budget: after a
   * round trip to teleop and back, the second autonomy goal needs the second
   * scripted number of cancels, whatever the first drain used up.
   */
  lemma EachGoalOwnLag(s: Console, a: nat, b: nat, rest: seq<nat>)
    requires s.autonomy.lags == [a, b] + rest
    ensures var first := GoAutonomousMode(s);
      var back := GoTeleopMode(first);
      var again := GoAutonomousMode(back);
      && Pending(first.autonomy) == a + 1
      && back.autonomy.done
      && Pending(again.autonomy) == b + 1
      && again.autonomy.lags == rest
  {
    var first := GoAutonomousMode(s);
    GoAutonomousModeSteps(s);
    assert first.autonomy == Channel(false, a, [b] + rest);
    var back := GoTeleopMode(first);
    GoTeleopModeSteps(first);
    assert back.autonomy == Channel(true, 0, [b] + rest);
    GoAutonomousModeSteps(back);
  }

  /** goTeleopMode sends no autonomy goal and exactly one teleop goal, a STOP_DRIVEBASE. */
  lemma GoTeleopModeSends(s: Console, ch: ChannelId)
    ensures Sent(GoTeleopMode(s).log, ch)
         == Sent(s.log, ch) + (if ch == TeleopChannel then [TeleopGoal(Tag(StopDrivebase))] else [])
  {
    var lowered := SetAutonomy(s, false);
    var drained := Drain(lowered, AutonomyChannel);
    var keys := SetTeleop(drained, true);
    SetButtonsSends(s, {TeleopButton}, false, ch);
    DrainSends(lowered, AutonomyChannel, ch);
    SetButtonsSends(drained, TeleopSurface, true, ch);
    SoftwareStopSends(keys, ch);
  }

  /**
   * goTeleopMode retires the autonomy channel before it enables the keys:
   * the teleop surface is enabled right after a poll found the autonomy
   * channel done, and the mode switch ends with a STOP_DRIVEBASE waited to
   * completion. It ends with the keys on, all thirteen teleop buttons
   * enabled, the teleop button disabled and both channels done.
   */
  lemma GoTeleopModeExclusive(s: Console)
    ensures var r := GoTeleopMode(s);
      var n := |r.log|;
      && n >= 4
      && r.log[n - 4] == Polled(AutonomyChannel, true) && r.log[n - 3] == Enable(TeleopSurface, true)
      && r.log[n - 2] == Send(TeleopGoal(Tag(StopDrivebase))) && r.log[n - 1] == Waited(TeleopChannel)
      && r.teleopEnabled && TeleopSurface <= r.enabled && TeleopButton !in r.enabled
      && r.teleop.done && r.autonomy.done
  {
    GoTeleopModeOrder(s);
    GoTeleopModeEnds(s);
  }

  lemma GoTeleopModeOrder(s: Console)
    ensures var r := GoTeleopMode(s);
      var n := |r.log|;
      && n >= 4
      && r.log[n - 4] == Polled(AutonomyChannel, true) && r.log[n - 3] == Enable(TeleopSurface, true)
      && r.log[n - 2] == Send(TeleopGoal(Tag(StopDrivebase))) && r.log[n - 1] == Waited(TeleopChannel)
  {
    var p := Pending(s.autonomy);
    DrainLogShape(AutonomyChannel, p);
    GoTeleopModeSteps(s);
    var d := DrainLog(AutonomyChannel, p);
    var r := GoTeleopMode(s);
    var pre := s.log + [Enable({TeleopButton}, false)];
    var tail := [Enable(TeleopSurface, true), Send(TeleopGoal(Tag(StopDrivebase))), Waited(TeleopChannel)];
    assert r.log == (pre + d) + tail;
    assert r.log[|r.log| - 4] == (pre + d)[|pre + d| - 1] == d[2 * p];
  }

  lemma GoTeleopModeEnds(s: Console)
    ensures var r := GoTeleopMode(s);
      && r.teleopEnabled && TeleopSurface <= r.enabled && TeleopButton !in r.enabled
      && r.teleop.done && r.autonomy.done
  {
    GoTeleopModeSteps(s);
  }

  /* ---------------------------------------------------------------------- */
  /* Commands, keys, buttons and the watchdog                               */
  /* ---------------------------------------------------------------------- */

  /** performTeleop appends exactly one goal, on the teleop channel, carrying the code's tag; nothing else changes. */
  lemma PerformTeleopSends(s: Console, c: Code, ch: ChannelId)
    ensures var r := PerformTeleop(s, c);
      && Sent(r.log, ch) == Sent(s.log, ch) + (if ch == TeleopChannel then [TeleopGoal(Tag(c))] else [])
      && |r.log| == |s.log| + 1
      && r.log == s.log + [Send(TeleopGoal(Tag(c)))]
      && r == s.(teleop := r.teleop, log := r.log) && r.teleop == Fresh(s.teleop)
  {
    SendGoalSends(s, TeleopGoal(Tag(c)), ch);
  }

  /**
   * A key event. With the keys off nothing happens. With the keys on, a
   * bound key sends exactly one teleop goal, its binding's code, and an
   * unbound key sends nothing; only W, S, A and D arm the watchdog; the
   * buttons, the answers and the autonomy channel are untouched.
   */
  lemma KeyEventSends(s: Console, e: Event, ch: ChannelId)
    ensures var r := KeyEvent(s, e);
      var bound := s.teleopEnabled && e.KeyPress? && e.key in BoundKeys;
      && Sent(r.log, ch) == Sent(s.log, ch)
           + (if bound && ch == TeleopChannel then [TeleopGoal(Tag(KeyBinding(e.key).value.code))] else [])
      && (r.watchdogArmed <==> s.watchdogArmed || (s.teleopEnabled && e.KeyPress? && e.key in DriveKeys))
      && r.enabled == s.enabled && r.teleopEnabled == s.teleopEnabled
      && r.autonomy == s.autonomy && r.replies == s.replies
  {
    var f := Filter(e, s.teleopEnabled);
    var armed := if f.rearm then s.(watchdogArmed := true) else s;
    if f.send.Some? {
      PerformTeleopSends(armed, f.send.value, ch);
    }
  }

  /** I and K are bound to the same command, UPPER_ARM_EXTEND, and no key sends UPPER_ARM_RETRACT. */
  lemma UpperArmKeys(s: Console, ch: ChannelId)
    requires s.teleopEnabled
    ensures KeyEvent(s, KeyPress(KeyI)) == KeyEvent(s, KeyPress(KeyK))
    ensures Sent(KeyEvent(s, KeyPress(KeyI)).log, TeleopChannel)
         == Sent(s.log, TeleopChannel) + [TeleopGoal(Tag(UpperArmExtend))]
  {
    KeyEventSends(s, KeyPress(KeyI), TeleopChannel);
  }

  /**
   * The watchdog is single-shot: its expiry sends exactly one
   * STOP_DRIVEBASE when armed, and leaves it disarmed, so a second expiry
   * does nothing.
   */
  lemma WatchdogSingleShot(s: Console, ch: ChannelId)
    ensures var r := WatchdogTimeout(s);
      && Sent(r.log, ch) == Sent(s.log, ch)
           + (if s.watchdogArmed && ch == TeleopChannel then [TeleopGoal(Tag(StopDrivebase))] else [])
      && !r.watchdogArmed
      && WatchdogTimeout(r) == r
  {
    if s.watchdogArmed {
      PerformTeleopSends(s.(watchdogArmed := false), StopDrivebase, ch);
    }
  }

  /**
   * Releasing an enabled drive button sends STOP_DRIVEBASE and, unlike the
   * watchdog's expiry, leaves the watchdog as it was: still armed if a
   * drive key armed it.
   */
  lemma DriveReleaseKeepsWatchdog(s: Console, b: Button)
    requires b in DriveButtons && b in s.enabled
    ensures var r := ButtonSignal(s, ButtonEvent(Released, b));
      && Sent(r.log, TeleopChannel) == Sent(s.log, TeleopChannel) + [TeleopGoal(Tag(StopDrivebase))]
      && r.watchdogArmed == s.watchdogArmed
  {
    PerformTeleopSends(s, StopDrivebase, TeleopChannel);
  }

  /** Pressing an enabled drive button sends its direction and does not arm the watchdog. */
  lemma DrivePressSends(s: Console, b: Button)
    requires b in DriveButtons && b in s.enabled
    ensures var r := ButtonSignal(s, ButtonEvent(Pressed, b));
      && Sent(r.log, TeleopChannel) == Sent(s.log, TeleopChannel) + [TeleopGoal(Tag(DriveCode(b)))]
      && DriveCode(b) in DriveCodes
      && r.watchdogArmed == s.watchdogArmed
  {
    PerformTeleopSends(s, DriveCode(b), TeleopChannel);
  }

  /* ---------------------------------------------------------------------- */
  /* What the mode switch does not exclude                                  */
  /* ---------------------------------------------------------------------- */

  /** goAutonomousMode leaves every button outside the teleop surface, the teleop button and the motor pair as it was. */
  lemma GoAutonomousModeKeepsButton(s: Console, b: Button)
    requires b !in TeleopSurface && b != TeleopButton && b != MotorEnableButton && b != MotorDisableButton
    ensures b in GoAutonomousMode(s).enabled <==> b in s.enabled
  {
    ResetTurntableButtons(s);
    GoAutonomousModeSteps(s);
  }

  /**
   * setTeleop(false) does not grey the turntable, reset and raise-arm
   * buttons: after goAutonomousMode an enabled clockwise button still sends
   * a teleop goal while the autonomy goal is outstanding.
   */
  lemma TurntableButtonDuringAutonomy(s: Console)
    requires CwButton in s.enabled
    ensures var a := GoAutonomousMode(s);
      var r := ButtonSignal(a, ButtonEvent(Clicked, CwButton));
      && !a.autonomy.done && !r.autonomy.done && !r.teleop.done
      && Sent(r.log, TeleopChannel) == Sent(a.log, TeleopChannel) + [TeleopGoal(Tag(Clockwise))]
  {
    var a := GoAutonomousMode(s);
    GoAutonomousModeKeepsButton(s, CwButton);
    GoAutonomousModeEnds(s);
    assert Connection(ButtonEvent(Clicked, CwButton)) == Some(SendCode(Clockwise));
    assert ButtonSignal(a, ButtonEvent(Clicked, CwButton)) == PerformTeleop(a, Clockwise);
    PerformTeleopSends(a, Clockwise, TeleopChannel);
  }

  /**
   * Nothing stops the watchdog on a mode switch: one armed by a drive key
   * before goAutonomousMode still sends STOP_DRIVEBASE on the teleop channel
   * while the autonomy goal is outstanding.
   */
  lemma WatchdogAfterAutonomy(s: Console)
    requires s.watchdogArmed
    ensures var a := GoAutonomousMode(s);
      var r := WatchdogTimeout(a);
      && !r.autonomy.done && !r.teleop.done
      && Sent(r.log, TeleopChannel) == Sent(a.log, TeleopChannel) + [TeleopGoal(Tag(StopDrivebase))]
  {
    var a := GoAutonomousMode(s);
    GoAutonomousModeSteps(s);
    WatchdogSingleShot(a, TeleopChannel);
    PerformTeleopSends(a.(watchdogArmed := false), StopDrivebase, TeleopChannel);
  }

  /* ---------------------------------------------------------------------- */
  /* Invariants of the event stream                                         */
  /* ---------------------------------------------------------------------- */

  /** The two sets agree on the four control and motor buttons. */
  predicate SameSwitches(a: set<Button>, b: set<Button>)
  {
    forall sw :: (EnableButton(sw) in a <==> EnableButton(sw) in b) && (DisableButton(sw) in a <==> DisableButton(sw) in b)
  }

  lemma SetAsideSwitches(a: set<Button>, bs: set<Button>, on: bool)
    requires bs !! SwitchButtons
    ensures SameSwitches(if on then a + bs else a - bs, a)
  {
    forall sw ensures EnableButton(sw) !in bs && DisableButton(sw) !in bs {
      assert EnableButton(sw) in SwitchButtons && DisableButton(sw) in SwitchButtons;
    }
  }

  /** An operation that acknowledges no toggle and leaves the switch buttons alone keeps AckHonest. */
  lemma KeepsAcks(s: Console, r: Console, t: seq<Effect>)
    requires AckHonest(s)
    requires r.log == s.log + t && NoAck(t)
    requires SameSwitches(r.enabled, s.enabled)
    ensures AckHonest(r)
  {
    forall sw | LastAck(r.log, sw).Some?
      ensures Shows(r.enabled, sw, LastAck(r.log, sw).value)
    {
      NoAckLastAck(t, sw);
      LastAckConcat(s.log, t, sw);
    }
  }

  lemma ToggleSwitchKeepsAcks(s: Console, sw: Switch, state: bool)
    requires AckHonest(s)
    ensures AckHonest(ToggleSwitch(s, sw, state))
  {
    var r := ToggleSwitch(s, sw, state);
    ToggleSwitchHonest(s, sw, state);
    var other := if sw == Control then Motors else Control;
    ToggleSwitchKeepsOther(s, sw, other, state);
    forall w | LastAck(r.log, w).Some?
      ensures Shows(r.enabled, w, LastAck(r.log, w).value)
    {
      if w == other {
        assert Shows(s.enabled, w, LastAck(s.log, w).value);
      }
    }
  }

  lemma SetButtonsKeepsAcks(s: Console, bs: set<Button>, on: bool)
    requires AckHonest(s) && bs !! SwitchButtons
    ensures AckHonest(SetButtons(s, bs, on))
  {
    SetAsideSwitches(s.enabled, bs, on);
    KeepsAcks(s, SetButtons(s, bs, on), [Enable(bs, on)]);
  }

  lemma SendGoalKeepsAcks(s: Console, g: Goal)
    requires AckHonest(s)
    ensures AckHonest(SendGoal(s, g))
  {
    KeepsAcks(s, SendGoal(s, g), [Send(g)]);
  }

  lemma SoftwareStopKeepsAcks(s: Console)
    requires AckHonest(s)
    ensures AckHonest(SoftwareStop(s))
  {
    var p := PerformTeleop(s, StopDrivebase);
    SendGoalKeepsAcks(s, TeleopGoal(Tag(StopDrivebase)));
    KeepsAcks(p, SoftwareStop(s), [Waited(TeleopChannel)]);
  }

  lemma DrainKeepsAcks(s: Console, ch: ChannelId)
    requires AckHonest(s)
    ensures AckHonest(Drain(s, ch))
  {
    DrainClosedForm(s, ch);
    DrainLogShape(ch, Pending(Chan(s, ch)));
    KeepsAcks(s, Drain(s, ch), DrainLog(ch, Pending(Chan(s, ch))));
  }

  lemma ResetTurntableKeepsAcks(s: Console)
    requires AckHonest(s)
    ensures AckHonest(ResetTurntable(s))
  {
    var off := ToggleSwitch(s, Motors, false);
    ToggleSwitchKeepsAcks(s, Motors, false);
    var zeroed := Retry(off, ZeroTurntable, true);
    RetryClosedForm(off, ZeroTurntable, true);
    RetryLogShape(ZeroTurntable, Failures(off.replies), true);
    KeepsAcks(off, zeroed, RetryLog(ZeroTurntable, Failures(off.replies), true));
    SendGoalKeepsAcks(zeroed, TeleopGoal(Tag(DrivingPosition)));
    ToggleSwitchKeepsAcks(PerformTeleop(zeroed, DrivingPosition), Motors, true);
  }

  lemma GoAutonomousModeLog(s: Console)
    ensures GoAutonomousMode(s).log == ResetTurntable(s).log + AutonomyTail()
  {
    GoAutonomousModeSteps(s);
  }

  lemma GoAutonomousModeSwitches(s: Console)
    ensures SameSwitches(GoAutonomousMode(s).enabled, ResetTurntable(s).enabled)
  {
    var reset := ResetTurntable(s);
    GoAutonomousModeSteps(s);
    AutonomySurfaceSwitches(reset.enabled);
  }

  lemma AutonomySurfaceSwitches(a: set<Button>)
    ensures SameSwitches((a + {TeleopButton}) - TeleopSurface, a)
  {
  }

  lemma GoAutonomousModeKeepsAcks(s: Console)
    requires AckHonest(s)
    ensures AckHonest(GoAutonomousMode(s))
  {
    ResetTurntableKeepsAcks(s);
    GoAutonomousModeLog(s);
    GoAutonomousModeSwitches(s);
    assert NoAck(AutonomyTail());
    KeepsAcks(ResetTurntable(s), GoAutonomousMode(s), AutonomyTail());
  }

  lemma GoTeleopModeKeepsAcks(s: Console)
    requires AckHonest(s)
    ensures AckHonest(GoTeleopMode(s))
  {
    var lowered := SetAutonomy(s, false);
    SetButtonsKeepsAcks(s, {TeleopButton}, false);
    var drained := Drain(lowered, AutonomyChannel);
    DrainKeepsAcks(lowered, AutonomyChannel);
    var keys := SetTeleop(drained, true);
    SetButtonsKeepsAcks(drained, TeleopSurface, true);
    SoftwareStopKeepsAcks(keys);
  }

  lemma StartTimeServiceKeepsAcks(s: Console)
    requires AckHonest(s)
    ensures AckHonest(StartTimeService(s))
  {
    var o := CallOnce(s, StartMissionClock);
    KeepsAcks(s, StartTimeService(s), [Call(StartMissionClock, o.ok), StartClock]);
  }

  lemma PerformKeepsAcks(s: Console, slot: Slot)
    requires AckHonest(s)
    ensures AckHonest(Perform(s, slot))
  {
    match slot
    case SendCode(c) => SendGoalKeepsAcks(s, TeleopGoal(Tag(c)));
    case BeginMission =>
      var t := StartTimeService(s);
      StartTimeServiceKeepsAcks(s);
      GoAutonomousModeKeepsAcks(t);
      ToggleSwitchKeepsAcks(GoAutonomousMode(t), Control, true);
      ToggleSwitchKeepsAcks(ToggleSwitch(GoAutonomousMode(t), Control, true), Motors, true);
    case BeginManual =>
      var t := StartTimeService(s);
      StartTimeServiceKeepsAcks(s);
      GoTeleopModeKeepsAcks(t);
      ToggleSwitchKeepsAcks(GoTeleopMode(t), Control, true);
      ToggleSwitchKeepsAcks(ToggleSwitch(GoTeleopMode(t), Control, true), Motors, true);
    case EnterAutonomy => GoAutonomousModeKeepsAcks(s);
    case EnterTeleop => GoTeleopModeKeepsAcks(s);
    case Flip(sw, on) => ToggleSwitchKeepsAcks(s, sw, on);
  }

  lemma StepKeepsAcks(s: Console, i: Stimulus)
    requires AckHonest(s)
    ensures AckHonest(Step(s, i))
  {
    match i
    case KeyInput(e) =>
      var f := Filter(e, s.teleopEnabled);
      var armed := if f.rearm then s.(watchdogArmed := true) else s;
      if f.send.Some? {
        SendGoalKeepsAcks(armed, TeleopGoal(Tag(f.send.value)));
      }
    case ButtonInput(ev) =>
      if ev.button in s.enabled && Connection(ev).Some? {
        PerformKeepsAcks(s, Connection(ev).value);
      }
    case WatchdogExpired =>
      if s.watchdogArmed {
        SendGoalKeepsAcks(s.(watchdogArmed := false), TeleopGoal(Tag(StopDrivebase)));
      }
    case Finished(ch) =>
  }

  /** The mission clock service is called first, exactly once, and its start is logged. */
  lemma StartTimeServiceSteps(s: Console)
    ensures var t := StartTimeService(s);
      && |t.log| == |s.log| + 2 && t.log[..|s.log|] == s.log
      && t.log[|s.log|].Call? && t.log[|s.log|].req == StartMissionClock && t.log[|s.log| + 1] == StartClock
      && t == s.(replies := t.replies, log := t.log)
  {
  }

  /** Every operation only appends to the log. */
  lemma ExtendsLog(s: Console, r: Console, t: seq<Effect>)
    requires r.log == s.log + t
    ensures |r.log| >= |s.log| && r.log[..|s.log|] == s.log
  {
    assert r.log[..|s.log|] == s.log;
  }

  /** A mode switch followed by control on and motors on keeps the earlier log as a prefix. */
  lemma StartExtendsLog(t: Console, m: Console)
    requires |m.log| >= |t.log| && m.log[..|t.log|] == t.log
    ensures var r := ToggleSwitch(ToggleSwitch(m, Control, true), Motors, true);
      |r.log| >= |t.log| && r.log[..|t.log|] == t.log
  {
    var c := ToggleSwitch(m, Control, true);
    ToggleSwitchLog(m, Control, true);
    ToggleSwitchLog(c, Motors, true);
    var r := ToggleSwitch(c, Motors, true);
    assert r.log[..|t.log|] == m.log[..|t.log|];
  }

  /** Control on, then motors on: both acknowledged, shown, and the mode untouched. */
  lemma ControlThenMotors(m: Console)
    ensures var r := ToggleSwitch(ToggleSwitch(m, Control, true), Motors, true);
      && Shows(r.enabled, Control, true) && Shows(r.enabled, Motors, true)
      && LastAck(r.log, Control) == Some(true) && LastAck(r.log, Motors) == Some(true)
      && r.teleopEnabled == m.teleopEnabled && r.teleop == m.teleop && r.autonomy == m.autonomy
  {
    var c := ToggleSwitch(m, Control, true);
    ToggleSwitchLog(m, Control, true);
    ToggleSwitchFrame(m, Control, true);
    ToggleSwitchAck(m, Control, true);
    ToggleSwitchLog(c, Motors, true);
    ToggleSwitchFrame(c, Motors, true);
    ToggleSwitchAck(c, Motors, true);
    ToggleSwitchKeepsOther(c, Motors, Control, true);
  }

  lemma ResetTurntableExtends(s: Console)
    ensures |ResetTurntable(s).log| >= |s.log| && ResetTurntable(s).log[..|s.log|] == s.log
  {
    var a := RetryLog(Toggle(Motors, false), Failures(s.replies), false);
    var b := SwitchLog(Motors, false);
    var c := RetryLog(ZeroTurntable, Failures(RestAfter(s.replies)), true);
    PrefixAppend(s.log, a);
    PrefixAppend(s.log + a, b);
    PrefixTrans(s.log, s.log + a, s.log + a + b);
    PrefixAppend(s.log + a + b, c);
    PrefixTrans(s.log, s.log + a + b, ZeroedLog(s));
    ResetTurntableZeroesWhileOff(s);
    PrefixTrans(s.log, ZeroedLog(s), ResetTurntable(s).log);
  }

  lemma GoAutonomousModeExtends(s: Console)
    ensures |GoAutonomousMode(s).log| >= |s.log| && GoAutonomousMode(s).log[..|s.log|] == s.log
  {
    var reset := ResetTurntable(s);
    ResetTurntableExtends(s);
    GoAutonomousModeSteps(s);
    assert GoAutonomousMode(s).log[..|s.log|] == reset.log[..|s.log|];
  }

  lemma GoTeleopModeExtends(s: Console)
    ensures |GoTeleopMode(s).log| >= |s.log| && GoTeleopMode(s).log[..|s.log|] == s.log
  {
    GoTeleopModeSteps(s);
    var r := GoTeleopMode(s);
    ExtendsLog(s, r, r.log[|s.log|..]);
  }

  /** What startMission and startManual share: the clock first, then control and motors on. */
  lemma StartCommon(s: Console, m: Console)
    requires var t := StartTimeService(s); |m.log| >= |t.log| && m.log[..|t.log|] == t.log
    ensures var r := ToggleSwitch(ToggleSwitch(m, Control, true), Motors, true);
      && |r.log| >= |s.log| + 2 && r.log[..|s.log|] == s.log
      && r.log[|s.log|].Call? && r.log[|s.log|].req == StartMissionClock && r.log[|s.log| + 1] == StartClock
      && Shows(r.enabled, Control, true) && Shows(r.enabled, Motors, true)
      && LastAck(r.log, Control) == Some(true) && LastAck(r.log, Motors) == Some(true)
      && r.teleopEnabled == m.teleopEnabled && r.teleop == m.teleop && r.autonomy == m.autonomy
  {
    var t := StartTimeService(s);
    StartTimeServiceSteps(s);
    StartExtendsLog(t, m);
    ControlThenMotors(m);
    var r := ToggleSwitch(ToggleSwitch(m, Control, true), Motors, true);
    assert r.log[|s.log|] == r.log[..|t.log|][|s.log|];
    assert r.log[|s.log| + 1] == r.log[..|t.log|][|s.log| + 1];
  }

  /**
   * startMission: the mission clock is started first, and the console ends
   * in autonomy with control and motors acknowledged on, the keys off and
   * the autonomy goal outstanding.
   */
  lemma StartMissionEnds(s: Console)
    ensures var r := StartMission(s);
      && |r.log| >= |s.log| + 2 && r.log[..|s.log|] == s.log
      && r.log[|s.log|].Call? && r.log[|s.log|].req == StartMissionClock && r.log[|s.log| + 1] == StartClock
      && !r.teleopEnabled && r.teleop.done && !r.autonomy.done
      && Shows(r.enabled, Control, true) && Shows(r.enabled, Motors, true)
      && LastAck(r.log, Control) == Some(true) && LastAck(r.log, Motors) == Some(true)
  {
    var t := StartTimeService(s);
    GoAutonomousModeEnds(t);
    GoAutonomousModeExtends(t);
    StartCommon(s, GoAutonomousMode(t));
  }

  /**
   * startManual: the mission clock is started first, and the console ends in
   * teleop with control and motors acknowledged on, the keys on and both
   * channels done.
   */
  lemma StartManualEnds(s: Console)
    ensures var r := StartManual(s);
      && |r.log| >= |s.log| + 2 && r.log[..|s.log|] == s.log
      && r.log[|s.log|].Call? && r.log[|s.log|].req == StartMissionClock && r.log[|s.log| + 1] == StartClock
      && r.teleopEnabled && r.teleop.done && r.autonomy.done
      && Shows(r.enabled, Control, true) && Shows(r.enabled, Motors, true)
      && LastAck(r.log, Control) == Some(true) && LastAck(r.log, Motors) == Some(true)
  {
    var t := StartTimeService(s);
    GoTeleopModeExclusive(t);
    GoTeleopModeExtends(t);
    StartCommon(s, GoTeleopMode(t));
  }

  lemma PerformKeepsExclusive(s: Console, slot: Slot)
    requires Exclusive(s)
    ensures Exclusive(Perform(s, slot))
  {
    match slot
    case SendCode(c) =>
    case BeginMission => StartMissionEnds(s);
    case BeginManual => StartManualEnds(s);
    case EnterAutonomy => GoAutonomousModeEnds(s);
    case EnterTeleop => GoTeleopModeExclusive(s);
    case Flip(sw, on) => ToggleSwitchFrame(s, sw, on);
  }

  lemma StepKeepsExclusive(s: Console, i: Stimulus)
    requires Exclusive(s)
    ensures Exclusive(Step(s, i))
  {
    if i.ButtonInput? && i.ev.button in s.enabled && Connection(i.ev).Some? {
      PerformKeepsExclusive(s, Connection(i.ev).value);
    }
  }

  /** A toggle touches only its own switch's buttons, none of the teleop surface, and not the autonomy channel. */
  lemma ToggleSwitchKeepsSurface(s: Console, sw: Switch, state: bool)
    ensures var r := ToggleSwitch(s, sw, state);
      r.autonomy == s.autonomy && r.enabled * TeleopSurface == s.enabled * TeleopSurface
  {
    ToggleSwitchFrame(s, sw, state);
    var called := Retry(s, Toggle(sw, state), false);
    RetryClosedForm(s, Toggle(sw, state), false);
    assert called.enabled == s.enabled;
    assert EnableButton(sw) !in TeleopSurface && DisableButton(sw) !in TeleopSurface;
  }

  lemma PerformKeepsSurface(s: Console, slot: Slot)
    requires SurfaceLocked(s)
    ensures SurfaceLocked(Perform(s, slot))
  {
    match slot
    case SendCode(c) => PerformTeleopSends(s, c, TeleopChannel);
    case BeginMission =>
      var a := GoAutonomousMode(StartTimeService(s));
      GoAutonomousModeEnds(StartTimeService(s));
      ToggleSwitchKeepsSurface(a, Control, true);
      ToggleSwitchKeepsSurface(ToggleSwitch(a, Control, true), Motors, true);
    case BeginManual =>
      var m := GoTeleopMode(StartTimeService(s));
      GoTeleopModeExclusive(StartTimeService(s));
      ToggleSwitchKeepsSurface(m, Control, true);
      ToggleSwitchKeepsSurface(ToggleSwitch(m, Control, true), Motors, true);
    case EnterAutonomy => GoAutonomousModeEnds(s);
    case EnterTeleop => GoTeleopModeExclusive(s);
    case Flip(sw, on) => ToggleSwitchKeepsSurface(s, sw, on);
  }

  /**
   * Every event keeps the teleop surface greyed while an autonomy goal is
   * outstanding: only goTeleopMode re-enables it, and only after draining
   * the autonomy channel.
   */
  lemma StepKeepsSurface(s: Console, i: Stimulus)
    requires SurfaceLocked(s)
    ensures SurfaceLocked(Step(s, i))
  {
    match i
    case KeyInput(e) => KeyEventSends(s, e, TeleopChannel);
    case ButtonInput(ev) =>
      if ev.button in s.enabled && Connection(ev).Some? {
        PerformKeepsSurface(s, Connection(ev).value);
      }
    case WatchdogExpired =>
      if s.watchdogArmed {
        PerformTeleopSends(s.(watchdogArmed := false), StopDrivebase, TeleopChannel);
      }
    case Finished(ch) =>
  }

  /** The console starts out satisfying the three invariants. */
  lemma InitInv(enabled: set<Button>, replies: seq<bool>, teleopLags: seq<nat>, autonomyLags: seq<nat>)
    ensures Inv(Init(enabled, replies, teleopLags, autonomyLags))
  {
  }

  /**
   * Over any stream of events, neither the keys nor the teleop surface drive the robot while an
   * autonomy goal is outstanding, and the control and motor buttons always
   * show the state the robot side last acknowledged.
   */
  lemma {:induction false} RunKeepsInv(s: Console, inputs: seq<Stimulus>)
    requires Inv(s)
    ensures Inv(Run(s, inputs))
    decreases |inputs|
  {
    if inputs != [] {
      StepKeepsAcks(s, inputs[0]);
      StepKeepsExclusive(s, inputs[0]);
      StepKeepsSurface(s, inputs[0]);
      RunKeepsInv(Step(s, inputs[0]), inputs[1..]);
    }
  }

  /**
   * Over any stream of events from a state satisfying the invariants, once
   * an autonomy goal is outstanding the keyboard is inert: a key event
   * changes nothing, sends nothing and does not arm the watchdog.
   */
  lemma KeysInertDuringAutonomy(s: Console, inputs: seq<Stimulus>, e: Event)
    requires Inv(s)
    ensures var r := Run(s, inputs);
      !r.autonomy.done ==> KeyEvent(r, e) == r
  {
    RunKeepsInv(s, inputs);
  }

  /**
   * Over any stream of events from a state satisfying the invariants, once
   * an autonomy goal is outstanding the 13 buttons of the teleop surface are
   * inert too: any signal of one of them changes nothing.
   */
  lemma SurfaceInertDuringAutonomy(s: Console, inputs: seq<Stimulus>, ev: ButtonEvent)
    requires Inv(s)
    requires ev.button in TeleopSurface
    ensures var r := Run(s, inputs);
      !r.autonomy.done ==> ButtonSignal(r, ev) == r
  {
    RunKeepsInv(s, inputs);
  }
}
