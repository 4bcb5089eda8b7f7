/**
 The hold-to-accelerate PTZ speed ramp, as a specification over values. A
 directional press cancels any pending timer, resets pan/tilt speed to the
 normal speed, arms a one-shot timer carrying the command and issues the
 command; the timer's expiry disposes of it, raises the speeds to the fast
 tier and re-issues the command once; a stop cancels the timer, resets the
 speeds and issues Stop. All of this happens only when the configured hold
 time is positive; otherwise presses and stops pass straight through.
 The class in the Camera module is proved to follow these functions.
 */
module SpeedRamp {
  import opened Wrappers
  import opened ViscaTypes
  import opened Config

  /** The constants the ramp works with, fixed when the adapter is built. */
  datatype Ramp = Ramp(
    holdTimeMs: byte,
    panNormal: byte,
    tiltNormal: byte,
    panSpeedFast: byte,
    tiltSpeedFast: byte,
    panHigh: byte,
    tiltHigh: byte)

  /** The ramp is on only when a positive hold time is configured. */
  predicate Enabled(r: Ramp) {
    r.holdTimeMs > 0
  }

  /**
   The ramp an adapter is built with, from its settings, the library camera's
   speeds before construction and the library's speed limits. With the ramp on,
   the normal speed is the configured slow speed when that is positive and the
   camera's prior speed otherwise; with it off, the normal speeds keep their
   byte default 0 and are never used.
   */
  function RampFor(settings: Settings, initialPan: byte, initialTilt: byte, panHigh: byte, tiltHigh: byte): (r: Ramp)
    ensures Enabled(r) <==> settings.fastSpeedHoldTimeMs > 0
    ensures Enabled(r) && settings.panSpeedSlow > 0 ==> r.panNormal == settings.panSpeedSlow
    ensures Enabled(r) && settings.panSpeedSlow == 0 ==> r.panNormal == initialPan
    ensures Enabled(r) && settings.tiltSpeedSlow > 0 ==> r.tiltNormal == settings.tiltSpeedSlow
    ensures Enabled(r) && settings.tiltSpeedSlow == 0 ==> r.tiltNormal == initialTilt
    ensures !Enabled(r) ==> r.panNormal == 0 && r.tiltNormal == 0
    ensures r.panSpeedFast == settings.panSpeedFast && r.tiltSpeedFast == settings.tiltSpeedFast
    ensures r.panHigh == panHigh && r.tiltHigh == tiltHigh
  {
    var enabled := settings.fastSpeedHoldTimeMs > 0;
    var panNormal := if !enabled then 0 else if settings.panSpeedSlow > 0 then settings.panSpeedSlow else initialPan;
    var tiltNormal := if !enabled then 0 else if settings.tiltSpeedSlow > 0 then settings.tiltSpeedSlow else initialTilt;
    Ramp(settings.fastSpeedHoldTimeMs, panNormal, tiltNormal, settings.panSpeedFast, settings.tiltSpeedFast, panHigh, tiltHigh)
  }

  /** The pan speed the timer's expiry sets: the configured fast speed, or the library maximum when none is configured. */
  function FastPanSpeed(r: Ramp): byte {
    if r.panSpeedFast > 0 then r.panSpeedFast else r.panHigh
  }

  /**
   The tilt speed the timer's expiry sets. As written in the source, a
   positive configured fast TILT speed selects the fast PAN speed.
   */
  function FastTiltSpeed(r: Ramp): byte {
    if r.tiltSpeedFast > 0 then r.panSpeedFast else r.tiltHigh
  }

  /** What the ramp acts on: the pending timer with its command, the camera's pan and tilt speeds, and the commands issued so far. */
  datatype PtzState = PtzState(timer: Option<Direction>, panSpeed: byte, tiltSpeed: byte, issued: seq<Command>)

  /** Stops and forgets the timer, if there is one. */
  function DisposeTimer(s: PtzState): PtzState {
    s.(timer := None)
  }

  /** Puts both speeds back to the normal speeds. */
  function ResetSpeed(r: Ramp, s: PtzState): PtzState {
    s.(panSpeed := r.panNormal, tiltSpeed := r.tiltNormal)
  }

  /** Issues a command to the camera. */
  function Issue(s: PtzState, c: Command): PtzState {
    s.(issued := s.issued + [c])
  }

  /** Invokes a directional command: the camera moves at its current speeds. */
  function Invoke(s: PtzState, d: Direction): PtzState {
    Issue(s, Move(d, s.panSpeed, s.tiltSpeed))
  }

  /** A directional press. */
  function Press(r: Ramp, s: PtzState, d: Direction): PtzState {
    var armed := if Enabled(r) then ResetSpeed(r, DisposeTimer(s)).(timer := Some(d)) else s;
    Invoke(armed, d)
  }

  /** A pan or tilt stop. */
  function Stop(r: Ramp, s: PtzState): PtzState {
    var reset := if Enabled(r) then ResetSpeed(r, DisposeTimer(s)) else s;
    Issue(reset, Command.Stop)
  }

  /** The timer's expiry; only an armed timer can expire. */
  function Fire(r: Ramp, s: PtzState): PtzState
    requires s.timer.Some?
  {
    var d := s.timer.value;
    Invoke(DisposeTimer(s).(panSpeed := FastPanSpeed(r), tiltSpeed := FastTiltSpeed(r)), d)
  }

  /** The state every reachable state is in: an armed timer exists only with the ramp on, and only while the speeds are normal. */
  ghost predicate Inv(r: Ramp, s: PtzState) {
    s.timer.Some? ==> Enabled(r) && s.panSpeed == r.panNormal && s.tiltSpeed == r.tiltNormal
  }

  /** Things that can happen to the ramp: a press, a stop, or the passing of the hold time. */
  datatype Event = PressEvent(direction: Direction) | StopEvent | HoldElapsed

  /** One event. When the hold time passes with no armed timer, nothing fires. */
  function Step(r: Ramp, s: PtzState, e: Event): PtzState {
    match e
    case PressEvent(d) => Press(r, s, d)
    case StopEvent => Stop(r, s)
    case HoldElapsed => if s.timer.Some? then Fire(r, s) else s
  }

  /** A sequence of events, in order. */
  function Run(r: Ramp, s: PtzState, events: seq<Event>): PtzState
    decreases |events|
  {
    if events == [] then s else Run(r, Step(r, s, events[0]), events[1..])
  }

  /** With the ramp on, a press leaves exactly one timer, carrying that command, both speeds normal, and the command issued once at normal speed. */
  lemma PressArms(r: Ramp, s: PtzState, d: Direction)
    requires Enabled(r)
    ensures Press(r, s, d).timer == Some(d)
    ensures Press(r, s, d).panSpeed == r.panNormal && Press(r, s, d).tiltSpeed == r.tiltNormal
    ensures Press(r, s, d).issued == s.issued + [Move(d, r.panNormal, r.tiltNormal)]
  {
  }

  /** With the ramp off, a press only issues the command at the current speeds; no timer comes into existence. */
  lemma PressPassesThrough(r: Ramp, s: PtzState, d: Direction)
    requires !Enabled(r) && Inv(r, s)
    ensures Press(r, s, d).timer == None
    ensures Press(r, s, d).panSpeed == s.panSpeed && Press(r, s, d).tiltSpeed == s.tiltSpeed
    ensures Press(r, s, d).issued == s.issued + [Move(d, s.panSpeed, s.tiltSpeed)]
  {
  }

  /** The timer's expiry clears the timer without re-arming it, raises the speeds and re-issues the pending command once at those speeds. */
  lemma FireRaisesSpeed(r: Ramp, s: PtzState)
    requires s.timer.Some?
    ensures Fire(r, s).timer == None
    ensures Fire(r, s).panSpeed == (if r.panSpeedFast > 0 then r.panSpeedFast else r.panHigh)
    ensures Fire(r, s).tiltSpeed == (if r.tiltSpeedFast > 0 then r.panSpeedFast else r.tiltHigh)
    ensures Fire(r, s).issued == s.issued + [Move(s.timer.value, Fire(r, s).panSpeed, Fire(r, s).tiltSpeed)]
  {
  }

  /** A stop always issues Stop; with the ramp on it also leaves no timer and both speeds normal. */
  lemma StopResets(r: Ramp, s: PtzState)
    ensures Stop(r, s).issued == s.issued + [Command.Stop]
    ensures Enabled(r) ==> Stop(r, s).timer == None && Stop(r, s).panSpeed == r.panNormal && Stop(r, s).tiltSpeed == r.tiltNormal
    ensures !Enabled(r) ==> Stop(r, s).timer == s.timer && Stop(r, s).panSpeed == s.panSpeed && Stop(r, s).tiltSpeed == s.tiltSpeed
  {
  }

  /** Stopping twice leaves the timer and speeds as stopping once does; only a second Stop is issued. */
  lemma StopTwice(r: Ramp, s: PtzState)
    ensures Stop(r, Stop(r, s)).(issued := []) == Stop(r, s).(issued := [])
    ensures Stop(r, Stop(r, s)).issued == s.issued + [Command.Stop, Command.Stop]
  {
  }

  /** Disposing of no timer changes nothing; disposing of a timer leaves none. */
  lemma DisposeTimerClears(s: PtzState)
    ensures s.timer.None? ==> DisposeTimer(s) == s
    ensures DisposeTimer(s).timer == None && DisposeTimer(s).(timer := s.timer) == s
  {
  }

  /** Every event keeps the invariant. */
  lemma StepKeepsInv(r: Ramp, s: PtzState, e: Event)
    requires Inv(r, s)
    ensures Inv(r, Step(r, s, e))
  {
  }

  /** Every sequence of events keeps the invariant. */
  lemma {:induction false} RunKeepsInv(r: Ramp, s: PtzState, events: seq<Event>)
    requires Inv(r, s)
    ensures Inv(r, Run(r, s, events))
    decreases |events|
  {
    if events != [] {
      StepKeepsInv(r, s, events[0]);
      RunKeepsInv(r, Step(r, s, events[0]), events[1..]);
    }
  }

  /** The commands a pass-through adapter issues for a sequence of events at fixed speeds. */
  function PassThrough(events: seq<Event>, pan: byte, tilt: byte): seq<Command>
    decreases |events|
  {
    if events == [] then []
    else
      var head := match events[0]
        case PressEvent(d) => [Move(d, pan, tilt)]
        case StopEvent => [Command.Stop]
        case HoldElapsed => [];
      head + PassThrough(events[1..], pan, tilt)
  }

  /** With the ramp off, no timer is ever created, the speeds never change, and each press or stop issues one command at those speeds. */
  lemma {:induction false} DisabledPassesThrough(r: Ramp, s: PtzState, events: seq<Event>)
    requires !Enabled(r) && Inv(r, s)
    ensures Run(r, s, events).timer == None
    ensures Run(r, s, events).panSpeed == s.panSpeed && Run(r, s, events).tiltSpeed == s.tiltSpeed
    ensures Run(r, s, events).issued == s.issued + PassThrough(events, s.panSpeed, s.tiltSpeed)
    decreases |events|
  {
    if events != [] {
      var next := Step(r, s, events[0]);
      assert next.timer == None && next.panSpeed == s.panSpeed && next.tiltSpeed == s.tiltSpeed;
      DisabledPassesThrough(r, next, events[1..]);
    } else {
      assert s.issued + [] == s.issued;
    }
  }

  /** After a stop the hold time may pass any number of times: no fast command is ever issued and nothing changes. */
  lemma {:induction false} StoppedNeverFires(r: Ramp, s: PtzState, n: nat)
    requires Inv(r, s)
    ensures Run(r, Stop(r, s), seq(n, _ => HoldElapsed)) == Stop(r, s)
    decreases n
  {
    var stopped := Stop(r, s);
    if n > 0 {
      var events := seq(n, _ => HoldElapsed);
      assert events[0] == HoldElapsed && events[1..] == seq(n - 1, _ => HoldElapsed);
      assert stopped.timer == None;
      StoppedNeverFires(r, s, n - 1);
    }
  }

  /** The events for a sequence of presses. */
  function Presses(directions: seq<Direction>): seq<Event> {
    if directions == [] then [] else [PressEvent(directions[0])] + Presses(directions[1..])
  }

  /** The moves issued at normal speed for a sequence of presses. */
  function NormalMoves(r: Ramp, directions: seq<Direction>): seq<Command> {
    if directions == [] then [] else [Move(directions[0], r.panNormal, r.tiltNormal)] + NormalMoves(r, directions[1..])
  }

  /** With the ramp on, each press supersedes the previous one: after any presses exactly one timer is armed, carrying the last command, and every press was issued once at normal speed. */
  lemma {:induction false} PressesSupersede(r: Ramp, s: PtzState, directions: seq<Direction>)
    requires Enabled(r) && directions != []
    ensures Run(r, s, Presses(directions)).timer == Some(directions[|directions| - 1])
    ensures Run(r, s, Presses(directions)).panSpeed == r.panNormal
    ensures Run(r, s, Presses(directions)).tiltSpeed == r.tiltNormal
    ensures Run(r, s, Presses(directions)).issued == s.issued + NormalMoves(r, directions)
    decreases |directions|
  {
    var events := Presses(directions);
    var next := Press(r, s, directions[0]);
    PressArms(r, s, directions[0]);
    PressesTail(directions);
    assert Run(r, s, events) == Run(r, next, events[1..]);
    var rest := directions[1..];
    if |directions| == 1 {
      assert events[1..] == [];
    } else {
      PressesSupersede(r, next, rest);
      assert rest[|rest| - 1] == directions[|directions| - 1];
    }
  }

  lemma PressesTail(directions: seq<Direction>)
    requires directions != []
    ensures Presses(directions) != [] && Presses(directions)[0] == PressEvent(directions[0])
    ensures Presses(directions)[1..] == Presses(directions[1..])
  {
  }

  /**
   A held direction: press, hold past the hold time, release. The first move
   goes at normal speed, the repeat at fast speed, and the release puts the
   speeds back to normal with no timer left.
   */
  lemma {:induction false} HoldAndRelease(r: Ramp, s: PtzState, d: Direction)
    requires Enabled(r)
    ensures var final := Run(r, s, [PressEvent(d), HoldElapsed, StopEvent]);
            final.timer == None && final.panSpeed == r.panNormal && final.tiltSpeed == r.tiltNormal &&
            final.issued == s.issued + [Move(d, r.panNormal, r.tiltNormal), Move(d, FastPanSpeed(r), FastTiltSpeed(r)), Command.Stop]
  {
    var events := [PressEvent(d), HoldElapsed, StopEvent];
    var s1 := Press(r, s, d);
    var s2 := Fire(r, s1);
    var s3 := Stop(r, s2);
    PressArms(r, s, d);
    assert events[1..] == [HoldElapsed, StopEvent] && events[1..][1..] == [StopEvent] && events[1..][1..][1..] == [];
    assert Run(r, s, events) == Run(r, s1, [HoldElapsed, StopEvent]);
    assert Run(r, s1, [HoldElapsed, StopEvent]) == Run(r, s2, [StopEvent]);
    assert Run(r, s2, [StopEvent]) == Run(r, s3, []);
    assert s3.issued == s.issued + [Move(d, r.panNormal, r.tiltNormal)] + [Move(d, FastPanSpeed(r), FastTiltSpeed(r))] + [Command.Stop];
  }

  /**
   The held-direction scenario with a 200 ms hold, slow pan 5 and fast pan 18:
   the pan-left press goes at pan speed 5, its repeat at 18, and the stop
   leaves pan speed 5 with no timer pending.
   */
  lemma PanLeftHeldScenario(initialPan: byte, initialTilt: byte, panHigh: byte, tiltHigh: byte)
    ensures var settings := Settings(false, 0, 0, 0, 5, 18, 5, 0, 200, None);
            var r := RampFor(settings, initialPan, initialTilt, panHigh, tiltHigh);
            var final := Run(r, PtzState(None, 5, 5, []), [PressEvent(Left), HoldElapsed, StopEvent]);
            final.issued == [Move(Left, 5, 5), Move(Left, 18, tiltHigh), Command.Stop] &&
            final.panSpeed == 5 && final.timer == None
  {
    var settings := Settings(false, 0, 0, 0, 5, 18, 5, 0, 200, None);
    var r := RampFor(settings, initialPan, initialTilt, panHigh, tiltHigh);
    HoldAndRelease(r, PtzState(None, 5, 5, []), Left);
  }
}
