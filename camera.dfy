/**
 The camera adapter: the poll list and monitor arguments it builds at
 construction, the PTZ speed ramp it runs around directional presses and
 stops, home positioning, and the power and privacy-mute controls. The library
 camera's speeds, cached power/mute/zoom values and the commands the adapter
 issues to it are fields of the adapter.
 */
module Camera {
  import opened Wrappers
  import opened ViscaTypes
  import opened Config
  import PollList
  import SpeedRamp

  class CameraVisca {
    /** The configuration the adapter was built with. */
    const settings: Settings
    /** The poll commands the monitor's poll action runs, in order. */
    const poll: seq<PollCommand>
    /** The intervals the communication monitor is built with. */
    const monitor: PollList.MonitorSetup
    /** Whether the hold-to-accelerate behaviour is on. */
    const speedIncreaseBehavior: bool
    /** The normal speeds, fast speeds and library limits of the ramp. */
    const ramp: SpeedRamp.Ramp

    /** The pending one-shot timer and the command it carries. */
    var speedIncreaseTimer: Option<Direction>
    /** The library camera's pan and tilt speed. */
    var panSpeed: byte
    var tiltSpeed: byte
    /** The library camera's power, privacy-mute and zoom position values. */
    var power: bool
    var mute: bool
    var zoomPosition: int
    /** The commands issued to the library camera, oldest first. */
    var issued: seq<Command>

    /** The part of the adapter the speed ramp acts on. */
    function Ptz(): SpeedRamp.PtzState
      reads this
    {
      SpeedRamp.PtzState(speedIncreaseTimer, panSpeed, tiltSpeed, issued)
    }

    ghost predicate Valid()
      reads this
    {
      speedIncreaseBehavior == SpeedRamp.Enabled(ramp) && SpeedRamp.Inv(ramp, Ptz())
    }

    /**
     Builds the adapter from its settings and what the library camera holds
     before construction: its pan/tilt speeds, its speed limits and its
     power, mute and zoom values.
     */
    constructor (settings: Settings, initialPanSpeed: byte, initialTiltSpeed: byte,
                 panSpeedHigh: byte, tiltSpeedHigh: byte,
                 initialPower: bool, initialMute: bool, initialZoom: int)
      ensures Valid()
      ensures this.settings == settings
      ensures poll == PollList.ConfiguredPolls(PollList.PollTable, settings.monitor)
      ensures settings.monitor.None? ==>
        monitor == PollList.MonitorSetup(PollList.DefaultPollInterval, PollList.DefaultTimeToWarning, PollList.DefaultTimeToError)
      ensures settings.monitor.Some? ==>
        monitor == PollList.MonitorSetup(settings.monitor.value.pollInterval, settings.monitor.value.timeToWarning,
                                         settings.monitor.value.timeToError)
      ensures ramp == SpeedRamp.RampFor(settings, initialPanSpeed, initialTiltSpeed, panSpeedHigh, tiltSpeedHigh)
      ensures speedIncreaseBehavior <==> settings.fastSpeedHoldTimeMs > 0
      ensures speedIncreaseTimer == None && issued == []
      ensures panSpeed == (if speedIncreaseBehavior then ramp.panNormal else initialPanSpeed)
      ensures tiltSpeed == (if speedIncreaseBehavior then ramp.tiltNormal else initialTiltSpeed)
      ensures power == initialPower && mute == initialMute && zoomPosition == initialZoom
    {
      var polls, setup := PollList.BuildPollList(PollList.PollTable, settings.monitor);
      this.settings := settings;
      poll, monitor := polls, setup;
      power, mute, zoomPosition := initialPower, initialMute, initialZoom;
      issued := [];
      speedIncreaseTimer := None;
      var pan, tilt := initialPanSpeed, initialTiltSpeed;
      var panNormal, tiltNormal := 0, 0;
      speedIncreaseBehavior := settings.fastSpeedHoldTimeMs > 0;
      if settings.fastSpeedHoldTimeMs > 0 {
        if settings.panSpeedSlow > 0 {
          pan := settings.panSpeedSlow;
        }
        if settings.tiltSpeedSlow > 0 {
          tilt := settings.tiltSpeedSlow;
        }
        panNormal, tiltNormal := pan, tilt;
      }
      panSpeed, tiltSpeed := pan, tilt;
      ramp := SpeedRamp.Ramp(settings.fastSpeedHoldTimeMs, panNormal, tiltNormal,
                             settings.panSpeedFast, settings.tiltSpeedFast, panSpeedHigh, tiltSpeedHigh);
    }

    /** Issues one command to the library camera. */
    method IssueCommand(c: Command)
      modifies this
      ensures issued == old(issued) + [c]
      ensures speedIncreaseTimer == old(speedIncreaseTimer) && panSpeed == old(panSpeed) && tiltSpeed == old(tiltSpeed)
      ensures power == old(power) && mute == old(mute) && zoomPosition == old(zoomPosition)
    {
      issued := issued + [c];
    }

    /** Invokes a directional command of the library camera, which moves at the current speeds. */
    method Invoke(d: Direction)
      modifies this
      ensures Ptz() == SpeedRamp.Invoke(old(Ptz()), d)
      ensures power == old(power) && mute == old(mute) && zoomPosition == old(zoomPosition)
    {
      IssueCommand(Move(d, panSpeed, tiltSpeed));
    }

    /** Stops and forgets the speed-increase timer, if there is one. */
    method PtzSpeedChangeTimerDispose()
      modifies this
      ensures Ptz() == SpeedRamp.DisposeTimer(old(Ptz()))
      ensures power == old(power) && mute == old(mute) && zoomPosition == old(zoomPosition)
    {
      if speedIncreaseTimer.Some? {
        speedIncreaseTimer := None;
      }
    }

    /** Puts the camera's pan and tilt speed back to the normal speeds. */
    method PtzSpeedReset()
      modifies this
      ensures Ptz() == SpeedRamp.ResetSpeed(ramp, old(Ptz()))
      ensures power == old(power) && mute == old(mute) && zoomPosition == old(zoomPosition)
    {
      panSpeed := ramp.panNormal;
      tiltSpeed := ramp.tiltNormal;
    }

    /** A directional press, through the speed ramp. */
    method PtzCommand(d: Direction)
      requires Valid()
      modifies this
      ensures Valid()
      ensures Ptz() == SpeedRamp.Press(ramp, old(Ptz()), d)
      ensures power == old(power) && mute == old(mute) && zoomPosition == old(zoomPosition)
    {
      if speedIncreaseBehavior {
        PtzSpeedChangeTimerDispose();
        PtzSpeedReset();
        speedIncreaseTimer := Some(d);
      }
      Invoke(d);
    }

    /** A pan or tilt stop, through the speed ramp. */
    method PtzStop()
      requires Valid()
      modifies this
      ensures Valid()
      ensures Ptz() == SpeedRamp.Stop(ramp, old(Ptz()))
      ensures power == old(power) && mute == old(mute) && zoomPosition == old(zoomPosition)
    {
      if speedIncreaseBehavior {
        PtzSpeedChangeTimerDispose();
        PtzSpeedReset();
      }
      IssueCommand(Command.Stop);
    }

    /** The speed-increase timer expires: an armed timer is the only one that can. */
    method TimerFire()
      requires Valid() && speedIncreaseTimer.Some?
      modifies this
      ensures Valid()
      ensures Ptz() == SpeedRamp.Fire(ramp, old(Ptz()))
      ensures power == old(power) && mute == old(mute) && zoomPosition == old(zoomPosition)
    {
      var d := speedIncreaseTimer.value;
      PtzSpeedChangeTimerDispose();
      panSpeed := if ramp.panSpeedFast > 0 then ramp.panSpeedFast else ramp.panHigh;
      tiltSpeed := if ramp.tiltSpeedFast > 0 then ramp.panSpeedFast else ramp.tiltHigh;
      Invoke(d);
    }

    method PanLeft()
      requires Valid()
      modifies this
      ensures Valid()
      ensures Ptz() == SpeedRamp.Press(ramp, old(Ptz()), Left)
      ensures power == old(power) && mute == old(mute) && zoomPosition == old(zoomPosition)
    {
      PtzCommand(Left);
    }

    method PanRight()
      requires Valid()
      modifies this
      ensures Valid()
      ensures Ptz() == SpeedRamp.Press(ramp, old(Ptz()), Right)
      ensures power == old(power) && mute == old(mute) && zoomPosition == old(zoomPosition)
    {
      PtzCommand(Right);
    }

    method TiltDown()
      requires Valid()
      modifies this
      ensures Valid()
      ensures Ptz() == SpeedRamp.Press(ramp, old(Ptz()), Down)
      ensures power == old(power) && mute == old(mute) && zoomPosition == old(zoomPosition)
    {
      PtzCommand(Down);
    }

    method TiltUp()
      requires Valid()
      modifies this
      ensures Valid()
      ensures Ptz() == SpeedRamp.Press(ramp, old(Ptz()), Up)
      ensures power == old(power) && mute == old(mute) && zoomPosition == old(zoomPosition)
    {
      PtzCommand(Up);
    }

    method PanStop()
      requires Valid()
      modifies this
      ensures Valid()
      ensures Ptz() == SpeedRamp.Stop(ramp, old(Ptz()))
      ensures power == old(power) && mute == old(mute) && zoomPosition == old(zoomPosition)
    {
      PtzStop();
    }

    method TiltStop()
      requires Valid()
      modifies this
      ensures Valid()
      ensures Ptz() == SpeedRamp.Stop(ramp, old(Ptz()))
      ensures power == old(power) && mute == old(mute) && zoomPosition == old(zoomPosition)
    {
      PtzStop();
    }

    /**
     Moves to the home position: the camera's Home command when the
     configuration says it is supported, otherwise an absolute pan/tilt move
     to the configured home position followed by setting the home zoom.
     */
    method PositionHome()
      requires Valid()
      modifies this
      ensures Valid()
      ensures settings.homeCmdSupport ==> issued == old(issued) + [Home] && zoomPosition == old(zoomPosition)
      ensures !settings.homeCmdSupport ==>
        issued == old(issued) + [PositionAbsolute(settings.homePanPosition, settings.homeTiltPosition),
                                 SetZoomPosition(settings.homeZoomPosition)]
        && zoomPosition == settings.homeZoomPosition
      ensures speedIncreaseTimer == old(speedIncreaseTimer) && panSpeed == old(panSpeed) && tiltSpeed == old(tiltSpeed)
      ensures power == old(power) && mute == old(mute)
    {
      if settings.homeCmdSupport {
        IssueCommand(Home);
      } else {
        IssueCommand(PositionAbsolute(settings.homePanPosition, settings.homeTiltPosition));
        SetZoom(settings.homeZoomPosition);
      }
    }

    /** Sets the library camera's zoom position, which issues the zoom command. */
    method SetZoom(zoom: int)
      requires Valid()
      modifies this
      ensures Valid()
      ensures issued == old(issued) + [SetZoomPosition(zoom)] && zoomPosition == zoom
      ensures speedIncreaseTimer == old(speedIncreaseTimer) && panSpeed == old(panSpeed) && tiltSpeed == old(tiltSpeed)
      ensures power == old(power) && mute == old(mute)
    {
      IssueCommand(SetZoomPosition(zoom));
      zoomPosition := zoom;
    }

    /** Sets the library camera's power, which issues the power command. */
    method SetPowerTo(on: bool)
      requires Valid()
      modifies this
      ensures Valid()
      ensures issued == old(issued) + [SetPower(on)] && power == on
      ensures speedIncreaseTimer == old(speedIncreaseTimer) && panSpeed == old(panSpeed) && tiltSpeed == old(tiltSpeed)
      ensures mute == old(mute) && zoomPosition == old(zoomPosition)
    {
      IssueCommand(SetPower(on));
      power := on;
    }

    /** Sets the library camera's privacy mute, which issues the mute command. */
    method SetMuteTo(on: bool)
      requires Valid()
      modifies this
      ensures Valid()
      ensures issued == old(issued) + [SetMute(on)] && mute == on
      ensures speedIncreaseTimer == old(speedIncreaseTimer) && panSpeed == old(panSpeed) && tiltSpeed == old(tiltSpeed)
      ensures power == old(power) && zoomPosition == old(zoomPosition)
    {
      IssueCommand(SetMute(on));
      mute := on;
    }

    method PowerOn()
      requires Valid()
      modifies this
      ensures Valid()
      ensures issued == old(issued) + [SetPower(true)] && power
      ensures Ptz().(issued := []) == old(Ptz()).(issued := [])
      ensures mute == old(mute) && zoomPosition == old(zoomPosition)
    {
      SetPowerTo(true);
    }

    method PowerOff()
      requires Valid()
      modifies this
      ensures Valid()
      ensures issued == old(issued) + [SetPower(false)] && !power
      ensures Ptz().(issued := []) == old(Ptz()).(issued := [])
      ensures mute == old(mute) && zoomPosition == old(zoomPosition)
    {
      SetPowerTo(false);
    }

    /** Turning the camera off is powering it off. */
    method CameraOff()
      requires Valid()
      modifies this
      ensures Valid()
      ensures issued == old(issued) + [SetPower(false)] && !power
      ensures Ptz().(issued := []) == old(Ptz()).(issued := [])
      ensures mute == old(mute) && zoomPosition == old(zoomPosition)
    {
      SetPowerTo(false);
    }

    /** Toggling power sets it to the negation of the current value. */
    method PowerToggle()
      requires Valid()
      modifies this
      ensures Valid()
      ensures issued == old(issued) + [SetPower(!old(power))] && power == !old(power)
      ensures Ptz().(issued := []) == old(Ptz()).(issued := [])
      ensures mute == old(mute) && zoomPosition == old(zoomPosition)
    {
      SetPowerTo(!power);
    }

    method CameraMuteOn()
      requires Valid()
      modifies this
      ensures Valid()
      ensures issued == old(issued) + [SetMute(true)] && mute
      ensures Ptz().(issued := []) == old(Ptz()).(issued := [])
      ensures power == old(power) && zoomPosition == old(zoomPosition)
    {
      SetMuteTo(true);
    }

    method CameraMuteOff()
      requires Valid()
      modifies this
      ensures Valid()
      ensures issued == old(issued) + [SetMute(false)] && !mute
      ensures Ptz().(issued := []) == old(Ptz()).(issued := [])
      ensures power == old(power) && zoomPosition == old(zoomPosition)
    {
      SetMuteTo(false);
    }

    /** Toggling the privacy mute sets it to the negation of the current value. */
    method CameraMuteToggle()
      requires Valid()
      modifies this
      ensures Valid()
      ensures issued == old(issued) + [SetMute(!old(mute))] && mute == !old(mute)
      ensures Ptz().(issued := []) == old(Ptz()).(issued := [])
      ensures power == old(power) && zoomPosition == old(zoomPosition)
    {
      SetMuteTo(!mute);
    }

    /** The monitor's poll action: runs every configured poll command once, in list order. */
    method PollAll()
      requires Valid()
      modifies this
      ensures Valid()
      ensures issued == old(issued) + Inquiries(poll)
      ensures speedIncreaseTimer == old(speedIncreaseTimer) && panSpeed == old(panSpeed) && tiltSpeed == old(tiltSpeed)
      ensures power == old(power) && mute == old(mute) && zoomPosition == old(zoomPosition)
    {
      for i := 0 to |poll|
        invariant Valid()
        invariant issued == old(issued) + Inquiries(poll[..i])
        invariant speedIncreaseTimer == old(speedIncreaseTimer) && panSpeed == old(panSpeed) && tiltSpeed == old(tiltSpeed)
        invariant power == old(power) && mute == old(mute) && zoomPosition == old(zoomPosition)
      {
        InquiriesPrefix(poll, i);
        IssueCommand(Inquiry(poll[i]));
      }
      assert poll[..|poll|] == poll;
    }
  }

  /** The inquiries a list of poll commands issues, in order. */
  function Inquiries(polls: seq<PollCommand>): seq<Command> {
    if polls == [] then [] else [Inquiry(polls[0])] + Inquiries(polls[1..])
  }

  lemma {:induction false} InquiriesAppend(a: seq<PollCommand>, b: seq<PollCommand>)
    ensures Inquiries(a + b) == Inquiries(a) + Inquiries(b)
  {
    if a == [] {
      assert a + b == b;
    } else {
      assert (a + b)[0] == a[0] && (a + b)[1..] == a[1..] + b;
      InquiriesAppend(a[1..], b);
    }
  }

  lemma InquiriesPrefix(polls: seq<PollCommand>, i: nat)
    requires i < |polls|
    ensures Inquiries(polls[..i + 1]) == Inquiries(polls[..i]) + [Inquiry(polls[i])]
  {
    var before := polls[..i];
    assert polls[..i + 1] == before + [polls[i]];
    InquiriesAppend(before, [polls[i]]);
    assert [polls[i]][1..] == [];
  }

  /** Every inquiry the poll action issues is one of the configured poll commands, and they come in list order. */
  lemma {:induction false} InquiriesOfPolls(polls: seq<PollCommand>)
    ensures |Inquiries(polls)| == |polls|
    ensures forall i :: 0 <= i < |polls| ==> Inquiries(polls)[i] == Inquiry(polls[i])
  {
    if polls != [] {
      InquiriesOfPolls(polls[1..]);
    }
  }

  /**
   A client of the adapter: with a 200 ms hold, slow pan 5 and fast pan 18,
   holding pan-left until the timer expires and then pan-stop issues the move
   at speed 5, its repeat at speed 18 and Stop, and leaves pan speed 5.
   */
  method PanLeftHeld(initialTilt: byte, panHigh: byte, tiltHigh: byte) returns (camera: CameraVisca)
    ensures camera.issued == [Move(Left, 5, 5), Move(Left, 18, tiltHigh), Command.Stop]
    ensures camera.panSpeed == 5 && camera.speedIncreaseTimer == None
  {
    var settings := Settings(false, 0, 0, 0, 5, 18, 5, 0, 200, None);
    camera := new CameraVisca(settings, 1, initialTilt, panHigh, tiltHigh, false, false, 0);
    camera.PanLeft();
    camera.TimerFire();
    camera.PanStop();
  }
}
