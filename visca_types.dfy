/**
 The values the camera adapter exchanges with the VISCA camera library: C#
 bytes, the four pan/tilt directions, the library's poll (inquiry) calls, and
 the commands the adapter issues, as they appear in the model's command log.
 */
module ViscaTypes {

  /** A C# `byte`. */
  newtype byte = x: int | 0 <= x < 256

  /** The directional calls of the library camera: `Left`, `Right`, `Up`, `Down`. */
  datatype Direction = Left | Right | Up | Down

  /** The library camera's poll calls, one per entry of the adapter's poll table. */
  datatype PollCommand =
    | AEPoll | AperturePoll | BackLightPoll | BGainPoll | ExpCompPoll | FocusAutoPoll
    | FocusPositionPoll | GainPoll | IrisPoll | MutePoll | PanTiltPositionPoll | PowerPoll
    | RGainPoll | ShutterPoll | TitlePoll | WBModePoll | WideDynamicModePoll | ZoomPositionPoll

  /**
   One call the adapter makes on the library camera. A move records the pan and
   tilt speed in force when it was issued, since the library moves at the
   camera's current speeds.
   */
  datatype Command =
    | Move(direction: Direction, panSpeed: byte, tiltSpeed: byte)
    | Stop
    | Home
    | PositionAbsolute(pan: int, tilt: int)
    | SetZoomPosition(zoom: int)
    | SetPower(on: bool)
    | SetMute(on: bool)
    | Inquiry(poll: PollCommand)
}
