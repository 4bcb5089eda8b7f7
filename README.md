# VISCA camera adapter: speed ramp, poll list and camera id

A Dafny model of the logic inside the PepperDash Essentials plugin that drives
a VISCA pan/tilt/zoom camera (`CameraVisca`). The plugin mostly forwards calls
to a VISCA camera library and to the Essentials framework. Three parts of it
hold logic of their own, and those are modelled and proved here:

- **The hold-to-accelerate speed ramp.** With a positive `FastSpeedHoldTimeMs`,
  a directional press does four things: it cancels any pending one-shot timer,
  resets pan/tilt speed to the normal speed, arms a new timer carrying the
  command, and issues the command. When the timer expires it disposes of
  itself, raises the speeds to the fast tier (or the library maximum), and
  re-issues the command once. A stop cancels the timer, resets the speeds and
  issues `Stop`. With no hold time configured, presses and stops pass straight
  through.
- **The poll list.** A table of 18 named poll commands is filtered by the
  comma-separated `PollString` of the monitor settings. Tokens are trimmed,
  unknown names are skipped, and order and repetitions are kept. Without
  monitor settings the whole table is polled, and the monitor gets the
  default intervals 10000/20000/30000 ms.
- **The camera-id guard.** The `Id` setter accepts 1..7 and throws otherwise,
  leaving the stored id unchanged.

Modules, one per concern:

- `Text` (text.dfy): .NET `String.Split(',')` and `String.Trim()`.
- `ViscaTypes` (visca_types.dfy): C# bytes, directions, the library's poll
  calls, and the commands the adapter issues.
- `Config` (config.dfy): the configuration class with its guarded `Id`, and the
  plain settings.
- `PollList` (poll_list.dfy): the table, the selection specification and the
  constructor's build loop.
- `SpeedRamp` (speed_ramp.dfy): the ramp as functions over values, with
  lemmas about single steps and about event sequences.
- `Camera` (camera.dfy): the `CameraVisca` class. Its fields are the timer,
  the camera speeds, its power/mute/zoom values and the log of issued
  commands. Its methods are proved to follow the `SpeedRamp` functions.

The library camera is not part of this model. Every call on it becomes an
entry in the adapter's `issued` log. A move records the pan and tilt speed in
force when it is issued, because the library moves at the camera's current
speeds. The camera's speeds before construction and its speed limits
(`ViscaDefaults.PanSpeedLimits.High`, `TiltSpeedLimits.High`) are constructor
parameters. So are its initial power, mute and zoom values.

Line 164 of `CameraVisca.cs` sets the fast tilt speed to `PanSpeedFast`
whenever `TiltSpeedFast > 0`. The model keeps this exactly as written
(`SpeedRamp.FastTiltSpeed`, `Camera.CameraVisca.TimerFire`), and
`SpeedRamp.FireRaisesSpeed` states it.

`CameraViscaConfig.cs` as shown does not declare `HomePanPosition`,
`HomeTiltPosition` or `HomeZoomPosition`, which `PositionHome` reads. The model
gives them type `int` in `Config.Settings`.

## Model

| member | source | states |
|---|---|---|
| Config.CameraViscaConfig.constructor | PDE.CameraViscaPlugin.EPI/CameraViscaConfig.cs:33 | before any set, the stored id is the byte default 0 |
| Config.CameraViscaConfig.SetId | PDE.CameraViscaPlugin.EPI/CameraViscaConfig.cs:25-31 | the set succeeds iff 0 < v < 8, and then the getter returns v; otherwise it fails with the out-of-range error and the getter still returns the previous id |
| Config.DefaultIdOutOfRange | PDE.CameraViscaPlugin.EPI/CameraViscaConfig.cs:27-33 | the default id 0 is outside the accepted range |
| Text.Split | PDE.CameraViscaPlugin.EPI/CameraVisca.cs:111 | splitting gives at least one field, and no field contains the separator |
| Text.JoinSplit | PDE.CameraViscaPlugin.EPI/CameraVisca.cs:111 | joining the fields of a split with the separator gives back the original string |
| Text.SplitJoin | PDE.CameraViscaPlugin.EPI/CameraVisca.cs:111 | splitting separator-free fields joined by the separator gives back exactly those fields, empty ones included |
| Text.Trim | PDE.CameraViscaPlugin.EPI/CameraVisca.cs:112 | the result neither starts nor ends with white space, and it is a substring of the input with only white space before and after it |
| Text.TrimPadded | PDE.CameraViscaPlugin.EPI/CameraVisca.cs:112 | trimming a word padded by white space on both sides gives exactly the word |
| Text.TrimIdempotent | PDE.CameraViscaPlugin.EPI/CameraVisca.cs:112 | trimming twice is the same as trimming once |
| PollList.LookupIsTableMap | PDE.CameraViscaPlugin.EPI/CameraVisca.cs:76-96 | looking a name up in the table agrees with the dictionary the table describes: found iff it is a key, with that key's command |
| PollList.DefaultPollsAreTheWholeTable | PDE.CameraViscaPlugin.EPI/CameraVisca.cs:122-127 | without monitor settings the poll list is all 18 table commands, each once, in table order |
| PollList.ConfiguredPollsDefaults | PDE.CameraViscaPlugin.EPI/CameraVisca.cs:108-128 | without monitor settings all table values are polled; with monitor settings and a null or empty poll string nothing is polled |
| PollList.PollsForMembers | PDE.CameraViscaPlugin.EPI/CameraVisca.cs:110-113 | a command is in the poll list iff some token, once trimmed, is a table key for that command |
| PollList.PollsForAppend | PDE.CameraViscaPlugin.EPI/CameraVisca.cs:110-113 | selection distributes over concatenation of token lists, so token order and repeated tokens carry over to the poll list |
| PollList.PollsForAllKnown | PDE.CameraViscaPlugin.EPI/CameraVisca.cs:111-113 | when every trimmed token is a key, the poll list has one entry per token, the i-th being the i-th token's command |
| PollList.PollStringSelects | PDE.CameraViscaPlugin.EPI/CameraVisca.cs:110-113 | a non-empty poll string of comma-separated names selects exactly the commands those names select, in order |
| PollList.BuildPollList | PDE.CameraViscaPlugin.EPI/CameraVisca.cs:108-128 | the loop builds the specified poll list; the monitor gets the configured intervals, or 10000/20000/30000 without monitor settings |
| SpeedRamp.RampFor | PDE.CameraViscaPlugin.EPI/CameraVisca.cs:145-156 | the ramp is on iff FastSpeedHoldTimeMs > 0; when on, each normal speed is the configured slow speed if positive, else the camera's prior speed |
| SpeedRamp.PressArms | PDE.CameraViscaPlugin.EPI/CameraVisca.cs:327-336 | with the ramp on, a press leaves exactly one armed timer carrying that command and both speeds normal, and issues the command once at normal speed |
| SpeedRamp.PressPassesThrough | PDE.CameraViscaPlugin.EPI/CameraVisca.cs:327-336 | with the ramp off, a press only issues the command at the current speeds, and no timer exists |
| SpeedRamp.FireRaisesSpeed | PDE.CameraViscaPlugin.EPI/CameraVisca.cs:158-167 | expiry clears the timer without re-arming it. Pan becomes PanSpeedFast if positive, else the pan maximum. Tilt becomes PanSpeedFast if TiltSpeedFast is positive, else the tilt maximum. The pending command is then re-issued once at those speeds |
| SpeedRamp.StopResets | PDE.CameraViscaPlugin.EPI/CameraVisca.cs:338-346 | a stop always issues Stop; with the ramp on it leaves no timer and both speeds normal; with it off it touches neither |
| SpeedRamp.StopTwice | PDE.CameraViscaPlugin.EPI/CameraVisca.cs:338-346 | stopping twice leaves the same timer and speeds as stopping once, with two Stops issued |
| SpeedRamp.DisposeTimerClears | PDE.CameraViscaPlugin.EPI/CameraVisca.cs:348-356 | disposing of no timer changes nothing; disposing of a timer leaves none and changes nothing else |
| SpeedRamp.StepKeepsInv | PDE.CameraViscaPlugin.EPI/CameraVisca.cs:327-362 | press, stop and expiry keep the invariant: a timer is armed only with the ramp on and only while the speeds are normal |
| SpeedRamp.RunKeepsInv | PDE.CameraViscaPlugin.EPI/CameraVisca.cs:327-362 | every sequence of presses, stops and expiries keeps that invariant |
| SpeedRamp.DisabledPassesThrough | PDE.CameraViscaPlugin.EPI/CameraVisca.cs:329-345 | with the ramp off, over any event sequence no timer is ever created and the speeds never change. Each press or stop issues exactly one command at those speeds |
| SpeedRamp.StoppedNeverFires | PDE.CameraViscaPlugin.EPI/CameraVisca.cs:338-356 | after a stop, however often the hold time passes, no fast command is issued and nothing changes |
| SpeedRamp.PressesSupersede | PDE.CameraViscaPlugin.EPI/CameraVisca.cs:327-336 | with the ramp on, after any sequence of presses exactly one timer is armed, carrying the last command. Every press was issued once at normal speed |
| SpeedRamp.HoldAndRelease | PDE.CameraViscaPlugin.EPI/CameraVisca.cs:327-346 | press, expiry, stop: a move at normal speed, then the repeat at fast speed, then Stop, ending with normal speeds and no timer |
| SpeedRamp.PanLeftHeldScenario | PDE.CameraViscaPlugin.EPI/CameraVisca.cs:297-301 | with a 200 ms hold, slow pan 5 and fast pan 18, a held pan-left issues pan speed 5, then 18, then Stop, and ends at pan speed 5 with no timer |
| Camera.CameraVisca.constructor | PDE.CameraViscaPlugin.EPI/CameraVisca.cs:108-156 | builds the configured poll list and monitor intervals, enables the ramp iff FastSpeedHoldTimeMs > 0, sets the camera speeds to the normal ones when it does, and starts with no timer |
| Camera.CameraVisca.PtzCommand | PDE.CameraViscaPlugin.EPI/CameraVisca.cs:327-336 | the new timer, speeds and issued log are exactly those of SpeedRamp.Press; nothing else changes |
| Camera.CameraVisca.PtzStop | PDE.CameraViscaPlugin.EPI/CameraVisca.cs:338-346 | the new timer, speeds and issued log are exactly those of SpeedRamp.Stop |
| Camera.CameraVisca.PtzSpeedChangeTimerDispose | PDE.CameraViscaPlugin.EPI/CameraVisca.cs:348-356 | the timer becomes absent and nothing else changes |
| Camera.CameraVisca.PtzSpeedReset | PDE.CameraViscaPlugin.EPI/CameraVisca.cs:358-362 | both speeds become the normal speeds and nothing else changes |
| Camera.CameraVisca.TimerFire | PDE.CameraViscaPlugin.EPI/CameraVisca.cs:158-167 | the new timer, speeds and issued log are exactly those of SpeedRamp.Fire |
| Camera.CameraVisca.PanLeft | PDE.CameraViscaPlugin.EPI/CameraVisca.cs:297 | a press of Left through the ramp |
| Camera.CameraVisca.PanRight | PDE.CameraViscaPlugin.EPI/CameraVisca.cs:299 | a press of Right through the ramp |
| Camera.CameraVisca.PanStop | PDE.CameraViscaPlugin.EPI/CameraVisca.cs:301 | a stop through the ramp |
| Camera.CameraVisca.TiltDown | PDE.CameraViscaPlugin.EPI/CameraVisca.cs:307 | a press of Down through the ramp |
| Camera.CameraVisca.TiltUp | PDE.CameraViscaPlugin.EPI/CameraVisca.cs:309 | a press of Up through the ramp |
| Camera.CameraVisca.TiltStop | PDE.CameraViscaPlugin.EPI/CameraVisca.cs:311 | a stop through the ramp |
| Camera.CameraVisca.PositionHome | PDE.CameraViscaPlugin.EPI/CameraVisca.cs:284-293 | issues Home iff the Home command is supported; otherwise an absolute pan/tilt to the home position, then the home zoom, which becomes the zoom position |
| Camera.CameraVisca.PowerOff | PDE.CameraViscaPlugin.EPI/CameraVisca.cs:264 | sets power off |
| Camera.CameraVisca.PowerOn | PDE.CameraViscaPlugin.EPI/CameraVisca.cs:266 | sets power on |
| Camera.CameraVisca.PowerToggle | PDE.CameraViscaPlugin.EPI/CameraVisca.cs:268 | sets power to the negation of its current value |
| Camera.CameraVisca.CameraOff | PDE.CameraViscaPlugin.EPI/CameraVisca.cs:278 | sets power off |
| Camera.CameraVisca.CameraMuteOff | PDE.CameraViscaPlugin.EPI/CameraVisca.cs:394 | sets the privacy mute off |
| Camera.CameraVisca.CameraMuteOn | PDE.CameraViscaPlugin.EPI/CameraVisca.cs:396 | sets the privacy mute on |
| Camera.CameraVisca.CameraMuteToggle | PDE.CameraViscaPlugin.EPI/CameraVisca.cs:398 | sets the privacy mute to the negation of its current value |
| Camera.CameraVisca.PollAll | PDE.CameraViscaPlugin.EPI/CameraVisca.cs:119 | the monitor's poll action issues one inquiry per poll-list entry, in list order, and changes nothing else |
| Camera.InquiriesOfPolls | PDE.CameraViscaPlugin.EPI/CameraVisca.cs:119 | the inquiries issued by a poll run correspond one to one, in order, to the poll list |
| Camera.PanLeftHeld | PDE.CameraViscaPlugin.EPI/CameraVisca.cs:297-345 | a client holding pan-left through an expiry and then stopping gets moves at pan speed 5 and 18, then Stop, and ends at pan speed 5 with no timer |

## Left out

- The communication monitor (`GenericCommunicationMonitor`) is a framework class. Its Online/Warning/Error logic is not in these files. Only its construction arguments are modelled (`PollList.MonitorSetup`), together with the poll action it runs (`Camera.CameraVisca.PollAll`).
- Command/reply synchronisation and the effect of inquiry replies live in the VISCA library, which is not part of this model; an inquiry is only an entry in the issued log.
- The library's `Power`, `Mute` and `ZoomPosition` setters are modelled as issuing the command and writing the library's cached value. The library's own caching is not visible.
- The library's speed setters may clamp to its limits. That is not visible, and the model stores speeds as given.
- VISCA byte encoding, `ProcessIncomingData`, the `Connect` property, socket connection-change handling and `CustomActivate` logging are I/O or framework glue.
- `CTimer` threading and timing: timer expiry is the discrete event `TimerFire` (`HoldElapsed` in event sequences). The hold time only switches the ramp on. A race between a stop and an expiry is not modelled.
- Camera.CameraVisca.TimerFire: requires an armed timer, because a disposed `CTimer` never calls back.
- Feedback objects (`BoolFeedback`/`IntFeedback` and their `FireUpdate` wiring), `LinkToApi`, the bridge join map and the `DeviceManager` hooks.
- Zoom and focus calls (`ZoomIn`, `ZoomOut`, `ZoomStop`, `FocusFar`, `FocusNear`, `FocusStop`, `TriggerAutoFocus`, the focus-mode setters), `PresetSelect`, `PresetStore` and `Presets`: one-line pass-throughs to the library.
- CameraViscaFactory.cs (JSON deserialisation, `CommFactory`), CameraViscaMemory.cs and CameraViscaEventArgs.cs: glue and data holders. The camera id is forwarded only to the library camera, so the adapter model does not carry it.
- The order of `Dictionary.Values` is taken to be the initializer's order, which is what .NET does for a dictionary nobody removes from.
- White space for `Trim` is the set `Char.IsWhiteSpace` accepts in current .NET. Older .NET profiles trim a slightly different set.
- `FastSpeedHoldTimeMs` is a C# `byte`, so the hold time is 0..255 ms. The scenarios use 200 ms.
