/**
 The adapter's configuration: the camera id, whose setter guards its range,
 and the remaining settings, which are plain properties read once at
 construction.
 */
module Config {
  import opened Wrappers
  import opened ViscaTypes

  /** The error the `Id` setter throws (an `ArgumentOutOfRangeException`). */
  datatype ConfigError = IdOutOfRange

  /** The camera ids the `Id` setter accepts. */
  predicate IdInRange(value: byte) {
    0 < value < 8
  }

  /** The configuration object, reduced to the one property with logic: the camera id. */
  class CameraViscaConfig {
    var id: byte

    /** A fresh configuration holds the byte default, 0. */
    constructor ()
      ensures id == 0
    {
      id := 0;
    }

    /** The getter returns the stored id. */
    function Id(): (value: byte)
      reads this
    {
      id
    }

    /** The setter stores `value` when it is a camera id 1..7 and otherwise fails, keeping the stored id. */
    method SetId(value: byte) returns (outcome: Outcome<ConfigError>)
      modifies this
      ensures outcome.Pass? <==> IdInRange(value)
      ensures outcome.Pass? ==> Id() == value
      ensures outcome.Fail? ==> outcome.error == IdOutOfRange && Id() == old(Id())
    {
      if value > 0 && value < 8 {
        id := value;
        outcome := Pass;
      } else {
        outcome := Fail(IdOutOfRange);
      }
    }
  }

  /** The id a configuration holds before any successful set is not a valid camera id. */
  lemma DefaultIdOutOfRange()
    ensures !IdInRange(0)
  {
  }

  /** The communication-monitor settings: an optional poll string and the three monitor intervals (ms). */
  datatype MonitorProperties = MonitorProperties(
    pollString: Option<string>,
    pollInterval: int,
    timeToWarning: int,
    timeToError: int)

  /** The plain configuration properties the adapter reads. */
  datatype Settings = Settings(
    homeCmdSupport: bool,
    homePanPosition: int,
    homeTiltPosition: int,
    homeZoomPosition: int,
    panSpeedSlow: byte,
    panSpeedFast: byte,
    tiltSpeedSlow: byte,
    tiltSpeedFast: byte,
    fastSpeedHoldTimeMs: byte,
    monitor: Option<MonitorProperties>)
}
