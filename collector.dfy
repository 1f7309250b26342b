/** The sampling side of test_1.py: the module-level tracking variables
    (lines 45-49, 93) as the fields of one object, and `collect_data`
    (lines 98-159) as a method that updates them in place. The SDK reads
    (lines 101-108) arrive as parameters. */
module Collector {
  import opened Angles
  import opened Rotation

  /** What the three SDK calls of lines 104-108 returned. */
  datatype Reading = Reading(
    x: real, y: real, z: real,            // chassis position, z is the raw yaw
    vx: real, vy: real, vz: real,         // chassis speed
    gimbalPitch: real, gimbalYaw: real)   // gimbal attitude

  /** One row of `sensor_data_records` (test_1.py lines 147-158). */
  datatype SensorRecord = SensorRecord(
    timestampMs: int,
    chassisX: real, chassisY: real, chassisZ: real,
    chassisVx: real, chassisVy: real, chassisVz: real,
    gimbalPitch: real, gimbalYaw: real,
    accumulatedYaw: real)

  class RotationTracker {
    var currentYawOffset: real
    var lastRecordedYaw: real
    var rotationCount: int
    var lastRotationTime: int
    var rotationTimes: seq<RotationRecord>
    var sensorDataRecords: seq<SensorRecord>

    /** The tracking variables as a value of the specification. */
    ghost function State(): TrackerState
      reads this
    {
      TrackerState(currentYawOffset, lastRecordedYaw, rotationCount, lastRotationTime, rotationTimes)
    }

    ghost predicate Valid()
      reads this
    {
      Inv(State())
    }

    /** Module load (lines 45-49) and line 93; `startClockMs` is the clock
        reading of line 48. */
    constructor (startClockMs: int)
      ensures Valid()
      ensures State() == Initial(startClockMs)
      ensures sensorDataRecords == []
    {
      currentYawOffset, lastRecordedYaw := 0.0, 0.0;
      rotationCount, lastRotationTime := 0, startClockMs;
      rotationTimes, sensorDataRecords := [], [];
      new;
      InitialInv(startClockMs);
    }

    /** Lines 110-142: fold one raw yaw into the offset and log a rotation
        event when the count of whole turns goes up. `clockMs` is the clock
        reading of line 131, `sampleMs` the timestamp of line 101. */
    method Update(rawYaw: real, sampleMs: int, clockMs: int)
      requires Valid()
      modifies this
      ensures Valid()
      ensures State() == Step(old(State()), Sample(rawYaw, sampleMs, clockMs))
      ensures sensorDataRecords == old(sensorDataRecords)
    {
      ghost var before := State();
      var zNormalized := PyMod(rawYaw + 180.0, 360.0) - 180.0;

      var yawDiff := zNormalized - lastRecordedYaw;
      if yawDiff > 180.0 {
        yawDiff := yawDiff - 360.0;
      } else if yawDiff < -180.0 {
        yawDiff := yawDiff + 360.0;
      }

      currentYawOffset := currentYawOffset + yawDiff;
      lastRecordedYaw := zNormalized;

      if Abs(currentYawOffset) >= 360.0 {
        var rotationCountBefore := rotationCount;
        rotationCount := FloorDiv(Abs(currentYawOffset), 360.0);
        if rotationCount > rotationCountBefore {
          var timeTaken := clockMs - lastRotationTime;
          rotationTimes := rotationTimes + [RotationRecord(rotationCount, timeTaken, sampleMs)];
          lastRotationTime := clockMs;
          currentYawOffset := PyMod(currentYawOffset, 360.0);
          if currentYawOffset > 180.0 {
            currentYawOffset := currentYawOffset - 360.0;
          }
        }
      }
      StepInv(before, Sample(rawYaw, sampleMs, clockMs));
    }

    /** Lines 98-159: one completed sampling pass. A read that raises
        (lines 165-169) never reaches this method, so the state is untouched. */
    method CollectData(r: Reading, sampleMs: int, clockMs: int)
      requires Valid()
      modifies this
      ensures Valid()
      ensures State() == Step(old(State()), Sample(r.z, sampleMs, clockMs))
      ensures sensorDataRecords == old(sensorDataRecords) + [
        SensorRecord(sampleMs, r.x, r.y, r.z, r.vx, r.vy, r.vz,
                     r.gimbalPitch, r.gimbalYaw, currentYawOffset)]
    {
      Update(r.z, sampleMs, clockMs);
      var record := SensorRecord(sampleMs, r.x, r.y, r.z, r.vx, r.vy, r.vz,
                                 r.gimbalPitch, r.gimbalYaw, currentYawOffset);
      sensorDataRecords := sensorDataRecords + [record];
    }
  }
}
