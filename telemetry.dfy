/** The module-level telemetry state of robot.py (lines 37, 48-52) and the
    five subscription callbacks (lines 57-160) that each append one record
    to their own list. `now` is the wall-clock reading `time.time()` taken at
    the start of each callback. */
module Telemetry {
  import opened TelemetryRecords

  class TelemetryLog {
    var startRobotTime: real
    var positionRecords: seq<Record>
    var attitudeRecords: seq<Record>
    var imuRecords: seq<Record>
    var escRecords: seq<Record>
    var statusRecords: seq<Record>

    /** Module load: start time 0 (line 37), every list empty (lines 48-52). */
    constructor ()
      ensures startRobotTime == 0.0
      ensures positionRecords == [] && attitudeRecords == [] && imuRecords == []
      ensures escRecords == [] && statusRecords == []
    {
      startRobotTime := 0.0;
      positionRecords, attitudeRecords, imuRecords := [], [], [];
      escRecords, statusRecords := [], [];
    }

    /** Lines 196-198: the session clock starts once the robot is ready. */
    method MarkStart(now: real)
      modifies this`startRobotTime
      ensures startRobotTime == now
    {
      startRobotTime := now;
    }

    /** Lines 57-68. A tuple shorter than three raises IndexError while the
        dict is built, before the append: then ok is false and nothing changes. */
    method SubInfoPosition(now: real, subInfo: seq<Value>) returns (ok: bool)
      modifies this`positionRecords
      ensures ok <==> |subInfo| >= 3
      ensures positionRecords == if ok then old(positionRecords) + [PositionRecord(now - startRobotTime, subInfo)]
                                 else old(positionRecords)
    {
      ok := |subInfo| >= 3;
      if ok {
        var currentRelativeTime := now - startRobotTime;
        positionRecords := positionRecords + [PositionRecord(currentRelativeTime, subInfo)];
      }
    }

    /** Lines 72-83, with the same IndexError case as position. */
    method SubInfoAttitude(now: real, subInfo: seq<Value>) returns (ok: bool)
      modifies this`attitudeRecords
      ensures ok <==> |subInfo| >= 3
      ensures attitudeRecords == if ok then old(attitudeRecords) + [AttitudeRecord(now - startRobotTime, subInfo)]
                                 else old(attitudeRecords)
    {
      ok := |subInfo| >= 3;
      if ok {
        var currentRelativeTime := now - startRobotTime;
        attitudeRecords := attitudeRecords + [AttitudeRecord(currentRelativeTime, subInfo)];
      }
    }

    /** Lines 87-101; a tuple shorter than six raises IndexError. */
    method SubInfoImu(now: real, subInfo: seq<Value>) returns (ok: bool)
      modifies this`imuRecords
      ensures ok <==> |subInfo| >= 6
      ensures imuRecords == if ok then old(imuRecords) + [ImuRecord(now - startRobotTime, subInfo)]
                            else old(imuRecords)
    {
      ok := |subInfo| >= 6;
      if ok {
        var currentRelativeTime := now - startRobotTime;
        imuRecords := imuRecords + [ImuRecord(currentRelativeTime, subInfo)];
      }
    }

    /** Lines 105-127; never fails. `rendered` is `str(sub_info)`. */
    method SubInfoEsc(now: real, subInfo: seq<Value>, rendered: string)
      modifies this`escRecords
      ensures escRecords == old(escRecords) + [EscRecord(now - startRobotTime, subInfo, rendered)]
    {
      var record := BuildEscRecord(now - startRobotTime, subInfo, rendered);
      escRecords := escRecords + [record];
    }

    /** Lines 131-160; never fails. */
    method SubInfoStatus(now: real, subInfo: seq<Value>)
      modifies this`statusRecords
      ensures statusRecords == old(statusRecords) + [StatusRecord(now - startRobotTime, subInfo)]
    {
      var record := BuildStatusRecord(now - startRobotTime, subInfo);
      statusRecords := statusRecords + [record];
    }
  }
}
