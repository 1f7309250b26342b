# RoboMaster chassis telemetry: rotation tracking and record shaping

This project models two parts of a small RoboMaster EP data-logging program in Dafny.

**Rotation tracking (`test_1.py`).** While the robot drives, a sampling pass (`collect_data`) does three things:
- reads the chassis yaw;
- unwraps the yaw into an accumulated offset;
- logs a rotation event each time the number of whole 360-degree turns in that offset goes up.

The model has these pieces:
- **`Angles`:** Python's float floor-division and floor-modulo, and the angle arithmetic built on them.
- **`Rotation`:** one tracking step as a function `Step` on a `TrackerState` value, with its invariant and lemmas.
- **`Collector.RotationTracker`:** the module-level variables as fields of one object. `Update` and `CollectData` change those fields in place and are proved to follow `Step`.
- **`RotationScenarios` and `SpinTrace`:** concrete runs, worked out from the initial state.

**Record shaping (`robot.py`).** Five sensor-subscription callbacks each turn one SDK tuple into a dictionary keyed by column name and append it to that stream's list. The model has these pieces:
- **`TelemetryRecords`:** each record as a function, and the two key-by-key loops (ESC and status) as methods proved equal to those functions.
- **`Decimal`:** the `str(i)` used in fallback key names.
- **`Telemetry.TelemetryLog`:** the five module-level lists and the start time, with one method per callback.

The code sometimes does not do what its comments suggest. The model follows the code:
- `rotation_count` is overwritten with `floor(|offset| / 360)` whenever `|offset| >= 360`, even when no event fires. So the count can go down.
- The offset is reduced only when an event fires. So after the first event the next one needs `|offset| >= 720`, and a rotation number can be logged twice.

The model therefore claims no invariant that the count is monotonic or always equals the turns in the offset. `SpinTrace.CountFallsBack` and `SpinTrace.RotationNumberRepeats` show steady spinning that breaks both.

## Model

| member | source | states |
|---|---|---|
| Angles.Abs | test_1.py:125 | `abs` is non-negative and equals the argument or its negation |
| Angles.FloorDiv | test_1.py:127 | Python's `//` on floats: the quotient q satisfies q*m <= x < q*m + m |
| Angles.PyMod | test_1.py:112 | Python's `%` with a positive modulus: the result lies in [0, m) and x == (x // m)*m + result |
| Angles.NormalizeRange | test_1.py:111-112 | the normalised yaw lies in [-180, 180) and is congruent to the raw yaw modulo 360 |
| Angles.NormalizeUnique | test_1.py:111-112 | the normalised yaw is the only value in [-180, 180) congruent to the raw yaw |
| Angles.NormalizeIdempotent | test_1.py:112 | normalising an already normalised yaw changes nothing |
| Angles.NormalizeHalfTurn | test_1.py:112 | a raw yaw of 180 normalises to -180 |
| Angles.WrapDiffRange | test_1.py:114-119 | for a difference of two normalised yaws, the corrected difference lies in [-180, 180] and is congruent to the plain difference |
| Angles.WrapDiffShortest | test_1.py:114-119 | no other difference congruent modulo 360 is shorter than the corrected one |
| Angles.SmallTurnRecovered | test_1.py:111-119 | a turn of less than half a revolution between two samples is recovered exactly from their normalised yaws |
| Angles.ReduceOffsetRange | test_1.py:140-142 | the reset offset lies in (-180, 180] and is congruent to the offset before the reset |
| Angles.WholeTurns | test_1.py:127 | `int(abs(o) // 360)` is the natural n with n*360 <= abs(o) < (n+1)*360 |
| Rotation.InitialInv | test_1.py:45-49 | the initial values satisfy the tracking invariant |
| Rotation.StepHeading | test_1.py:111-122 | after a step, `last_recorded_yaw` is the normalised sample: in [-180, 180) and congruent to the raw yaw |
| Rotation.DeltaBounded | test_1.py:114-119 | from a state whose last yaw is normalised, the corrected difference lies in [-180, 180] and is congruent to `z_normalized - last_recorded_yaw` |
| Rotation.StepBelowThreshold | test_1.py:121-125 | below 360 a step adds the corrected difference to the offset and records the heading; count, events and rotation clock are unchanged |
| Rotation.StepAtThreshold | test_1.py:125-127 | at or above 360 the count becomes the whole turns in the pre-reset offset (at least 1), whether or not an event fires |
| Rotation.StepEvent | test_1.py:125-139 | a record is appended iff the new count exceeds the old one, and then exactly one: numbered by the new count, timed from the previous event, stamped with the sample time; the rotation clock moves to now. Otherwise the events and the clock are unchanged |
| Rotation.StepReducesOffset | test_1.py:140-142 | after an event the offset lies in (-180, 180] and is congruent to the pre-reset offset |
| Rotation.StepInv | test_1.py:110-142 | every step preserves the invariant: the heading is normalised, the offset is congruent to the heading, the count is non-negative and is the offset's whole turns whenever abs(offset) >= 360, and every rotation number is at least 1 |
| Rotation.OffsetBelowNextTurn | test_1.py:125-142 | in any reachable state the offset is below (count + 1) full turns |
| Rotation.RunInv | test_1.py:110-142 | the invariant holds after any sequence of samples |
| Rotation.RunKeepsEvents | test_1.py:133-137 | events are only appended: earlier ones stay in order, and n samples add at most n events |
| Rotation.RunUnwraps | test_1.py:110-125 | from the initial state, while consecutive raw yaws differ by less than 180 and stay within one turn, the offset equals the last raw yaw exactly and no event fires |
| Collector.RotationTracker.constructor | test_1.py:45-49 | the variables start at zero with the rotation clock at its start reading; the sensor list is empty; the invariant holds |
| Collector.RotationTracker.Update | test_1.py:110-142 | the in-place update leaves the fields equal to `Step` of the old fields and keeps the invariant |
| Collector.RotationTracker.CollectData | test_1.py:98-159 | one completed pass updates the tracker as `Update` does and appends exactly one sensor record, carrying the reading, the raw yaw as `chassis_z_deg` and the post-update offset as `accumulated_yaw_deg` |
| RotationScenarios.QuarterTurns | test_1.py:110-142 | samples 0, 90, 180, -90, 0 log exactly one event, number 1, and reset the offset to 0 |
| RotationScenarios.SmallMove | test_1.py:110-125 | samples 0 then 5 log nothing and leave the offset at 5 |
| RotationScenarios.WrapAcrossBoundary | test_1.py:114-119 | going from heading 170 to -170 counts as +20, not -340 |
| RotationScenarios.ClockwiseSteps | test_1.py:110-142 | ten steps of -40 degrees log one event, on the ninth sample, and leave the offset at -40 |
| SpinTrace.CountFallsBack | test_1.py:125-130 | spinning in steps of 120 degrees, the count drops from 2 to 1 at the twelfth sample with no event |
| SpinTrace.RotationNumberRepeats | test_1.py:125-142 | the same spin logs rotation numbers 1, 2, 2 over fifteen samples |
| Decimal.NatToString | robot.py:158 | `str(i)` of a non-negative int is a non-empty digit string with no leading zero |
| Decimal.ParseNatToString | robot.py:158 | reading the decimal string back gives the number |
| Decimal.NatToStringInjective | robot.py:158 | distinct indices have distinct decimal strings |
| TelemetryRecords.PositionRecord | robot.py:57-68 | the record has exactly the four position keys: the timestamp, and indices 0, 1, 2 under `pos_x_m`, `pos_y_m`, `pos_z_deg_from_start` |
| TelemetryRecords.AttitudeRecord | robot.py:72-83 | the record has exactly the four attitude keys: the timestamp, and indices 0, 1, 2 under pitch, roll, yaw |
| TelemetryRecords.ImuRecord | robot.py:87-101 | the record has exactly seven keys: the timestamp, indices 0-2 as the acceleration keys, and indices 3-5 as the gyro keys, in order |
| TelemetryRecords.EscKeyDecodes | robot.py:117-123 | the field and the wheel can be read back from every ESC column name, and none is `timestamp` |
| TelemetryRecords.EscKeyInjective | robot.py:117-123 | the 16 ESC column names are pairwise distinct |
| TelemetryRecords.EscWheelsKeys | robot.py:119-123 | after i wheels of the loop the record holds the timestamp and exactly that many wheels' four keys: 1 + 4i entries |
| TelemetryRecords.EscWheelsValues | robot.py:119-123 | after i wheels of the loop, `esc_<field k>_<wheel j>` holds `sub_info[k][j]` for each wheel j done so far |
| TelemetryRecords.EscRecordShape | robot.py:105-127 | a well-shaped ESC tuple gives the timestamp plus 16 keys (17 entries), each holding `sub_info[k][i]`; any other input gives exactly `timestamp` and `raw_esc_data` |
| TelemetryRecords.BuildEscRecord | robot.py:111-126 | the key-by-key loop builds exactly the ESC record |
| TelemetryRecords.StatusKeyDecodes | robot.py:154-158 | the tuple index can be read back from every status column name, and none is `timestamp` |
| TelemetryRecords.StatusKeyInjective | robot.py:154-158 | distinct tuple positions get distinct status column names |
| TelemetryRecords.StatusPrefixKeys | robot.py:154-158 | after n iterations the record holds the timestamp and the first n status keys: n + 1 entries |
| TelemetryRecords.StatusPrefixValues | robot.py:154-158 | after n iterations each of the first n keys holds its tuple element unchanged |
| TelemetryRecords.StatusRecordShape | robot.py:131-160 | the status record has `len(sub_info) + 1` keys: the timestamp, `status_<name>` for indices below 11 and `status_val_<i>` for later ones, each holding its element |
| TelemetryRecords.BuildStatusRecord | robot.py:136-158 | the key-by-key loop builds exactly the status record |
| Telemetry.TelemetryLog.constructor | robot.py:37-52 | the start time is 0 and all five lists are empty |
| Telemetry.TelemetryLog.MarkStart | robot.py:196-198 | the session start time is set to the current clock |
| Telemetry.TelemetryLog.SubInfoPosition | robot.py:57-68 | a tuple of at least three values appends exactly one position record, stamped now - start; a shorter one raises and appends nothing. The other lists are untouched |
| Telemetry.TelemetryLog.SubInfoAttitude | robot.py:72-83 | the same for attitude records |
| Telemetry.TelemetryLog.SubInfoImu | robot.py:87-101 | the same for IMU records, with six values required |
| Telemetry.TelemetryLog.SubInfoEsc | robot.py:105-127 | appends exactly one ESC record to the ESC list only |
| Telemetry.TelemetryLog.SubInfoStatus | robot.py:131-160 | appends exactly one status record to the status list only |

## Left out

- SDK connection, motion commands, gimbal recentering and sensor subscription are calls into the RoboMaster SDK, which is not part of this model.
- The SDK reads of `test_1.py` lines 104-108 are parameters (`Reading`). A read that raises is caught by the collection loop before any state changes, which is the same as not calling `CollectData`.
- The data-collection thread, its stop flag, the Ctrl+C signal handler and the termination flag are concurrency and process plumbing.
- File and console output are not modelled: pandas DataFrames, CSV files, `os.makedirs`, `sys.exit` and the log prints.
- `test1.py` and `test2_sensor.py` are not part of this model. They only log over the SDK and print.
- `time.time()` is a parameter. The model uses two clocks:
  - the session-relative timestamp of line 101 (`sampleMs`);
  - the wall clock of lines 48 and 131 (`clockMs`).
- `robot.py` callbacks take the current time as `now`.
- Collector.RotationTracker.Update: time is kept in whole milliseconds. `round(time_taken, 3)` in seconds is therefore not modelled separately.
- Angles are exact reals. IEEE rounding, NaN and infinities are not modelled.
- TelemetryRecords.EscRecordShape: `str(sub_info)` in the ESC fallback is an opaque string parameter. Python's tuple formatting is not modelled.
- Tuple elements (`Value`) are numbers, strings or nested lists. Other Python objects are not modelled.
- Some sensor tuples are too short for the indices Position, Attitude and IMU read. In the source that raises `IndexError` inside the SDK's callback thread. The model signals it as `ok == false` with nothing appended.
- In `robot.py` a subscription briefly runs with the start time still 0 (lines 187-191), but its callback discards the data. Only the start time set at lines 196-198 matters to the records.
