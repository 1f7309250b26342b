/** The rotation-tracking state machine of test_1.py (lines 45-49 and
    110-142) as a function on values: one step per sample. The class in
    collector.dfy is proved to follow it; the lemmas here state what one step
    and a run of steps do. */
module Rotation {
  import opened Angles

  /** One entry of `rotation_times` (test_1.py lines 133-137). The duration is
      kept in whole milliseconds. */
  datatype RotationRecord = RotationRecord(rotationNumber: int, timeTakenMs: int, timestampMs: int)

  /** The module-level variables of test_1.py lines 45-49. */
  datatype TrackerState = TrackerState(
    yawOffset: real,          // current_yaw_offset
    lastYaw: real,            // last_recorded_yaw
    rotationCount: int,       // rotation_count
    lastRotationTime: int,    // last_rotation_time, clock milliseconds
    rotationTimes: seq<RotationRecord>)

  /** One sample given to the tracker: the raw chassis yaw, the sample's
      timestamp relative to the session start, and the wall-clock reading taken
      when a rotation is detected. */
  datatype Sample = Sample(rawYaw: real, sampleMs: int, clockMs: int)

  /** The state at module load: everything zero, the rotation clock started. */
  function Initial(startClockMs: int): TrackerState
  {
    TrackerState(0.0, 0.0, 0, startClockMs, [])
  }

  /** The corrected yaw difference of test_1.py lines 115-119. */
  function Delta(s: TrackerState, rawYaw: real): real
  {
    WrapDiff(Normalize(rawYaw) - s.lastYaw)
  }

  /** The offset after line 121, before any reduction. */
  function Accumulated(s: TrackerState, rawYaw: real): real
  {
    s.yawOffset + Delta(s, rawYaw)
  }

  /** Whether line 130 fires a rotation event for this sample. */
  predicate Fires(s: TrackerState, rawYaw: real)
  {
    var o := Accumulated(s, rawYaw);
    Abs(o) >= 360.0 && WholeTurns(o) > s.rotationCount
  }

  /** test_1.py lines 110-142: one pass of the rotation-tracking logic. */
  function Step(s: TrackerState, x: Sample): TrackerState
  {
    var z := Normalize(x.rawYaw);
    var o := Accumulated(s, x.rawYaw);
    if Abs(o) >= 360.0 then
      var count := WholeTurns(o);
      if count > s.rotationCount then
        TrackerState(ReduceOffset(o), z, count, x.clockMs,
                     s.rotationTimes + [RotationRecord(count, x.clockMs - s.lastRotationTime, x.sampleMs)])
      else
        s.(yawOffset := o, lastYaw := z, rotationCount := count)
    else
      s.(yawOffset := o, lastYaw := z)
  }

  /** The samples applied in order. */
  function Run(s: TrackerState, xs: seq<Sample>): TrackerState
  {
    if xs == [] then s else Step(Run(s, xs[..|xs| - 1]), xs[|xs| - 1])
  }

  /** What holds of the tracker after any number of samples. The count is
      re-derived from the offset whenever |offset| >= 360 (and otherwise left
      alone); the offset always names the direction of the last heading. */
  ghost predicate Inv(s: TrackerState)
  {
    && -180.0 <= s.lastYaw < 180.0
    && CongruentMod360(s.yawOffset, s.lastYaw)
    && s.rotationCount >= 0
    && (Abs(s.yawOffset) >= 360.0 ==> s.rotationCount == WholeTurns(s.yawOffset))
    && (forall i :: 0 <= i < |s.rotationTimes| ==> s.rotationTimes[i].rotationNumber >= 1)
  }

  lemma InitialInv(startClockMs: int)
    ensures Inv(Initial(startClockMs))
  {
    CongruentByTurns(0.0, 0.0, 0);
  }

  /** The normalised sample becomes last_recorded_yaw (line 122); it lies in
      [-180, 180) and names the raw yaw's direction (line 112). */
  lemma StepHeading(s: TrackerState, x: Sample)
    ensures Step(s, x).lastYaw == Normalize(x.rawYaw)
    ensures -180.0 <= Step(s, x).lastYaw < 180.0
    ensures CongruentMod360(Step(s, x).lastYaw, x.rawYaw)
  {
    NormalizeRange(x.rawYaw);
  }

  /** From a valid state the corrected difference is at most half a turn and
      is congruent to the plain difference z_normalized - last_recorded_yaw. */
  lemma DeltaBounded(s: TrackerState, rawYaw: real)
    requires -180.0 <= s.lastYaw < 180.0
    ensures -180.0 <= Delta(s, rawYaw) <= 180.0
    ensures CongruentMod360(Delta(s, rawYaw), Normalize(rawYaw) - s.lastYaw)
  {
    NormalizeRange(rawYaw);
    WrapDiffRange(Normalize(rawYaw) - s.lastYaw);
  }

  /** Below the threshold a step only accumulates the corrected difference and
      records the heading: count, events and rotation clock are unchanged. */
  lemma StepBelowThreshold(s: TrackerState, x: Sample)
    requires Abs(Accumulated(s, x.rawYaw)) < 360.0
    ensures Step(s, x) == s.(yawOffset := s.yawOffset + Delta(s, x.rawYaw), lastYaw := Normalize(x.rawYaw))
  {
  }

  /** At or above the threshold the count is overwritten by the whole turns in
      the pre-reset offset, whether or not an event fires. */
  lemma StepAtThreshold(s: TrackerState, x: Sample)
    requires Abs(Accumulated(s, x.rawYaw)) >= 360.0
    ensures Step(s, x).rotationCount == WholeTurns(Accumulated(s, x.rawYaw))
    ensures Step(s, x).rotationCount >= 1
  {
  }

  /** A record is appended exactly when the new count exceeds the old one, and
      then exactly one: numbered by the new count, timed from the previous
      event's clock reading, stamped with the sample time; the clock moves on. */
  lemma StepEvent(s: TrackerState, x: Sample)
    ensures |Step(s, x).rotationTimes| == |s.rotationTimes| + 1 <==> Fires(s, x.rawYaw)
    ensures !Fires(s, x.rawYaw) ==>
              Step(s, x).rotationTimes == s.rotationTimes
              && Step(s, x).lastRotationTime == s.lastRotationTime
              && Step(s, x).yawOffset == Accumulated(s, x.rawYaw)
    ensures Fires(s, x.rawYaw) ==>
              var n := WholeTurns(Accumulated(s, x.rawYaw));
              && Step(s, x).rotationTimes
                 == s.rotationTimes + [RotationRecord(n, x.clockMs - s.lastRotationTime, x.sampleMs)]
              && Step(s, x).rotationCount == n
              && Step(s, x).lastRotationTime == x.clockMs
  {
  }

  /** After an event the offset is brought into (-180, 180] without changing
      its direction. */
  lemma StepReducesOffset(s: TrackerState, x: Sample)
    requires Fires(s, x.rawYaw)
    ensures -180.0 < Step(s, x).yawOffset <= 180.0
    ensures CongruentMod360(Step(s, x).yawOffset, Accumulated(s, x.rawYaw))
  {
    ReduceOffsetRange(Accumulated(s, x.rawYaw));
  }

  /** Every step keeps the invariant. */
  lemma StepInv(s: TrackerState, x: Sample)
    requires Inv(s)
    ensures Inv(Step(s, x))
  {
    var z := Normalize(x.rawYaw);
    var o := Accumulated(s, x.rawYaw);
    var t := Step(s, x);
    DeltaBounded(s, x.rawYaw);
    NormalizeRange(x.rawYaw);
    // o ≡ s.lastYaw + (z - s.lastYaw) == z
    CongruentShift(s.yawOffset, s.lastYaw, Delta(s, x.rawYaw));
    CongruentShift(Delta(s, x.rawYaw), z - s.lastYaw, s.lastYaw);
    CongruentTransitive(o, s.lastYaw + Delta(s, x.rawYaw), z);
    if Fires(s, x.rawYaw) {
      ReduceOffsetRange(o);
      CongruentTransitive(t.yawOffset, o, z);
      assert t.rotationTimes[|t.rotationTimes| - 1].rotationNumber >= 1;
    }
  }

  /** The offset never exceeds the turns counted so far by a full turn. */
  lemma OffsetBelowNextTurn(s: TrackerState)
    requires Inv(s)
    ensures Abs(s.yawOffset) < 360.0 * (s.rotationCount + 1) as real
  {
  }

  lemma {:induction false} RunInv(s: TrackerState, xs: seq<Sample>)
    requires Inv(s)
    ensures Inv(Run(s, xs))
  {
    if xs != [] {
      RunInv(s, xs[..|xs| - 1]);
      StepInv(Run(s, xs[..|xs| - 1]), xs[|xs| - 1]);
    }
  }

  /** Events are only ever appended: earlier records are kept in order, and a
      run of n samples adds at most n records. */
  lemma {:induction false} RunKeepsEvents(s: TrackerState, xs: seq<Sample>)
    ensures |s.rotationTimes| <= |Run(s, xs).rotationTimes| <= |s.rotationTimes| + |xs|
    ensures Run(s, xs).rotationTimes[..|s.rotationTimes|] == s.rotationTimes
  {
    if xs != [] {
      var p := Run(s, xs[..|xs| - 1]);
      RunKeepsEvents(s, xs[..|xs| - 1]);
      StepEvent(p, xs[|xs| - 1]);
      if Fires(p, xs[|xs| - 1].rawYaw) {
        var r := Run(s, xs).rotationTimes;
        assert r[..|p.rotationTimes|] == p.rotationTimes;
        assert r[..|s.rotationTimes|] == r[..|p.rotationTimes|][..|s.rotationTimes|];
      }
    }
  }

  /** The yaws of a run, starting from the initial heading 0. */
  ghost predicate SmallTurns(xs: seq<Sample>)
  {
    && (|xs| > 0 ==> -180.0 < xs[0].rawYaw < 180.0)
    && (forall i :: 0 < i < |xs| ==> -180.0 < xs[i].rawYaw - xs[i - 1].rawYaw < 180.0)
  }

  /** Unwrapping: from the initial state, while consecutive raw yaws differ by
      less than half a turn and stay within one turn of the start, the
      accumulated offset is exactly the last raw yaw and no event fires. */
  lemma {:induction false} RunUnwraps(start: int, xs: seq<Sample>)
    requires SmallTurns(xs)
    requires forall i :: 0 <= i < |xs| ==> -360.0 < xs[i].rawYaw < 360.0
    ensures var z := if xs == [] then 0.0 else xs[|xs| - 1].rawYaw;
            Run(Initial(start), xs) == TrackerState(z, Normalize(z), 0, start, [])
  {
    if xs != [] {
      var ys := xs[..|xs| - 1];
      var x := xs[|xs| - 1];
      assert SmallTurns(ys);
      RunUnwraps(start, ys);
      var p := Run(Initial(start), ys);
      assert Normalize(0.0) == 0.0 by {
        CongruentByTurns(0.0, 0.0, 0);
        NormalizeUnique(0.0, 0.0);
      }
      if ys == [] {
        SmallTurnRecovered(0.0, x.rawYaw);
      } else {
        var a := ys[|ys| - 1].rawYaw;
        SmallTurnRecovered(a, x.rawYaw - a);
      }
      StepBelowThreshold(p, x);
    }
  }
}
