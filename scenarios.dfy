/** Concrete runs of the rotation tracker from its initial state, including
    two that show the count is not monotonic and that rotation numbers can
    repeat. Clock and sample times are arbitrary distinct values. */
module RotationScenarios {
  import opened Angles
  import opened Rotation

  /** Normalize(z) == h for a concrete pair, from the characterisation of Normalize. */
  lemma NormalizesTo(z: real, h: real, k: int)
    requires -180.0 <= h < 180.0
    requires h - z == 360.0 * k as real
    ensures Normalize(z) == h
  {
    CongruentByTurns(h, z, k);
    NormalizeUnique(z, h);
  }

  lemma RunSnoc(s: TrackerState, xs: seq<Sample>, x: Sample)
    ensures Run(s, xs + [x]) == Step(Run(s, xs), x)
  {
    assert (xs + [x])[..|xs|] == xs;
  }

  /** Headings 0, 90, 180, -90, 0: the offset reaches 360 on the last sample
      and exactly one event, number 1, is logged; the offset resets to 0. */
  lemma QuarterTurns()
    ensures var s := Run(Initial(0), [Sample(0.0, 1000, 1000), Sample(90.0, 2000, 2000),
                                      Sample(180.0, 3000, 3000), Sample(-90.0, 4000, 4000),
                                      Sample(0.0, 5000, 5000)]);
            && s.rotationTimes == [RotationRecord(1, 5000, 5000)]
            && s.rotationCount == 1
            && s.yawOffset == 0.0
  {
    NormalizesTo(0.0, 0.0, 0);
    NormalizesTo(90.0, 90.0, 0);
    NormalizesTo(180.0, -180.0, -1);
    NormalizesTo(-90.0, -90.0, 0);
    var xs := [Sample(0.0, 1000, 1000), Sample(90.0, 2000, 2000),
               Sample(180.0, 3000, 3000), Sample(-90.0, 4000, 4000),
               Sample(0.0, 5000, 5000)];
    var s0 := Initial(0);
    var s1 := Step(s0, xs[0]);
    assert s1 == TrackerState(0.0, 0.0, 0, 0, []);
    var s2 := Step(s1, xs[1]);
    assert s2 == TrackerState(90.0, 90.0, 0, 0, []);
    var s3 := Step(s2, xs[2]);
    assert s3 == TrackerState(180.0, -180.0, 0, 0, []);
    var s4 := Step(s3, xs[3]);
    assert s4 == TrackerState(270.0, -90.0, 0, 0, []);
    assert Accumulated(s4, 0.0) == 360.0;
    assert WholeTurns(360.0) == 1;
    assert PyMod(360.0, 360.0) == 0.0;
    assert xs[..1] == [] + [xs[0]];
    assert xs[..2] == xs[..1] + [xs[1]];
    assert xs[..3] == xs[..2] + [xs[2]];
    assert xs[..4] == xs[..3] + [xs[3]];
    RunSnoc(s0, [], xs[0]);
    RunSnoc(s0, xs[..1], xs[1]);
    RunSnoc(s0, xs[..2], xs[2]);
    RunSnoc(s0, xs[..3], xs[3]);
    RunSnoc(s0, xs[..4], xs[4]);
    assert xs[..4] + [xs[4]] == xs;
  }

  /** Two samples 0 then 5: no crossing, no event, count stays 0. */
  lemma SmallMove()
    ensures var s := Run(Initial(0), [Sample(0.0, 100, 100), Sample(5.0, 200, 200)]);
            && s.rotationTimes == []
            && s.rotationCount == 0
            && s.yawOffset == 5.0
  {
    RunUnwraps(0, [Sample(0.0, 100, 100), Sample(5.0, 200, 200)]);
  }

  /** A jump from normalised 170 to -170 is a turn of +20, not -340. */
  lemma WrapAcrossBoundary(s: TrackerState)
    requires s.lastYaw == 170.0
    ensures Delta(s, -170.0) == 20.0
  {
    NormalizesTo(-170.0, -170.0, 0);
  }

  /** Ten samples stepping -40 degrees: the offset reaches -360 on the ninth
      and one event is logged; the tenth leaves the offset at -40. */
  lemma ClockwiseSteps()
    ensures var s := Run(Initial(0), [Sample(-40.0, 1, 1), Sample(-80.0, 2, 2), Sample(-120.0, 3, 3),
                                      Sample(-160.0, 4, 4), Sample(-200.0, 5, 5), Sample(-240.0, 6, 6),
                                      Sample(-280.0, 7, 7), Sample(-320.0, 8, 8), Sample(-360.0, 9, 9),
                                      Sample(-400.0, 10, 10)]);
            && s.rotationTimes == [RotationRecord(1, 9, 9)]
            && s.rotationCount == 1
            && s.yawOffset == -40.0
  {
    var a := [Sample(-40.0, 1, 1), Sample(-80.0, 2, 2), Sample(-120.0, 3, 3),
              Sample(-160.0, 4, 4), Sample(-200.0, 5, 5), Sample(-240.0, 6, 6),
              Sample(-280.0, 7, 7), Sample(-320.0, 8, 8)];
    assert SmallTurns(a);
    RunUnwraps(0, a);
    var p := Run(Initial(0), a);
    SmallTurnRecovered(-320.0, -40.0);
    RunSnoc(Initial(0), a, Sample(-360.0, 9, 9));
    var q := Step(p, Sample(-360.0, 9, 9));
    assert Accumulated(p, -360.0) == -360.0;
    assert WholeTurns(-360.0) == 1;
    assert PyMod(-360.0, 360.0) == 0.0;
    assert q == TrackerState(0.0, Normalize(-360.0), 1, 9, [RotationRecord(1, 9, 9)]);
    SmallTurnRecovered(-360.0, -40.0);
    assert Accumulated(q, -400.0) == -40.0;
    RunSnoc(Initial(0), a + [Sample(-360.0, 9, 9)], Sample(-400.0, 10, 10));
    assert a + [Sample(-360.0, 9, 9)] + [Sample(-400.0, 10, 10)]
        == [Sample(-40.0, 1, 1), Sample(-80.0, 2, 2), Sample(-120.0, 3, 3),
            Sample(-160.0, 4, 4), Sample(-200.0, 5, 5), Sample(-240.0, 6, 6),
            Sample(-280.0, 7, 7), Sample(-320.0, 8, 8), Sample(-360.0, 9, 9),
            Sample(-400.0, 10, 10)];
  }
}

/** A robot spinning steadily, one sample every 120 degrees, as logged by the
    tracker: the count falls back from 2 to 1 at the twelfth sample and the
    fifteenth logs rotation number 2 a second time. */
module SpinTrace {
  import opened Angles
  import opened Rotation
  import opened RotationScenarios

  /** Samples at 120, 240, ..., 120 n degrees; sample k is taken at time k. */
  function Spin(n: nat): seq<Sample>
  {
    if n == 0 then [] else Spin(n - 1) + [Sample(120.0 * n as real, n, n)]
  }

  /** The tracker state after Spin(n), written out sample by sample. */
  function Expected(n: nat): TrackerState
    requires n <= 15
  {
    var z := Normalize(120.0 * n as real);
    var first := [RotationRecord(1, 3, 3)];
    var second := first + [RotationRecord(2, 6, 9)];
    if n < 3 then TrackerState(120.0 * n as real, z, 0, 0, [])
    else if n < 9 then TrackerState(120.0 * (n - 3) as real, z, 1, 3, first)
    else if n < 12 then TrackerState(120.0 * (n - 9) as real, z, 2, 9, second)
    else if n < 15 then TrackerState(120.0 * (n - 9) as real, z, 1, 9, second)
    else TrackerState(0.0, z, 2, 15, second + [RotationRecord(2, 6, 15)])
  }

  /** Turning on by 120 degrees from any heading adds exactly 120 to the offset. */
  lemma Advance(s: TrackerState, k: nat)
    requires s.lastYaw == Normalize(120.0 * k as real)
    ensures Accumulated(s, 120.0 * (k + 1) as real) == s.yawOffset + 120.0
  {
    SmallTurnRecovered(120.0 * k as real, 120.0);
  }

  /** The state after Spin(n), one Step at a time. */
  function SpinState(n: nat): TrackerState
  {
    if n == 0 then Initial(0) else Step(SpinState(n - 1), Sample(120.0 * n as real, n, n))
  }

  lemma {:induction false} RunSpin(n: nat)
    ensures Run(Initial(0), Spin(n)) == SpinState(n)
  {
    if n > 0 {
      RunSpin(n - 1);
      RunSnoc(Initial(0), Spin(n - 1), Sample(120.0 * n as real, n, n));
    }
  }

  lemma {:induction false} SpinFollowsExpected(n: nat)
    requires n <= 15
    ensures SpinState(n) == Expected(n)
  {
    if n == 0 {
      ExpectedStart();
    } else {
      SpinFollowsExpected(n - 1);
      ExpectedStep(n);
    }
  }

  lemma ExpectedStart()
    ensures Expected(0) == Initial(0)
  {
    NormalizesTo(0.0, 0.0, 0);
  }

  /** Each table row follows from the previous one by one Step. */
  lemma ExpectedStep(n: nat)
    requires 1 <= n <= 15
    ensures Step(Expected(n - 1), Sample(120.0 * n as real, n, n)) == Expected(n)
  {
    ExpectedHeading(n - 1);
    Advance(Expected(n - 1), n - 1);
    SpinStep(n, Expected(n - 1), Sample(120.0 * n as real, n, n));
  }

  lemma ExpectedHeading(n: nat)
    requires n <= 15
    ensures Expected(n).lastYaw == Normalize(120.0 * n as real)
  {
  }

  /** The one step from Expected(n - 1) to Expected(n), by regime. */
  lemma SpinStep(n: nat, p: TrackerState, x: Sample)
    requires 1 <= n <= 15
    requires p == Expected(n - 1)
    requires x == Sample(120.0 * n as real, n, n)
    requires Accumulated(p, x.rawYaw) == p.yawOffset + 120.0
    ensures Step(p, x) == Expected(n)
  {
    var o := p.yawOffset + 120.0;
    if n == 3 || n == 15 {
      assert WholeTurns(360.0) == 1;
      assert PyMod(360.0, 360.0) == 0.0;
      assert WholeTurns(720.0) == 2;
      assert PyMod(720.0, 360.0) == 0.0;
    } else if n == 9 {
      assert o == 720.0;
      assert WholeTurns(720.0) == 2;
      assert PyMod(720.0, 360.0) == 0.0;
    } else if 6 <= n < 9 || 12 <= n < 15 {
      assert 360.0 <= o < 720.0;
      assert WholeTurns(o) == 1;
    } else {
      assert Abs(o) < 360.0;
    }
  }

  /** The count is overwritten from the residual offset: after the second
      event it falls from 2 back to 1 without any event. */
  lemma CountFallsBack()
    ensures Run(Initial(0), Spin(11)).rotationCount == 2
    ensures Run(Initial(0), Spin(12)).rotationCount == 1
    ensures Run(Initial(0), Spin(12)).rotationTimes == Run(Initial(0), Spin(11)).rotationTimes
  {
    RunSpin(11);
    RunSpin(12);
    SpinFollowsExpected(11);
    SpinFollowsExpected(12);
  }

  /** After the first event the next needs |offset| >= 720, and the same
      rotation number can be logged twice. */
  lemma RotationNumberRepeats()
    ensures Run(Initial(0), Spin(15)).rotationTimes
            == [RotationRecord(1, 3, 3), RotationRecord(2, 6, 9), RotationRecord(2, 6, 15)]
  {
    RunSpin(15);
    SpinFollowsExpected(15);
  }
}
