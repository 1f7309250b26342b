/** Angle arithmetic used by the rotation tracker in test_1.py: Python's
    floor-modulo and floor-division on floats, heading normalisation into
    [-180, 180), the short-way-round correction of a heading difference and
    the reduction of the accumulated offset after a detected revolution.
    Angles are degrees, modelled as `real` (IEEE rounding is not modelled). */
module Angles {

  function Abs(x: real): (r: real)
    ensures r >= 0.0
    ensures r == x || r == -x
  {
    if x < 0.0 then -x else x
  }

  /** Python's `x // m` for a positive divisor: the largest integer not above x / m. */
  function FloorDiv(x: real, m: real): (q: int)
    requires m > 0.0
    ensures (q as real) * m <= x < (q as real) * m + m
  {
    var y := x / m;
    DivMul(x, m);
    MulMonotone(y.Floor as real, y, m);
    MulStrict(y, y.Floor as real + 1.0, m);
    y.Floor
  }

  /** Python's `x % m` for a positive divisor: the result takes the sign of the
      divisor, so it lies in [0, m), and x == m * (x // m) + x % m. */
  function PyMod(x: real, m: real): (r: real)
    requires m > 0.0
    ensures 0.0 <= r < m
    ensures x == (FloorDiv(x, m) as real) * m + r
  {
    x - (FloorDiv(x, m) as real) * m
  }

  lemma DivMul(x: real, m: real)
    requires m > 0.0
    ensures (x / m) * m == x
  {
  }

  lemma MulMonotone(a: real, b: real, m: real)
    requires a <= b && m > 0.0
    ensures a * m <= b * m
  {
  }

  lemma MulStrict(a: real, b: real, m: real)
    requires a < b && m > 0.0
    ensures a * m < b * m
  {
  }

  /** a and b name the same direction: they differ by a whole number of turns. */
  predicate CongruentMod360(a: real, b: real)
  {
    ((a - b) / 360.0).Floor as real == (a - b) / 360.0
  }

  /** The explicit form of congruence: a differs from b by k whole turns. */
  lemma CongruentByTurns(a: real, b: real, k: int)
    requires a - b == 360.0 * k as real
    ensures CongruentMod360(a, b)
  {
    assert (a - b) / 360.0 == k as real;
  }

  lemma CongruentTurns(a: real, b: real) returns (k: int)
    requires CongruentMod360(a, b)
    ensures a - b == 360.0 * k as real
  {
    k := ((a - b) / 360.0).Floor;
  }

  lemma CongruentSymmetric(a: real, b: real)
    requires CongruentMod360(a, b)
    ensures CongruentMod360(b, a)
  {
    var k := CongruentTurns(a, b);
    CongruentByTurns(b, a, -k);
  }

  lemma CongruentTransitive(a: real, b: real, c: real)
    requires CongruentMod360(a, b) && CongruentMod360(b, c)
    ensures CongruentMod360(a, c)
  {
    var k := CongruentTurns(a, b);
    var l := CongruentTurns(b, c);
    CongruentByTurns(a, c, k + l);
  }

  /** Adding the same amount to both sides keeps two directions congruent. */
  lemma CongruentShift(a: real, b: real, c: real)
    requires CongruentMod360(a, b)
    ensures CongruentMod360(a + c, b + c)
  {
    var k := CongruentTurns(a, b);
    CongruentByTurns(a + c, b + c, k);
  }

  /** Two congruent values strictly less than one turn apart are equal. */
  lemma CongruentClose(a: real, b: real)
    requires CongruentMod360(a, b)
    requires -360.0 < a - b < 360.0
    ensures a == b
  {
    var k := CongruentTurns(a, b);
  }

  lemma PyMod360Congruent(x: real)
    ensures CongruentMod360(PyMod(x, 360.0), x)
  {
    CongruentByTurns(PyMod(x, 360.0), x, -FloorDiv(x, 360.0));
  }

  /** PyMod(x, 360) is the only value in [0, 360) congruent to x. */
  lemma PyMod360Unique(x: real, r: real)
    requires 0.0 <= r < 360.0
    requires CongruentMod360(r, x)
    ensures r == PyMod(x, 360.0)
  {
    PyMod360Congruent(x);
    CongruentSymmetric(PyMod(x, 360.0), x);
    CongruentTransitive(r, x, PyMod(x, 360.0));
    CongruentClose(r, PyMod(x, 360.0));
  }

  /** test_1.py line 112: `(z + 180) % 360 - 180`. */
  function Normalize(z: real): real
  {
    PyMod(z + 180.0, 360.0) - 180.0
  }

  /** A normalised heading lies in [-180, 180) and names the same direction as z. */
  lemma NormalizeRange(z: real)
    ensures -180.0 <= Normalize(z) < 180.0
    ensures CongruentMod360(Normalize(z), z)
  {
    PyMod360Congruent(z + 180.0);
    CongruentShift(PyMod(z + 180.0, 360.0), z + 180.0, -180.0);
  }

  /** Normalize is characterised by its range and congruence: any h in
      [-180, 180) congruent to z is Normalize(z). */
  lemma {:induction false} NormalizeUnique(z: real, h: real)
    requires -180.0 <= h < 180.0
    requires CongruentMod360(h, z)
    ensures h == Normalize(z)
  {
    CongruentShift(h, z, 180.0);
    PyMod360Unique(z + 180.0, h + 180.0);
  }

  lemma NormalizeIdempotent(z: real)
    ensures Normalize(Normalize(z)) == Normalize(z)
  {
    NormalizeRange(z);
    NormalizeRange(Normalize(z));
    CongruentTransitive(Normalize(Normalize(z)), Normalize(z), z);
    NormalizeRange(z);
    NormalizeUnique(z, Normalize(Normalize(z)));
  }

  /** The boundary case of line 112: a raw 180 becomes -180. */
  lemma NormalizeHalfTurn()
    ensures Normalize(180.0) == -180.0
  {
    NormalizeUnique(180.0, -180.0) by {
      CongruentByTurns(-180.0, 180.0, -1);
    }
  }

  /** test_1.py lines 116-119: turn a heading difference the short way round. */
  function WrapDiff(d: real): real
  {
    if d > 180.0 then d - 360.0
    else if d < -180.0 then d + 360.0
    else d
  }

  /** For the difference of two normalised headings the corrected difference
      lies in [-180, 180] and names the same rotation modulo a turn. */
  lemma WrapDiffRange(d: real)
    requires -360.0 < d < 360.0
    ensures -180.0 <= WrapDiff(d) <= 180.0
    ensures CongruentMod360(WrapDiff(d), d)
  {
    if d > 180.0 {
      CongruentByTurns(d - 360.0, d, -1);
    } else if d < -180.0 {
      CongruentByTurns(d + 360.0, d, 1);
    } else {
      CongruentByTurns(d, d, 0);
    }
  }

  /** The corrected difference is a shortest representative: no other
      rotation equivalent to d is smaller in magnitude. */
  lemma WrapDiffShortest(d: real, k: int)
    requires -360.0 < d < 360.0
    ensures Abs(WrapDiff(d)) <= Abs(d + 360.0 * k as real)
  {
  }

  /** Unwrapping recovers any turn of less than half a revolution between two
      samples, whatever the raw headings and wherever the wrap-around falls. */
  lemma SmallTurnRecovered(a: real, delta: real)
    requires -180.0 < delta < 180.0
    ensures WrapDiff(Normalize(a + delta) - Normalize(a)) == delta
  {
    var d := Normalize(a + delta) - Normalize(a);
    NormalizeRange(a);
    NormalizeRange(a + delta);
    WrapDiffRange(d);
    // WrapDiff(d) ≡ d ≡ (a + delta) - a == delta
    CongruentSymmetric(Normalize(a), a);
    var k := CongruentTurns(Normalize(a + delta), a + delta);
    var l := CongruentTurns(a, Normalize(a));
    CongruentByTurns(d, delta, k + l);
    CongruentTransitive(WrapDiff(d), d, delta);
    if WrapDiff(d) == 180.0 || WrapDiff(d) == -180.0 {
      var m := CongruentTurns(WrapDiff(d), delta);
    } else {
      CongruentClose(WrapDiff(d), delta);
    }
  }

  /** test_1.py lines 141-142: `o % 360`, then minus 360 when above 180. */
  function ReduceOffset(o: real): real
  {
    var r := PyMod(o, 360.0);
    if r > 180.0 then r - 360.0 else r
  }

  /** The reduced offset lies in (-180, 180] and names the same direction. */
  lemma ReduceOffsetRange(o: real)
    ensures -180.0 < ReduceOffset(o) <= 180.0
    ensures CongruentMod360(ReduceOffset(o), o)
  {
    var r := PyMod(o, 360.0);
    PyMod360Congruent(o);
    if r > 180.0 {
      CongruentByTurns(r - 360.0, r, -1);
      CongruentTransitive(r - 360.0, r, o);
    }
  }

  /** test_1.py line 127: `int(abs(o) // 360)`, the number of whole turns in |o|. */
  function WholeTurns(o: real): (n: nat)
    ensures (n as real) * 360.0 <= Abs(o) < (n as real) * 360.0 + 360.0
  {
    FloorDiv(Abs(o), 360.0)
  }
}
