/**
 * The orientation arithmetic of the verify endpoint: Euler angles to a unit
 * quaternion, and the angle between two quaternions through a clamped dot
 * product.
 *
 * Cosine, sine and arc cosine are not definable over Dafny's reals, so they
 * are passed in as a `Trig` record of functions. The predicates below state
 * the facts about them that the proofs rely on; the real functions satisfy
 * all of them. Floating-point rounding is not modelled: the arithmetic is
 * exact.
 */
module Geometry {

  /**
   * `Math.PI` as the source writes it: the shortest decimal that rounds to the
   * double nearest to pi. It is slightly below pi itself.
   */
  const Pi: real := 3.141592653589793

  /** Three Euler angles in radians, as sent by the client and stored per session. */
  datatype Rotation = Rotation(x: real, y: real, z: real)

  datatype Quaternion = Quaternion(w: real, x: real, y: real, z: real)

  /** The transcendental functions the source takes from `Math`. */
  datatype Trig = Trig(cos: real -> real, sin: real -> real, acos: real -> real)

  /** Cosine and sine lie on the unit circle. */
  ghost predicate UnitCircle(t: Trig) {
    forall a :: t.cos(a) * t.cos(a) + t.sin(a) * t.sin(a) == 1.0
  }

  /** The unit-circle law, and an arc cosine that maps 1 to 0. */
  ghost predicate Sane(t: Trig) {
    UnitCircle(t) && t.acos(1.0) == 0.0
  }

  /**
   * On [0, 1] the arc cosine is non-negative and at most its value at 0,
   * which is pi/2 for the real function.
   */
  ghost predicate AcosInRange(t: Trig) {
    forall v :: 0.0 <= v <= 1.0 ==> 0.0 <= t.acos(v) <= t.acos(0.0)
  }

  function Dot(p: Quaternion, q: Quaternion): real {
    p.w * q.w + p.x * q.x + p.y * q.y + p.z * q.z
  }

  function Abs(r: real): (a: real)
    ensures a >= 0.0 && (a == r || a == -r)
  {
    if r < 0.0 then -r else r
  }

  /** The quaternion of Euler angles (x, y, z), from half-angle cosines and sines. */
  function EulerToQuaternion(t: Trig, r: Rotation): (q: Quaternion)
    ensures UnitCircle(t) ==> Dot(q, q) == 1.0
  {
    var c1, c2, c3 := t.cos(r.x / 2.0), t.cos(r.y / 2.0), t.cos(r.z / 2.0);
    var s1, s2, s3 := t.sin(r.x / 2.0), t.sin(r.y / 2.0), t.sin(r.z / 2.0);
    HalfAnglesGiveUnitQuaternion(c1, s1, c2, s2, c3, s3);
    Quaternion(
      c1 * c2 * c3 + s1 * s2 * s3,
      s1 * c2 * c3 - c1 * s2 * s3,
      c1 * s2 * c3 + s1 * c2 * s3,
      c1 * c2 * s3 - s1 * s2 * c3)
  }

  /** The absolute dot product, clamped so that rounding above 1 cannot reach acos. */
  function ClampedDot(p: Quaternion, q: Quaternion): (c: real)
    ensures 0.0 <= c <= 1.0
    ensures c == 1.0 <==> Abs(Dot(p, q)) >= 1.0
    ensures c < 1.0 ==> c == Abs(Dot(p, q))
  {
    var d := Abs(Dot(p, q));
    if d < 1.0 then d else 1.0
  }

  /**
   * The rotation angle, in radians, that takes one orientation to the other:
   * at most twice acos(0), which is pi for the real arc cosine.
   */
  function Angle(t: Trig, p: Quaternion, q: Quaternion): (a: real)
    ensures AcosInRange(t) ==> 0.0 <= a <= 2.0 * t.acos(0.0)
  {
    2.0 * t.acos(ClampedDot(p, q))
  }

  /**
   * The scoring error of the verify endpoint: the angle between target and
   * answer, in degrees. Its bound is 180 scaled by acos(0) / (Pi / 2), which
   * for the real arc cosine is a hair above 180 because `Pi` is below pi.
   */
  function ErrorDegrees(t: Trig, target: Rotation, answer: Rotation): (deg: real)
    ensures AcosInRange(t) ==> 0.0 <= deg <= 2.0 * t.acos(0.0) * 180.0 / Pi
  {
    Angle(t, EulerToQuaternion(t, target), EulerToQuaternion(t, answer)) * 180.0 / Pi
  }

  /** The two-square identity, (ca + sb)^2 + (sa - cb)^2 = (c^2 + s^2)(a^2 + b^2), for c^2 + s^2 = 1. */
  lemma TwoSquares(c: real, s: real, a: real, b: real)
    requires c * c + s * s == 1.0
    ensures (c * a + s * b) * (c * a + s * b) + (s * a - c * b) * (s * a - c * b) == a * a + b * b
    ensures (c * a + s * b) * (c * a + s * b) + (c * b - s * a) * (c * b - s * a) == a * a + b * b
  {
    assert (c * a + s * b) * (c * a + s * b) + (s * a - c * b) * (s * a - c * b)
        == (c * c + s * s) * (a * a + b * b);
  }

  lemma SumOfProducts(c: real, s: real, c': real, s': real)
    requires c * c + s * s == 1.0 && c' * c' + s' * s' == 1.0
    ensures (c * c') * (c * c') + (s * s') * (s * s') + (s * c') * (s * c') + (c * s') * (c * s') == 1.0
  {
    assert (c * c') * (c * c') + (s * s') * (s * s') + (s * c') * (s * c') + (c * s') * (c * s')
        == (c * c + s * s) * (c' * c' + s' * s');
  }

  /** Rotating a unit pair (a, b, c, d) by a unit half-angle (c1, s1) keeps it a unit quaternion. */
  lemma UnitTimesUnit(c1: real, s1: real, a: real, b: real, c: real, d: real)
    requires c1 * c1 + s1 * s1 == 1.0 && a * a + b * b + c * c + d * d == 1.0
    ensures var q := Quaternion(c1 * a + s1 * b, s1 * a - c1 * b, c1 * c + s1 * d, c1 * d - s1 * c);
            Dot(q, q) == 1.0
  {
    TwoSquares(c1, s1, a, b);
    TwoSquares(c1, s1, c, d);
  }

  /** Half-angle cosines and sines on the unit circle give a unit quaternion. */
  lemma HalfAnglesGiveUnitQuaternion(c1: real, s1: real, c2: real, s2: real, c3: real, s3: real)
    ensures c1 * c1 + s1 * s1 == 1.0 && c2 * c2 + s2 * s2 == 1.0 && c3 * c3 + s3 * s3 == 1.0 ==>
            var q := Quaternion(
              c1 * c2 * c3 + s1 * s2 * s3,
              s1 * c2 * c3 - c1 * s2 * s3,
              c1 * s2 * c3 + s1 * c2 * s3,
              c1 * c2 * s3 - s1 * s2 * c3);
            Dot(q, q) == 1.0
  {
    if c1 * c1 + s1 * s1 == 1.0 && c2 * c2 + s2 * s2 == 1.0 && c3 * c3 + s3 * s3 == 1.0 {
      SumOfProducts(c2, s2, c3, s3);
      UnitTimesUnit(c1, s1, c2 * c3, s2 * s3, s2 * c3, c2 * s3);
    }
  }

  /** The angle between two orientations does not depend on which one is the target. */
  lemma ErrorDegreesSymmetric(t: Trig, target: Rotation, answer: Rotation)
    ensures ErrorDegrees(t, target, answer) == ErrorDegrees(t, answer, target)
  {
    var p, q := EulerToQuaternion(t, target), EulerToQuaternion(t, answer);
    assert Dot(p, q) == Dot(q, p);
  }

  /** Submitting exactly the target orientation scores an error of zero degrees. */
  lemma ExactAnswerScoresZero(t: Trig, r: Rotation)
    requires Sane(t)
    ensures ErrorDegrees(t, r, r) == 0.0
  {
    var q := EulerToQuaternion(t, r);
    assert ClampedDot(q, q) == 1.0;
  }
}
