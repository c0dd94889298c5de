/**
 * Reduction of the badge's rotation angle (degrees, any real) into the half
 * turn [0, 180), the way the animator's step does it: JavaScript's `%`, whose
 * quotient is truncated toward zero, followed by adding 180 to a negative
 * remainder.
 */
module Angle {

  /** Half a turn, in degrees: the period of the two rest orientations. */
  const HalfTurn: real := 180.0

  /** Truncation toward zero: the integer quotient JavaScript's `%` uses. */
  function Trunc(x: real): (n: int)
    ensures 0.0 <= x ==> 0 <= n && n as real <= x < n as real + 1.0
    ensures x < 0.0 ==> n <= 0 && n as real - 1.0 < x <= n as real
  {
    if x >= 0.0 then x.Floor else -((-x).Floor)
  }

  /** `a` and `b` differ by a whole number of half turns. */
  predicate SameHalfTurnClass(a: real, b: real)
  {
    ((a - b) / HalfTurn).Floor as real == (a - b) / HalfTurn
  }

  /** `angle % 180` with JavaScript semantics: the remainder keeps the sign of the dividend. */
  function JsRemainder(angle: real): (r: real)
    ensures 0.0 <= angle ==> 0.0 <= r < HalfTurn
    ensures angle < 0.0 ==> -HalfTurn < r <= 0.0
    ensures SameHalfTurnClass(angle, r)
  {
    var q := Trunc(angle / HalfTurn);
    assert (angle - (angle - HalfTurn * q as real)) / HalfTurn == q as real;
    angle - HalfTurn * q as real
  }

  /** The step's `positiveRemainder`: the remainder moved into [0, 180). */
  function PositiveRemainder(angle: real): (p: real)
    ensures 0.0 <= p < HalfTurn
    ensures SameHalfTurnClass(angle, p)
  {
    var remainder := JsRemainder(angle);
    var k := ((angle - remainder) / HalfTurn).Floor;
    assert angle - remainder == HalfTurn * k as real;
    assert (angle - (remainder + HalfTurn)) / HalfTurn == (k - 1) as real;
    if remainder < 0.0 then remainder + HalfTurn else remainder
  }

  /** Within one half turn, a class has a single representative. */
  lemma {:induction false} HalfTurnClassUnique(a: real, p: real, q: real)
    requires 0.0 <= p < HalfTurn && 0.0 <= q < HalfTurn
    requires SameHalfTurnClass(a, p) && SameHalfTurnClass(a, q)
    ensures p == q
  {
    var m := ((a - p) / HalfTurn).Floor;
    var n := ((a - q) / HalfTurn).Floor;
    assert a - p == HalfTurn * m as real;
    assert a - q == HalfTurn * n as real;
    assert q - p == HalfTurn * (m - n) as real;
    assert -1 < m - n < 1;
  }

  /** `positiveRemainder` is the only value of [0, 180) that differs from the angle by whole half turns. */
  lemma PositiveRemainderUnique(angle: real, q: real)
    requires 0.0 <= q < HalfTurn
    requires SameHalfTurnClass(angle, q)
    ensures q == PositiveRemainder(angle)
  {
    HalfTurnClassUnique(angle, q, PositiveRemainder(angle));
  }

  /** Truncating remainder plus the sign fix-up is the floored modulo. */
  lemma PositiveRemainderIsFloorMod(angle: real)
    ensures PositiveRemainder(angle) == angle - HalfTurn * (angle / HalfTurn).Floor as real
  {
    var f := (angle / HalfTurn).Floor;
    var q := angle - HalfTurn * f as real;
    assert (angle - q) / HalfTurn == f as real;
    PositiveRemainderUnique(angle, q);
  }

  /** Shifting an angle by whole half turns keeps it in the same class. */
  lemma SameHalfTurnClassShift(a: real, p: real, k: int)
    requires SameHalfTurnClass(a, p)
    ensures SameHalfTurnClass(a + HalfTurn * k as real, p)
  {
    var n := ((a - p) / HalfTurn).Floor;
    assert a - p == HalfTurn * n as real;
    assert (a + HalfTurn * k as real - p) / HalfTurn == (n + k) as real;
  }

  /** Adding whole half turns to the angle does not change `positiveRemainder`. */
  lemma PositiveRemainderPeriodic(angle: real, k: int)
    ensures PositiveRemainder(angle + HalfTurn * k as real) == PositiveRemainder(angle)
  {
    var p := PositiveRemainder(angle);
    SameHalfTurnClassShift(angle, p, k);
    PositiveRemainderUnique(angle + HalfTurn * k as real, p);
  }

  /** An angle already in [0, 180) is left as it is. */
  lemma PositiveRemainderOfHalfTurn(angle: real)
    requires 0.0 <= angle < HalfTurn
    ensures PositiveRemainder(angle) == angle
  {
    assert (angle - angle) / HalfTurn == 0.0;
    PositiveRemainderUnique(angle, angle);
  }

  /** JavaScript's `%` keeps the dividend's sign; the fix-up then lands in [0, 180). */
  lemma RemainderExamples()
    ensures JsRemainder(370.0) == 10.0 && PositiveRemainder(370.0) == 10.0
    ensures JsRemainder(-10.0) == -10.0 && PositiveRemainder(-10.0) == 170.0
    ensures JsRemainder(-190.0) == -10.0 && PositiveRemainder(-190.0) == 170.0
    ensures JsRemainder(-180.0) == 0.0 && PositiveRemainder(-180.0) == 0.0
  {
  }
}
