/**
 * CoreMedia time as the app uses it, and the app-wide Collab limits
 * (OpenCollab/Sources/Util/Extensions.swift).
 *
 * Every CMTime of the core is created at timescale 600, so a time is an
 * integer number of 1/600 s ticks. `.positiveInfinity` only ever appears as
 * an upper bound, so it is a separate `Limit` value.
 */
module Extensions {
  /** A CMTime, in ticks of 1/600 s. */
  type Time = int

  const Timescale: int := 600
  const Zero: Time := 0

  /** A CMTime that may be `.positiveInfinity`. */
  datatype Limit = Finite(ticks: Time) | PositiveInfinity

  /** `CMTimeCompare(a, l) < 0`: every finite time lies below infinity. */
  predicate Below(t: Time, l: Limit)
  {
    match l
    case Finite(x) => t < x
    case PositiveInfinity => true
  }

  /** `CMTimeCompare(a, l) <= 0`. */
  predicate AtOrBelow(t: Time, l: Limit)
  {
    match l
    case Finite(x) => t <= x
    case PositiveInfinity => true
  }

  /** `CMTimeCompare`: -1, 0 or 1. */
  function Compare(a: Time, b: Time): (c: int)
    ensures c == -1 <==> a < b
    ensures c == 0 <==> a == b
    ensures c == 1 <==> a > b
  {
    if a < b then -1 else if a == b then 0 else 1
  }

  function Max(a: Time, b: Time): Time { if a < b then b else a }
  function Min(a: Time, b: Time): Time { if a < b then a else b }

  /** `CMTime.absoluteDifference(other:)`: the larger time minus the smaller. */
  function AbsoluteDifference(t: Time, other: Time): (r: Time)
    ensures r >= 0
    ensures r == Max(t, other) - Min(t, other)
  {
    if Compare(t, other) == -1 then other - t else t - other
  }

  lemma AbsoluteDifferenceSymmetric(a: Time, b: Time)
    ensures AbsoluteDifference(a, b) == AbsoluteDifference(b, a)
  {
  }

  lemma AbsoluteDifferenceZeroIffEqual(a: Time, b: Time)
    ensures AbsoluteDifference(a, b) == 0 <==> a == b
  {
  }

  /** `Collab.Constants` and the fragment limits derived from them. */
  const FrameRate: int := 600
  const DefaultMaxFragmentDurationInSeconds: int := 15
  const LongerMaxFragmentDurationInSeconds: int := 25
  const MinClipsPerCollab: nat := 1

  /** `CMTimeMakeWithSeconds(3, preferredTimescale: 600)`. */
  const CollabMinFragmentDuration: Time := 3 * Timescale
  /** `maxFragmentDuration` uses the longer 25 s limit. */
  const CollabMaxFragmentDuration: Time := LongerMaxFragmentDurationInSeconds * FrameRate

  lemma CollabLimits()
    ensures CollabMinFragmentDuration == 1800 && CollabMaxFragmentDuration == 15000
    ensures CollabMinFragmentDuration < CollabMaxFragmentDuration
    ensures MinClipsPerCollab == 1
  {
  }

  /** Swift's `%` on integers: the remainder takes the sign of the dividend, and a zero divisor traps. */
  function TruncatingRemainder(a: int, b: int): (r: int)
    requires b != 0
    ensures a >= 0 ==> 0 <= r < Abs(b) && r == a % Abs(b)
    ensures a < 0 ==> -Abs(b) < r <= 0 && r == -((-a) % Abs(b))
  {
    if a >= 0 then a % Abs(b) else -((-a) % Abs(b))
  }

  /** `Int(x)` of a floating-point value: the integer part, rounded toward zero. */
  function TruncateToInt(x: real): (n: int)
    ensures x >= 0.0 ==> n >= 0 && n as real <= x < n as real + 1.0
    ensures x < 0.0 ==> n <= 0 && n as real - 1.0 < x <= n as real
  {
    if x >= 0.0 then x.Floor else -((-x).Floor)
  }

  /** `round(x)`: the nearest integer, halfway cases away from zero. */
  function RoundToInt(x: real): (n: int)
    ensures x >= 0.0 ==> n >= 0 && x - 0.5 < n as real <= x + 0.5
    ensures x < 0.0 ==> n <= 0 && x - 0.5 <= n as real < x + 0.5
  {
    if x >= 0.0 then (x + 0.5).Floor else -((-x + 0.5).Floor)
  }

  function Abs(b: int): (m: int)
    ensures m >= 0 && (m == b || m == -b)
  {
    if b < 0 then -b else b
  }

  /** A larger multiplier gives a product at least one multiple larger. */
  lemma {:induction false} MulGap(a: int, b: int, d: int)
    requires a > b && d > 0
    ensures a * d >= b * d + d
    decreases a - b
  {
    if a > b + 1 {
      MulGap(a - 1, b, d);
      assert a * d == (a - 1) * d + d;
    } else {
      assert a * d == b * d + d;
    }
  }

  /** Euclidean division has one quotient and one remainder. */
  lemma ModUnique(x: int, d: int, q: int, r: int)
    requires d > 0 && x == q * d + r && 0 <= r < d
    ensures x / d == q && x % d == r
  {
    var q0 := x / d;
    var r0 := x % d;
    assert x == q0 * d + r0;
    if q0 > q {
      MulGap(q0, q, d);
      assert false;
    } else if q0 < q {
      MulGap(q, q0, d);
      assert false;
    }
  }
}
