/**
 * The player's heading arithmetic: target headings on multiples of 90
 * degrees, and the per-frame smoothing of the current yaw toward the
 * target (normalise the difference into [-180, 180), cap it at the
 * rotation speed times the frame time). Angles and times are exact reals.
 */
module Angles {

  /** Maximum rotation rate, degrees per second. */
  const RotationSpeed: real := 360.0

  function Abs(x: real): real {
    if x < 0.0 then -x else x
  }

  /** Math.sign. */
  function Sign(x: real): real {
    if x > 0.0 then 1.0 else if x < 0.0 then -1.0 else 0.0
  }

  function Min(a: real, b: real): real {
    if a <= b then a else b
  }

  function Max(a: real, b: real): real {
    if a >= b then a else b
  }

  // ---------------------------------------------------------------------
  // Target headings

  /**
   * Math.round(a / 90) * 90: the multiple of 90 nearest to a, a half
   * rounded up (toward +infinity) as Math.round does.
   */
  function NormalizeAngle(a: int): (r: int)
    ensures r % 90 == 0
    ensures -45 < r - a <= 45
    ensures a % 90 == 0 ==> r == a
  {
    ((2 * a + 90) / 180) * 90
  }

  /** A left turn of the target heading: +90 degrees, rounded to a multiple of 90. */
  function TurnLeftAngle(t: int): (r: int)
    ensures r % 90 == 0
    ensures t % 90 == 0 ==> r == t + 90
  {
    NormalizeAngle(t + 90)
  }

  /** A right turn of the target heading: -90 degrees, rounded to a multiple of 90. */
  function TurnRightAngle(t: int): (r: int)
    ensures r % 90 == 0
    ensures t % 90 == 0 ==> r == t - 90
  {
    NormalizeAngle(t - 90)
  }

  lemma TurnAnglesUndoEachOther(t: int)
    requires t % 90 == 0
    ensures TurnRightAngle(TurnLeftAngle(t)) == t
    ensures TurnLeftAngle(TurnRightAngle(t)) == t
  {
  }

  // ---------------------------------------------------------------------
  // Whole turns and JavaScript's remainder

  /** x is a whole number of full turns (a multiple of 360). */
  predicate WholeTurns(x: real) {
    x == 360.0 * ((x / 360.0).Floor as real)
  }

  lemma WholeTurnsOf(k: int)
    ensures WholeTurns(360.0 * (k as real))
  {
    assert (360.0 * (k as real)) / 360.0 == k as real;
  }

  lemma WholeTurnsSum(a: real, b: real)
    requires WholeTurns(a) && WholeTurns(b)
    ensures WholeTurns(a + b) && WholeTurns(a - b)
  {
    var ka, kb := (a / 360.0).Floor, (b / 360.0).Floor;
    assert a + b == 360.0 * ((ka + kb) as real);
    assert a - b == 360.0 * ((ka - kb) as real);
    WholeTurnsOf(ka + kb);
    WholeTurnsOf(ka - kb);
  }

  /** Two angles in [-180, 180) that differ by whole turns are equal. */
  lemma UniqueInHalfOpenRange(y: real, z: real)
    requires -180.0 <= y < 180.0 && -180.0 <= z < 180.0
    requires WholeTurns(y - z)
    ensures y == z
  {
    var k := ((y - z) / 360.0).Floor;
    assert -1 <= k <= 0;
  }

  /** The integer part of x, rounded toward zero. */
  function Trunc(x: real): int {
    if x >= 0.0 then x.Floor else -((-x).Floor)
  }

  /** JavaScript's x % 360: truncating, so the remainder takes the sign of x. */
  function JsRem360(x: real): (r: real)
    ensures -360.0 < r < 360.0
    ensures x >= 0.0 ==> r >= 0.0
    ensures x <= 0.0 ==> r <= 0.0
    ensures WholeTurns(x - r)
  {
    WholeTurnsOf(Trunc(x / 360.0));
    x - 360.0 * (Trunc(x / 360.0) as real)
  }

  /** The Euclidean remainder by 360, in [0, 360). */
  function EuclidRem360(x: real): (r: real)
    ensures 0.0 <= r < 360.0
    ensures WholeTurns(x - r)
  {
    WholeTurnsOf((x / 360.0).Floor);
    x - 360.0 * ((x / 360.0).Floor as real)
  }

  /**
   * ((((d + 180) % 360) + 360) % 360) - 180 with JavaScript's `%`: the
   * representative of d in [-180, 180) modulo a full turn.
   */
  function NormalizeDiff(d: real): (r: real)
    ensures -180.0 <= r < 180.0
    ensures WholeTurns(r - d)
  {
    var inner := JsRem360(d + 180.0);
    var outer := JsRem360(inner + 360.0);
    var a, b := d + 180.0 - inner, inner + 360.0 - outer;
    WholeTurnsSum(a, b);
    WholeTurnsOf(1);
    WholeTurnsSum(360.0, a + b);
    assert outer - 180.0 - d == 360.0 - (a + b);
    outer - 180.0
  }

  /** The double JavaScript remainder equals a single Euclidean remainder. */
  lemma NormalizeDiffIsEuclidean(d: real)
    ensures NormalizeDiff(d) == EuclidRem360(d + 180.0) - 180.0
  {
    var y, z := NormalizeDiff(d), EuclidRem360(d + 180.0) - 180.0;
    WholeTurnsSum(y - d, (d + 180.0) - EuclidRem360(d + 180.0));
    assert y - z == (y - d) + ((d + 180.0) - EuclidRem360(d + 180.0));
    UniqueInHalfOpenRange(y, z);
  }

  /** A difference already in [-180, 180) is left as it is. */
  lemma NormalizeDiffInRange(d: real)
    requires -180.0 <= d < 180.0
    ensures NormalizeDiff(d) == d
  {
    UniqueInHalfOpenRange(NormalizeDiff(d), d);
  }

  /** Adding whole turns to the raw difference does not change its normalisation. */
  lemma NormalizeDiffPeriodic(d: real, k: int)
    ensures NormalizeDiff(d + 360.0 * (k as real)) == NormalizeDiff(d)
  {
    var e := d + 360.0 * (k as real);
    WholeTurnsOf(k);
    WholeTurnsSum(NormalizeDiff(e) - e, NormalizeDiff(d) - d);
    WholeTurnsSum((NormalizeDiff(e) - e) - (NormalizeDiff(d) - d), 360.0 * (k as real));
    assert NormalizeDiff(e) - NormalizeDiff(d) == (NormalizeDiff(e) - e) - (NormalizeDiff(d) - d) + 360.0 * (k as real);
    UniqueInHalfOpenRange(NormalizeDiff(e), NormalizeDiff(d));
  }

  // ---------------------------------------------------------------------
  // Capping and smoothing

  /**
   * The delta applied this frame: the whole difference when it is smaller
   * than maxDelta, otherwise maxDelta in the difference's direction.
   */
  function CappedDelta(diff: real, maxDelta: real): (r: real)
    ensures Abs(diff) < maxDelta ==> r == diff
    ensures Abs(diff) >= maxDelta && diff != 0.0 ==> Abs(r) == Abs(maxDelta)
    ensures Abs(diff) >= maxDelta && maxDelta > 0.0 ==> Sign(r) == Sign(diff)
    ensures maxDelta >= 0.0 ==> Abs(r) == Min(Abs(diff), maxDelta)
    ensures maxDelta >= 0.0 ==> (0.0 <= r <= diff || diff <= r <= 0.0)
  {
    if Abs(diff) < maxDelta then diff else Sign(diff) * maxDelta
  }

  /** The new yaw for a frame of length dt, turning from current toward the target heading. */
  function SmoothYaw(current: real, target: int, dt: real): real {
    current + CappedDelta(NormalizeDiff(target as real - current), RotationSpeed * dt)
  }

  /**
   * Each frame turns along the shorter arc and shrinks the remaining
   * normalised difference by RotationSpeed * dt, or closes it exactly.
   */
  lemma SmoothingClosesGap(current: real, target: int, dt: real)
    requires dt >= 0.0
    ensures var diff := NormalizeDiff(target as real - current);
      var applied := CappedDelta(diff, RotationSpeed * dt);
      && SmoothYaw(current, target, dt) == current + applied
      && NormalizeDiff(target as real - SmoothYaw(current, target, dt)) == diff - applied
      && Abs(diff - applied) == Max(0.0, Abs(diff) - RotationSpeed * dt)
  {
    var raw := target as real - current;
    var diff := NormalizeDiff(raw);
    var applied := CappedDelta(diff, RotationSpeed * dt);
    var rest := raw - applied;
    assert -180.0 <= diff - applied < 180.0;
    WholeTurnsSum(diff - raw, 0.0);
    WholeTurnsSum(NormalizeDiff(rest) - rest, diff - raw);
    assert NormalizeDiff(rest) - (diff - applied) == (NormalizeDiff(rest) - rest) - (diff - raw);
    UniqueInHalfOpenRange(NormalizeDiff(rest), diff - applied);
  }

  /** Target 170, current 0, rate 360 per second, one second: the yaw lands on 170. */
  lemma SmoothingReachesNearTarget()
    ensures SmoothYaw(0.0, 170, 1.0) == 170.0
  {
    NormalizeDiffInRange(170.0);
  }
}
