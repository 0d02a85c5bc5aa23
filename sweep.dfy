/** Arithmetic of one animation frame of the skill-check sweep: the pointer
    starts at -90 degrees (the top of the dial) and turns one full circle in
    BaseDurationMs / speed milliseconds. Angles and times are mathematical reals. */
module Sweep {

  /** Time of one full turn at speed multiplier 1, in milliseconds. */
  const BaseDurationMs: real := 2000.0
  /** Floor of the speed multiplier, so that the duration stays finite. */
  const MinSpeed: real := 0.0001
  /** Angle of the pointer when the sweep starts. */
  const StartAngle: real := -90.0
  const FullTurn: real := 360.0
  /** Angle of the pointer when the sweep has turned a full circle. */
  const EndAngle: real := StartAngle + FullTurn

  /** Effective speed: the multiplier floored to MinSpeed, i.e. the maximum of the two. */
  function Speed(multiplier: real): (r: real)
    ensures r >= MinSpeed && r >= multiplier
    ensures r == multiplier || r == MinSpeed
  {
    if multiplier > MinSpeed then multiplier else MinSpeed
  }

  /** Duration of one full turn: positive and bounded whatever the multiplier. */
  function Duration(multiplier: real): (r: real)
    ensures 0.0 < r <= BaseDurationMs / MinSpeed
    ensures r * Speed(multiplier) == BaseDurationMs
  {
    BaseDurationMs / Speed(multiplier)
  }

  /** Fraction of the turn completed after `elapsed` milliseconds, capped at 1. */
  function Progress(elapsed: real, multiplier: real): (p: real)
    ensures p <= 1.0
    ensures elapsed >= 0.0 ==> p >= 0.0
    ensures p == 1.0 <==> elapsed >= Duration(multiplier)
  {
    var d := Duration(multiplier);
    var q := elapsed / d;
    assert q * d == elapsed;
    if q < 1.0 then q else 1.0
  }

  /** Pointer angle after `elapsed` milliseconds. */
  function Angle(elapsed: real, multiplier: real): (a: real)
    ensures elapsed >= 0.0 ==> StartAngle <= a <= EndAngle
    ensures elapsed == 0.0 ==> a == StartAngle
    ensures a + 90.0 >= 360.0 <==> elapsed >= Duration(multiplier)
  {
    StartAngle + Progress(elapsed, multiplier) * FullTurn
  }

  /** Before the sweep closes the pointer turns at a constant rate: FullTurn degrees
      per BaseDurationMs milliseconds, scaled by the effective speed. */
  lemma AngleLinear(elapsed: real, multiplier: real)
    requires 0.0 <= elapsed <= Duration(multiplier)
    ensures Angle(elapsed, multiplier) == StartAngle + FullTurn * elapsed * Speed(multiplier) / BaseDurationMs
  {
    var s := Speed(multiplier);
    var d := Duration(multiplier);
    assert d * s == BaseDurationMs;
    assert elapsed / d == elapsed * s / BaseDurationMs by {
      assert elapsed / d * d == elapsed;
      assert elapsed * s / BaseDurationMs * BaseDurationMs == elapsed * s;
    }
  }

  /** Progress never decreases as time goes on. */
  lemma ProgressMonotone(e1: real, e2: real, multiplier: real)
    requires e1 <= e2
    ensures Progress(e1, multiplier) <= Progress(e2, multiplier)
  {
    var d := Duration(multiplier);
    assert e2 / d - e1 / d == (e2 - e1) / d;
  }

  /** The pointer never turns backwards as time goes on. */
  lemma AngleMonotone(e1: real, e2: real, multiplier: real)
    requires e1 <= e2
    ensures Angle(e1, multiplier) <= Angle(e2, multiplier)
  {
    ProgressMonotone(e1, e2, multiplier);
  }

  /** The sweep closes exactly when `elapsed` reaches BaseDurationMs divided by the
      effective speed; for a multiplier of at least MinSpeed that is 2000 / multiplier. */
  lemma SweepClosesAt(elapsed: real, multiplier: real)
    ensures Angle(elapsed, multiplier) >= EndAngle <==> elapsed * Speed(multiplier) >= BaseDurationMs
    ensures multiplier >= MinSpeed ==>
      (Angle(elapsed, multiplier) >= EndAngle <==> elapsed >= BaseDurationMs / multiplier)
  {
    var s := Speed(multiplier);
    var d := Duration(multiplier);
    assert d * s == BaseDurationMs;
    if multiplier >= MinSpeed {
      assert s == multiplier;
      assert d == BaseDurationMs / multiplier;
    }
  }
}
