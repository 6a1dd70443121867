/**
 * Bearing arithmetic of the autopilot (Mdk.SimpleAutopilot/Program.cs): the
 * wrap-around of the bearing error before it reaches the bearing controller,
 * and the last two corrections applied to a measured bearing.
 */
module BearingMath {

  /** A real that is a whole number of full turns of 360 degrees. */
  predicate WholeTurns(d: real) {
    (d / 360.0).Floor as real == d / 360.0
  }

  /** error - 360 * floor((error + 180) / 360): the error brought into [-180, 180). */
  function NormalizeError(e: real): (r: real)
    ensures -180.0 <= r < 180.0
    ensures WholeTurns(e - r)
  {
    var k := ((e + 180.0) / 360.0).Floor;
    var r := e - 360.0 * k as real;
    assert (e - r) / 360.0 == k as real;
    r
  }

  /** Two values a whole number of turns apart, both in [-180, 180), are equal. */
  lemma {:induction false} WindowUnique(r: real, s: real)
    requires -180.0 <= r < 180.0 && -180.0 <= s < 180.0
    requires WholeTurns(r - s)
    ensures r == s
  {
    var n := ((r - s) / 360.0).Floor;
    assert -1 < n < 1;
  }

  lemma WholeTurnsDifference(a: real, b: real)
    requires WholeTurns(a) && WholeTurns(b)
    ensures WholeTurns(a - b)
  {
    var m := (a / 360.0).Floor;
    var n := (b / 360.0).Floor;
    assert (a - b) / 360.0 == a / 360.0 - b / 360.0;
    FloorOfWhole(m - n);
  }

  lemma WholeTurnsSum(a: real, b: real)
    requires WholeTurns(a) && WholeTurns(b)
    ensures WholeTurns(a + b)
  {
    var m := (a / 360.0).Floor;
    var n := (b / 360.0).Floor;
    assert (a + b) / 360.0 == a / 360.0 + b / 360.0;
    FloorOfWhole(m + n);
  }

  lemma FloorOfWhole(k: int)
    ensures (k as real).Floor == k
  {
  }

  lemma WholeTurnsOf(n: int)
    ensures WholeTurns(360.0 * n as real)
  {
    assert 360.0 * n as real / 360.0 == n as real;
  }

  /**
   * The normalised error is the only value in [-180, 180) a whole number of
   * turns away from the error.
   */
  lemma NormalizeCharacterized(e: real, r: real)
    requires -180.0 <= r < 180.0 && WholeTurns(e - r)
    ensures NormalizeError(e) == r
  {
    var q := NormalizeError(e);
    WholeTurnsDifference(e - q, e - r);
    assert (e - q) - (e - r) == r - q;
    WindowUnique(r, q);
  }

  /** An error already in [-180, 180) is passed through. */
  lemma NormalizeInWindow(e: real)
    requires -180.0 <= e < 180.0
    ensures NormalizeError(e) == e
  {
    WholeTurnsOf(0);
    NormalizeCharacterized(e, e);
  }

  /** Whole turns added to the error do not change the result. */
  lemma NormalizePeriodic(e: real, n: int)
    ensures NormalizeError(e + 360.0 * n as real) == NormalizeError(e)
  {
    var r := NormalizeError(e);
    var turns := 360.0 * n as real;
    WholeTurnsOf(n);
    WholeTurnsSum(e - r, turns);
    assert (e - r) + turns == (e + turns) - r;
    NormalizeCharacterized(e + turns, r);
  }

  /** Normalising twice is normalising once. */
  lemma NormalizeIdempotent(e: real)
    ensures NormalizeError(NormalizeError(e)) == NormalizeError(e)
  {
    NormalizeInWindow(NormalizeError(e));
  }

  /** Worked values: 200 wraps to -160, -200 to 160, and 180 to -180. */
  lemma NormalizeExamples()
    ensures NormalizeError(200.0) == -160.0
    ensures NormalizeError(-200.0) == 160.0
    ensures NormalizeError(180.0) == -180.0
    ensures NormalizeError(540.0) == -180.0
  {
    WholeTurnsOf(1);
    NormalizeCharacterized(200.0, -160.0);
    WholeTurnsOf(-1);
    NormalizeCharacterized(-200.0, 160.0);
    NormalizeCharacterized(180.0, -180.0);
    WholeTurnsOf(2);
    NormalizeCharacterized(540.0, -180.0);
  }

  /**
   * A measured bearing from the angle to north (in degrees) and whether the
   * nose points west of north: west flips the angle to 360 - angle, and a
   * result of 359.5 or more reads as 0.
   */
  function PostFix(angle: real, westward: bool): (b: real)
    ensures b < 359.5
    ensures b == 0.0 || b == angle || b == 360.0 - angle
    ensures 0.0 <= angle <= 180.0 ==> 0.0 <= b
    ensures !westward && angle < 359.5 ==> b == angle
    ensures westward && angle > 0.5 ==> b == 360.0 - angle
    ensures westward && angle <= 0.5 ==> b == 0.0
  {
    var flipped := if westward then 360.0 - angle else angle;
    if flipped >= 359.5 then 0.0 else flipped
  }
}
