/**
  The navigation arithmetic of MainActivity: normalizeDelta, the last step of
  bearingDeg, the metre scaling of haversineDistanceKm, and one step of the
  geospatial loop that composes them and hands the result to the overlay.
  The trigonometry (sin, cos, atan2, sqrt) is not modelled: the haversine
  central angle and the atan2 angle in degrees come in as parameters.
*/
module Geospatial {
  import opened Numerics
  import Overlay

  /** How many whole turns normalizeDelta adds to `d` (a negative count subtracts). */
  function Turns(d: real): int {
    if d < -180.0 then -(((d + 180.0) / 360.0).Floor)
    else if d > 180.0 then ((180.0 - d) / 360.0).Floor
    else 0
  }

  /**
    The value normalizeDelta returns: `d` moved by whole turns into the CLOSED
    range [-180, 180]. An input below -180 lands in [-180, 180), one above 180
    lands in (-180, 180], and an input already in range is left alone, so both
    -180 and 180 are fixed points.
  */
  function Normalized(d: real): (r: real)
    ensures -180.0 <= r <= 180.0
    ensures WholeTurns(r - d)
    ensures -180.0 <= d <= 180.0 ==> r == d
    ensures d < -180.0 ==> r < 180.0
    ensures 180.0 < d ==> -180.0 < r
  {
    var k := Turns(d);
    assert (360.0 * k as real) / 360.0 == k as real;
    d + 360.0 * k as real
  }

  /**
    A value reached from `d` by whole turns that lies in [-180, 180], moved up
    only from below -180 (ending below 180) and down only from above 180
    (ending above -180), is the normalised value.
  */
  lemma NormalizedUnique(d: real, x: real, k: int)
    requires x == d + 360.0 * k as real
    requires -180.0 <= x <= 180.0
    requires k > 0 ==> d < -180.0 && x < 180.0
    requires k < 0 ==> 180.0 < d && -180.0 < x
    ensures x == Normalized(d)
  {
    var r := Normalized(d);
    var j := k - Turns(d);
    assert x - r == 360.0 * j as real;
    if d < -180.0 || 180.0 < d {
      assert -360.0 < x - r < 360.0;
    }
  }

  /**
    normalizeDelta: add 360 while below -180, then subtract 360 while above 180.
    Each loop moves the value 360 toward the range, so both terminate.
  */
  method NormalizeDelta(d: real) returns (x: real)
    ensures x == Normalized(d)
  {
    x := d;
    ghost var k: int := 0;
    while x < -180.0
      invariant x == d + 360.0 * k as real
      invariant k >= 0
      invariant k > 0 ==> d < -180.0 && x < 180.0
      decreases (-x).Floor
    {
      x := x + 360.0;
      k := k + 1;
    }
    while x > 180.0
      invariant x == d + 360.0 * k as real
      invariant -180.0 <= x
      invariant k > 0 ==> d < -180.0 && x < 180.0
      invariant k < 0 ==> 180.0 < d && -180.0 < x
      decreases x.Floor
    {
      x := x - 360.0;
      k := k - 1;
    }
    NormalizedUnique(d, x, k);
  }

  /** Normalising twice is normalising once. */
  lemma NormalizedIdempotent(d: real)
    ensures Normalized(Normalized(d)) == Normalized(d)
  {
  }

  /** The normalised delta denotes the same direction as the raw one. */
  lemma NormalizedSameDirection(d: real)
    ensures Mod360(Normalized(d)) == Mod360(d)
  {
    Mod360WholeTurns(Normalized(d), d);
  }

  /** The closed form `((d + 180) mod 360 + 360) mod 360 - 180`, whose range is [-180, 180). */
  function ClosedFormNormalized(d: real): (r: real)
    ensures -180.0 <= r < 180.0
  {
    Mod360(Mod360(d + 180.0) + 360.0) - 180.0
  }

  /**
    The loops and the closed form agree everywhere except where the loops
    return 180: there the closed form gives -180 instead.
  */
  lemma NormalizedVersusClosedForm(d: real)
    ensures Normalized(d) != 180.0 ==> Normalized(d) == ClosedFormNormalized(d)
    ensures Normalized(d) == 180.0 ==> ClosedFormNormalized(d) == -180.0
  {
    var n, c := Normalized(d), ClosedFormNormalized(d);
    var m := Mod360(d + 180.0);
    assert WholeTurns((m + 360.0) - Mod360(m + 360.0));
    assert WholeTurns((d + 180.0) - m);
    WholeTurnsSum((d + 180.0) - m, (m + 360.0) - Mod360(m + 360.0));
    assert WholeTurns(d + 540.0 - (c + 180.0));
    assert WholeTurns(360.0);
    WholeTurnsSum(d + 540.0 - (c + 180.0), 360.0);
    assert WholeTurns(d - c);
    WholeTurnsSum(n - d, d - c);
    assert WholeTurns(n - c);
    var k := ((n - c) / 360.0).Floor;
    assert n - c == 360.0 * k as real;
  }

  /**
    The last step of bearingDeg, `(deg + 360.0) % 360.0` on the atan2 angle in
    degrees. For any angle from -360 up, which covers atan2's [-180, 180], the
    bearing lies in [0, 360); below -360 Kotlin's `%` keeps the sign and the
    result is not positive.
  */
  function BearingFromAtan2(thetaDeg: real): (b: real)
    ensures -360.0 <= thetaDeg ==> 0.0 <= b < 360.0
    ensures thetaDeg < -360.0 ==> b <= 0.0
    ensures 0.0 <= thetaDeg < 360.0 ==> b == thetaDeg
    ensures WholeTurns(b - thetaDeg)
  {
    var b := Rem360(thetaDeg + 360.0);
    assert WholeTurns(360.0);
    WholeTurnsSum((thetaDeg + 360.0) - b, 360.0);
    WholeTurnsSum(thetaDeg - b, 0.0);
    var k := ((thetaDeg - b) / 360.0).Floor;
    assert thetaDeg - b == 360.0 * k as real;
    b
  }

  /** Mean earth radius haversineDistanceKm uses, in kilometres. */
  const EarthRadiusKm: real := 6371.0

  /** haversineDistanceKm, given the central angle `2 * atan2(sqrt(a), sqrt(1 - a))` in radians. */
  function HaversineDistanceKm(centralAngle: real): (km: real)
    ensures 0.0 <= centralAngle ==> 0.0 <= km
  {
    EarthRadiusKm * centralAngle
  }

  /** The distance in metres the loop computes: the haversine kilometres times 1000. */
  function DistanceMeters(centralAngle: real): (m: real)
    ensures m == 6371000.0 * centralAngle
    ensures 0.0 <= centralAngle ==> 0.0 <= m
  {
    HaversineDistanceKm(centralAngle) * 1000.0
  }

  /**
    The turn delta `normalizeDelta(bearingTo - headingDeg)`: a signed turn in
    [-180, 180] that faces the target; zero when the heading is the bearing.
  */
  function TurnDelta(bearingTo: real, headingDeg: real): (delta: real)
    ensures -180.0 <= delta <= 180.0
    ensures WholeTurns(delta - (bearingTo - headingDeg))
    ensures headingDeg == bearingTo ==> delta == 0.0
    ensures -180.0 <= bearingTo - headingDeg <= 180.0 ==> delta == bearingTo - headingDeg
  {
    Normalized(bearingTo - headingDeg)
  }

  /**
    One pass of the geospatial loop once the earth is tracking: distance and
    bearing from the camera pose to the target, the turn delta against the
    camera heading, and both handed to the overlay.
  */
  method NavigationStep(overlay: Overlay.OverlayView, centralAngle: real, thetaDeg: real, headingDeg: real)
    returns (distM: real, delta: real)
    modifies overlay
    ensures distM == DistanceMeters(centralAngle)
    ensures delta == TurnDelta(BearingFromAtan2(thetaDeg), headingDeg)
    ensures overlay.distanceM == distM && overlay.turnDeltaDeg == delta
  {
    distM := DistanceMeters(centralAngle);
    var bearingTo := BearingFromAtan2(thetaDeg);
    delta := NormalizeDelta(bearingTo - headingDeg);
    overlay.SetNavigation(distM, delta);
  }
}
