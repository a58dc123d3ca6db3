/**
  ArNavigationActivity: the 3D arrow that points toward a target. It keeps
  the latest bearing to the target (from location fixes) and the latest
  compass azimuth; each callback overwrites one of the two and re-aims the
  arrow at yaw `-normalize(bearing - azimuth)`.
  `Location.distanceBetween` is not modelled: its distance and initial
  bearing come in as the parameters of OnLocation.
*/
module ArNavigation {
  import opened Wrappers
  import opened Numerics
  import opened Text
  import Geospatial

  const DefaultTargetLat: real := 35.24812
  const DefaultTargetLng: real := 33.02244
  const DefaultTargetName: string := "Hedef"

  /** The extras an intent may carry; a missing one is None. */
  datatype IntentExtras = IntentExtras(targetName: Option<string>, targetLat: Option<real>, targetLng: Option<real>)

  datatype Target = Target(lat: real, lng: real, name: string)

  /** A node rotation in degrees about the x, y and z axes. */
  datatype Rotation = Rotation(x: real, y: real, z: real)

  /** The target onCreate reads from the intent: each missing extra takes its default. */
  function TargetFromIntent(extras: IntentExtras): (t: Target)
    ensures t.lat == (if extras.targetLat.Some? then extras.targetLat.value else DefaultTargetLat)
    ensures t.lng == (if extras.targetLng.Some? then extras.targetLng.value else DefaultTargetLng)
    ensures t.name == (if extras.targetName.Some? then extras.targetName.value else DefaultTargetName)
  {
    Target(extras.targetLat.GetOr(DefaultTargetLat), extras.targetLng.GetOr(DefaultTargetLng),
           extras.targetName.GetOr(DefaultTargetName))
  }

  /** With no extras at all the target is the built-in default. */
  lemma DefaultTarget()
    ensures TargetFromIntent(IntentExtras(None, None, None)) == Target(35.24812, 33.02244, "Hedef")
  {
  }

  /**
    The rotation updateArrowRotation gives the arrow: only about z, by the
    negated turn from the azimuth to the bearing, so a turn to the right
    (positive) is a negative yaw; the yaw is itself in [-180, 180].
  */
  function ArrowRotation(bearingTo: real, azimuth: real): (r: Rotation)
    ensures r.x == 0.0 && r.y == 0.0
    ensures -180.0 <= r.z <= 180.0
    ensures r.z == -Geospatial.TurnDelta(bearingTo, azimuth)
    ensures WholeTurns(r.z + (bearingTo - azimuth))
    ensures bearingTo == azimuth ==> r.z == 0.0
  {
    var heading := Geospatial.Normalized(bearingTo - azimuth);
    WholeTurnsSum(heading - (bearingTo - azimuth), 0.0);
    Rotation(0.0, 0.0, -heading)
  }

  /** The info line after a location fix: "<name> Hedefine: <whole metres> m". */
  function DistanceInfo(name: string, distanceM: real): (s: string)
    ensures |s| > |name| + 12 && s[..|name|] == name && s[|name|..|name| + 11] == " Hedefine: "
    ensures s[|s| - 2..] == " m"
    ensures s[|name| + 11..|s| - 2] == IntToString(ToInt(distanceM))
  {
    name + " Hedefine: " + IntToString(ToInt(distanceM)) + " m"
  }

  /** The whole-metre count in the info line reads back as the truncated distance. */
  lemma DistanceInfoReadsBack(name: string, distanceM: real)
    requires 0.0 <= distanceM <= IntMax as real
    ensures var s := DistanceInfo(name, distanceM);
      AllDigits(s[|name| + 11..|s| - 2]) && DigitsValue(s[|name| + 11..|s| - 2]) == Trunc(distanceM)
  {
    NatToStringRoundTrip(Trunc(distanceM));
  }

  class ArNavigationActivity {
    var target: Target
    /** The arrow node's rotation; None while the node does not exist. */
    var arrowNode: Option<Rotation>
    var lastBearingTo: real
    var lastAzimuth: real
    var infoText: string

    /** onCreate's intent handling: the target is fixed, no arrow yet, both angles 0. */
    constructor (extras: IntentExtras)
      ensures target == TargetFromIntent(extras)
      ensures arrowNode == None
      ensures lastBearingTo == 0.0 && lastAzimuth == 0.0
      ensures infoText == ""
    {
      target := TargetFromIntent(extras);
      arrowNode := None;
      lastBearingTo := 0.0;
      lastAzimuth := 0.0;
      infoText := "";
    }

    /** setupArrowNode: the arrow appears, unrotated. */
    method SetupArrowNode()
      modifies this`arrowNode
      ensures arrowNode == Some(Rotation(0.0, 0.0, 0.0))
    {
      arrowNode := Some(Rotation(0.0, 0.0, 0.0));
    }

    /** updateArrowRotation: nothing happens without an arrow; otherwise it is re-aimed. */
    method UpdateArrowRotation()
      modifies this`arrowNode
      ensures old(arrowNode).None? ==> arrowNode == None
      ensures old(arrowNode).Some? ==> arrowNode == Some(ArrowRotation(lastBearingTo, lastAzimuth))
    {
      if arrowNode.None? {
        return;
      }
      var heading := Geospatial.NormalizeDelta(lastBearingTo - lastAzimuth);
      arrowNode := Some(Rotation(0.0, 0.0, -heading));
    }

    /** The compass callback: only the azimuth is overwritten, then the arrow is re-aimed. */
    method OnAzimuth(azimuth: real)
      modifies this`lastAzimuth, this`arrowNode
      ensures lastAzimuth == azimuth && lastBearingTo == old(lastBearingTo)
      ensures arrowNode == if old(arrowNode).None? then None else Some(ArrowRotation(old(lastBearingTo), azimuth))
    {
      lastAzimuth := azimuth;
      UpdateArrowRotation();
    }

    /**
      The location callback, given distanceBetween's distance and initial
      bearing: only the bearing and the info line are overwritten, then the
      arrow is re-aimed.
    */
    method OnLocation(distanceM: real, bearingDeg: real)
      modifies this`lastBearingTo, this`infoText, this`arrowNode
      ensures lastBearingTo == bearingDeg && lastAzimuth == old(lastAzimuth)
      ensures infoText == DistanceInfo(target.name, distanceM)
      ensures arrowNode == if old(arrowNode).None? then None else Some(ArrowRotation(bearingDeg, old(lastAzimuth)))
    {
      lastBearingTo := bearingDeg;
      infoText := DistanceInfo(target.name, distanceM);
      UpdateArrowRotation();
    }
  }

  /**
    With the compass at 90 degrees and the target bearing 90 degrees, the
    arrow points straight ahead whichever callback arrives last.
  */
  method FacingTargetScenario() returns (afterFix: Rotation, afterCompass: Rotation)
    ensures afterFix == Rotation(0.0, 0.0, 0.0)
    ensures afterCompass == Rotation(0.0, 0.0, 0.0)
  {
    var nav := new ArNavigationActivity(IntentExtras(None, None, None));
    nav.SetupArrowNode();
    nav.OnAzimuth(90.0);
    nav.OnLocation(125.0, 90.0);
    afterFix := nav.arrowNode.value;
    nav.OnAzimuth(90.0);
    afterCompass := nav.arrowNode.value;
  }
}
