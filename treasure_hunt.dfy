/**
  TreasureHuntActivity: a hidden treasure node that appears when a location
  fix puts the device within 15 m of the treasure, hides again beyond it, and
  is collected by a tap, after which location fixes are ignored for good.
  `Location.distanceBetween` is not modelled: OnLocation takes its distance.
  The node is reduced to its visibility and toasts to the events they announce.
*/
module TreasureHunt {
  import opened Wrappers
  import opened Numerics
  import opened Text

  /** The treasure's coordinates. */
  const TreasureLat: real := 35.24768615367886
  const TreasureLng: real := 33.02281288777089

  /** A fix strictly closer than this reveals the treasure. */
  const NearThreshold: real := 15.0

  const NearText: string := "Hazine çok yakın! Etrafına bak!"
  const CongratsText: string := "TEBRİKLER! BULDUN!"

  /** The toasts the activity shows. */
  datatype Toast = SomethingAppeared | PointsAwarded

  /** The info line while far away: "Hazineye Mesafe: <whole metres>m". */
  function FarText(distanceM: real): (s: string)
    ensures |s| >= 19 && s[..17] == "Hazineye Mesafe: " && s[|s| - 1] == 'm'
    ensures 0.0 <= distanceM <= IntMax as real ==> s[17..|s| - 1] == NatToString(Trunc(distanceM))
    ensures 0.0 <= distanceM <= IntMax as real ==>
      AllDigits(s[17..|s| - 1]) && DigitsValue(s[17..|s| - 1]) == Trunc(distanceM)
  {
    var s := "Hazineye Mesafe: " + IntToString(ToInt(distanceM)) + "m";
    assert s[17..|s| - 1] == IntToString(ToInt(distanceM));
    if 0.0 <= distanceM <= IntMax as real then
      NatToStringRoundTrip(Trunc(distanceM));
      s
    else
      s
  }

  class TreasureHuntActivity {
    var isTreasureFound: bool
    /** The treasure node's visibility; None while the node does not exist. */
    var treasureNode: Option<bool>
    var infoText: string
    var toasts: seq<Toast>

    /** Once the treasure is found its node is never visible. */
    ghost predicate Valid()
      reads this
    {
      isTreasureFound ==> treasureNode != Some(true)
    }

    constructor ()
      ensures Valid()
      ensures !isTreasureFound && treasureNode == None && infoText == "" && toasts == []
    {
      isTreasureFound := false;
      treasureNode := None;
      infoText := "";
      toasts := [];
    }

    /** setupTreasureObject: the node starts out hidden. */
    method SetupTreasureObject()
      requires Valid()
      modifies this`treasureNode
      ensures Valid()
      ensures treasureNode == Some(false)
    {
      treasureNode := Some(false);
    }

    /**
      The location callback, given the distance to the treasure. After the
      find it does nothing. Otherwise, closer than 15 m, the node shows and the
      "something appeared" toast fires only if the node was hidden; at 15 m or
      more the node hides and the distance is shown.
    */
    method OnLocation(distanceM: real)
      requires Valid()
      modifies this`infoText, this`treasureNode, this`toasts
      ensures Valid()
      ensures old(isTreasureFound) ==>
        infoText == old(infoText) && treasureNode == old(treasureNode) && toasts == old(toasts)
      ensures !isTreasureFound && distanceM < NearThreshold ==>
        && infoText == NearText
        && treasureNode == (if old(treasureNode).None? then None else Some(true))
        && toasts == old(toasts) + (if old(treasureNode) == Some(false) then [SomethingAppeared] else [])
      ensures !isTreasureFound && NearThreshold <= distanceM ==>
        && infoText == FarText(distanceM)
        && treasureNode == (if old(treasureNode).None? then None else Some(false))
        && toasts == old(toasts)
    {
      if isTreasureFound {
        return;
      }
      if distanceM < NearThreshold {
        infoText := NearText;
        if treasureNode == Some(false) {
          treasureNode := Some(true);
          toasts := toasts + [SomethingAppeared];
        } else if treasureNode.Some? {
          assert treasureNode.value;
        }
      } else {
        infoText := FarText(distanceM);
        if treasureNode.Some? {
          treasureNode := Some(false);
        }
      }
    }

    /** collectTreasure (a tap on the node): found for good, node hidden, congratulations. */
    method CollectTreasure()
      modifies this
      ensures Valid()
      ensures isTreasureFound
      ensures treasureNode == (if old(treasureNode).None? then None else Some(false))
      ensures infoText == CongratsText
      ensures toasts == old(toasts) + [PointsAwarded]
    {
      isTreasureFound := true;
      infoText := CongratsText;
      toasts := toasts + [PointsAwarded];
      if treasureNode.Some? {
        treasureNode := Some(false);
      }
    }
  }

  /**
    Fixes at 20, 16, 14.9, 15.0 and 10 metres: the node is hidden, hidden,
    shown, hidden (15.0 is not below the threshold) and shown, and the
    "something appeared" toast fires once per reappearance.
  */
  method ThresholdScenario() returns (visible: seq<bool>, toasts: seq<Toast>)
    ensures visible == [false, false, true, false, true]
    ensures toasts == [SomethingAppeared, SomethingAppeared]
  {
    var hunt := new TreasureHuntActivity();
    hunt.SetupTreasureObject();
    hunt.OnLocation(20.0);
    var v20 := hunt.treasureNode.value;
    hunt.OnLocation(16.0);
    var v16 := hunt.treasureNode.value;
    hunt.OnLocation(14.9);
    var v14 := hunt.treasureNode.value;
    hunt.OnLocation(15.0);
    var v15 := hunt.treasureNode.value;
    hunt.OnLocation(10.0);
    var v10 := hunt.treasureNode.value;
    visible, toasts := [v20, v16, v14, v15, v10], hunt.toasts;
  }

  /** After the treasure is collected even a fix right on top of it changes nothing. */
  method CollectedIsTerminalScenario() returns (visible: bool, text: string, toasts: seq<Toast>)
    ensures !visible && text == CongratsText && toasts == [SomethingAppeared, PointsAwarded]
  {
    var hunt := new TreasureHuntActivity();
    hunt.SetupTreasureObject();
    hunt.OnLocation(5.0);
    hunt.CollectTreasure();
    hunt.OnLocation(0.0);
    hunt.OnLocation(30.0);
    visible, text, toasts := hunt.treasureNode.value, hunt.infoText, hunt.toasts;
  }
}
