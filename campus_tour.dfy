/**
  CampusTourActivity: pick a start ("Current Location" or a campus place) and
  a destination, pick AR or map mode, and start navigating. AR mode hands the
  destination to ArNavigationActivity; map mode opens a walking route in a
  maps app. Choosing a start other than "Current Location" disables AR and
  forces map mode.
  The map view, the button colours and the choice between the maps app and a
  browser for the route are not modelled; the formatting of a `Double` inside
  a URI is the parameter `fmt`.
*/
module CampusTour {
  import opened Wrappers
  import opened CampusData
  import ArNavigation

  const CurrentLocationName: string := "Current Location"

  /** What starting the navigation does. */
  datatype NavAction =
    | NoAction
    | LaunchAr(extras: ArNavigation.IntentExtras)
    | OpenMaps(uri: string)

  /** No place is named "Current Location", so the start list's first entry stands for no place. */
  lemma SentinelIsNoPlace()
    ensures forall i :: 0 <= i < |Places| ==> Places[i].name != CurrentLocationName
  {
    forall i | 0 <= i < |Places|
      ensures Places[i].name != CurrentLocationName
    {
      assert Places[i].name[0] != 'C';
    }
  }

  /** `places.map { it.name }`. */
  function PlaceNames(places: seq<Place>): (names: seq<string>)
    ensures |names| == |places|
    ensures forall i :: 0 <= i < |places| ==> names[i] == places[i].name
  {
    seq(|places|, i requires 0 <= i < |places| => places[i].name)
  }

  /** The destination spinner's items: the place names in table order. */
  function ToList(): (items: seq<string>)
    ensures |items| == |Places|
    ensures forall i :: 0 <= i < |Places| ==> items[i] == Places[i].name
  {
    PlaceNames(Places)
  }

  /**
    The start spinner's items: "Current Location", then the place names in
    table order; the sentinel occurs only in first position.
  */
  function FromList(): (items: seq<string>)
    ensures |items| == |Places| + 1 && items[0] == CurrentLocationName
    ensures forall i :: 0 <= i < |Places| ==> items[i + 1] == Places[i].name
    ensures forall i :: 0 < i < |items| ==> items[i] != CurrentLocationName
  {
    SentinelIsNoPlace();
    [CurrentLocationName] + PlaceNames(Places)
  }

  /** The walking route from the device's own position: "google.navigation:q=<lat>,<lng>&mode=w". */
  function NavigationUri(fmt: real -> string, to: LatLng): (uri: string)
    ensures |uri| >= 28 && uri[..20] == "google.navigation:q=" && uri[|uri| - 7..] == "&mode=w"
    ensures uri[20..|uri| - 7] == fmt(to.latitude) + "," + fmt(to.longitude)
  {
    var uri := "google.navigation:q=" + fmt(to.latitude) + "," + fmt(to.longitude) + "&mode=w";
    assert uri[20..|uri| - 7] == fmt(to.latitude) + "," + fmt(to.longitude);
    uri
  }

  /**
    The walking route between two places:
    "http://maps.google.com/maps?saddr=<lat>,<lng>&daddr=<lat>,<lng>&mode=w".
  */
  function DirectionsUri(fmt: real -> string, from: LatLng, to: LatLng): (uri: string)
    ensures |uri| >= 50 && uri[..34] == "http://maps.google.com/maps?saddr=" && uri[|uri| - 7..] == "&mode=w"
    ensures uri[34..|uri| - 7] ==
      fmt(from.latitude) + "," + fmt(from.longitude) + "&daddr=" + fmt(to.latitude) + "," + fmt(to.longitude)
  {
    var route := fmt(from.latitude) + "," + fmt(from.longitude) + "&daddr=" + fmt(to.latitude) + "," + fmt(to.longitude);
    var uri := "http://maps.google.com/maps?saddr=" + route + "&mode=w";
    assert uri[34..|uri| - 7] == route;
    uri
  }

  /**
    startNavigation's decision, given the mode and both selections. An unknown
    destination does nothing. AR mode passes the destination's coordinates
    and name on. Map mode routes from the device to the destination when the
    start is "Current Location", and otherwise from the start place, doing
    nothing if the start is unknown.
  */
  function ChooseAction(isARMode: bool, fromName: string, toName: string, fmt: real -> string): (a: NavAction)
    ensures Find(Places, toName).None? ==> a == NoAction
    ensures a.LaunchAr? <==> isARMode && Find(Places, toName).Some?
    ensures a.LaunchAr? ==>
      var to := Find(Places, toName).value;
      ArNavigation.TargetFromIntent(a.extras) == ArNavigation.Target(to.location.latitude, to.location.longitude, toName)
    ensures !isARMode && fromName == CurrentLocationName && Find(Places, toName).Some? ==>
      a == OpenMaps(NavigationUri(fmt, Find(Places, toName).value.location))
    ensures !isARMode && fromName != CurrentLocationName && Find(Places, toName).Some? ==>
      a == match Find(Places, fromName)
           case None => NoAction
           case Some(from) => OpenMaps(DirectionsUri(fmt, from.location, Find(Places, toName).value.location))
  {
    match Find(Places, toName)
    case None => NoAction
    case Some(target) =>
      if isARMode then
        LaunchAr(ArNavigation.IntentExtras(Some(target.name), Some(target.location.latitude), Some(target.location.longitude)))
      else if fromName == CurrentLocationName then
        OpenMaps(NavigationUri(fmt, target.location))
      else
        match Find(Places, fromName)
        case None => NoAction
        case Some(from) => OpenMaps(DirectionsUri(fmt, from.location, target.location))
  }

  class CampusTourActivity {
    var isARMode: bool
    var arButtonEnabled: bool
    /** The start spinner's selected position. */
    var fromPosition: nat
    /** The destination spinner's selected position. */
    var toPosition: nat

    /**
      Both positions are spinner positions; the AR button is enabled exactly
      when the start is "Current Location", and AR mode is on only when it is.
    */
    ghost predicate Valid()
      reads this
    {
      ValidSelection() && (isARMode ==> arButtonEnabled)
    }

    /** Valid() apart from the mode: the positions and the AR button agree. */
    ghost predicate ValidSelection()
      reads this
    {
      && fromPosition < |FromList()|
      && toPosition < |ToList()|
      && arButtonEnabled == (fromPosition == 0)
    }

    /** The start spinner's selected item. */
    function FromSelected(): string
      reads this
      requires Valid()
    {
      FromList()[fromPosition]
    }

    /** The destination spinner's selected item. */
    function ToSelected(): string
      reads this
      requires Valid()
    {
      ToList()[toPosition]
    }

    /** onCreate: map mode, both spinners on their first item, AR button enabled. */
    constructor ()
      ensures Valid()
      ensures !isARMode && arButtonEnabled
      ensures FromSelected() == CurrentLocationName && ToSelected() == Places[0].name
    {
      isARMode := false;
      arButtonEnabled := true;
      fromPosition := 0;
      toPosition := 0;
    }

    /** selectMode: set the mode; AR mode only while the AR button is enabled. */
    method SelectMode(arMode: bool)
      requires ValidSelection() && (arMode ==> arButtonEnabled)
      modifies this`isARMode
      ensures Valid()
      ensures isARMode == arMode
    {
      isARMode := arMode;
    }

    /**
      The start spinner's listener: a place disables the AR button and forces
      map mode; "Current Location" enables the button and keeps the mode.
    */
    method OnFromItemSelected(position: nat)
      requires Valid()
      requires position < |FromList()|
      modifies this`fromPosition, this`arButtonEnabled, this`isARMode
      ensures Valid()
      ensures fromPosition == position
      ensures FromSelected() != CurrentLocationName ==> !arButtonEnabled && !isARMode
      ensures FromSelected() == CurrentLocationName ==> arButtonEnabled && isARMode == old(isARMode)
    {
      fromPosition := position;
      var selected := FromList()[position];
      if selected != CurrentLocationName {
        arButtonEnabled := false;
        SelectMode(false);
      } else {
        arButtonEnabled := true;
      }
    }

    /** Choosing a destination in its spinner. */
    method OnToItemSelected(position: nat)
      requires Valid()
      requires position < |ToList()|
      modifies this`toPosition
      ensures Valid()
      ensures toPosition == position
    {
      toPosition := position;
    }

    /** The map button: map mode. */
    method OnMapButtonClick()
      requires Valid()
      modifies this`isARMode
      ensures Valid()
      ensures !isARMode
    {
      SelectMode(false);
    }

    /** The AR button: AR mode, but a disabled button delivers no click. */
    method OnArButtonClick()
      requires Valid()
      modifies this`isARMode
      ensures Valid()
      ensures isARMode == (arButtonEnabled || old(isARMode))
    {
      if arButtonEnabled {
        SelectMode(true);
      }
    }

    /**
      startNavigation on the current selections. From spinner selections it
      always acts, and it launches the AR view only from "Current Location".
    */
    method StartNavigation(fmt: real -> string) returns (action: NavAction)
      requires Valid()
      ensures action == ChooseAction(isARMode, FromSelected(), ToSelected(), fmt)
      ensures action != NoAction
      ensures action.LaunchAr? ==> FromSelected() == CurrentLocationName
    {
      var fromName, toName := FromList()[fromPosition], ToList()[toPosition];
      FindEveryPlace(toPosition);
      if fromPosition > 0 {
        FindEveryPlace(fromPosition - 1);
      }
      action := ChooseAction(isARMode, fromName, toName, fmt);
    }
  }
}
