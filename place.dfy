/**
  Place.kt: a campus place is a name and a location, and CampusData.places
  is the fixed table of the nine campus buildings, in display order.
*/
module CampusData {
  import opened Wrappers

  datatype LatLng = LatLng(latitude: real, longitude: real)

  datatype Place = Place(name: string, location: LatLng)

  const Places: seq<Place> := [
    Place("Kütüphane", LatLng(35.24926788926027, 33.02415738342566)),
    Place("Deniz Plaza", LatLng(35.24761844424959, 33.02315698353944)),
    Place("Yemekhane", LatLng(35.248266908314214, 33.02364179202564)),
    Place("Rektörlük", LatLng(35.24937812408306, 33.02347179341037)),
    Place("Spor Merkezi", LatLng(35.24684256939173, 33.02698110529848)),
    Place("2. Yurt", LatLng(35.24685518792056, 33.02332729606918)),
    Place("Mühendislik Binası", LatLng(35.24996933354446, 33.02121633032737)),
    Place("1. Yurt", LatLng(35.24721516445099, 33.025035838991116)),
    Place("Hazırlık Binası", LatLng(35.248096081611095, 33.0225580721141))
  ]

  /** No two places share a name. */
  predicate NamesDistinct(places: seq<Place>) {
    forall i, j :: 0 <= i < j < |places| ==> places[i].name != places[j].name
  }

  /** Kotlin's `places.find { it.name == name }`: the first place with that name, if any. */
  function Find(places: seq<Place>, name: string): (r: Option<Place>)
    ensures r.None? <==> forall i :: 0 <= i < |places| ==> places[i].name != name
    ensures r.Some? ==>
      && r.value.name == name
      && exists i :: 0 <= i < |places| && places[i] == r.value &&
           forall j :: 0 <= j < i ==> places[j].name != name
  {
    if places == [] then None
    else if places[0].name == name then Some(places[0])
    else
      var r := Find(places[1..], name);
      if r.Some? then
        var i :| 0 <= i < |places[1..]| && places[1..][i] == r.value &&
          forall j :: 0 <= j < i ==> places[1..][j].name != name;
        assert places[i + 1] == r.value;
        r
      else
        r
  }

  /** With distinct names, looking a place up by its own name finds exactly that place. */
  lemma {:induction false} FindOwnName(places: seq<Place>, k: nat)
    requires NamesDistinct(places)
    requires k < |places|
    ensures Find(places, places[k].name) == Some(places[k])
  {
    var r := Find(places, places[k].name);
    var i :| 0 <= i < |places| && places[i] == r.value &&
      forall j :: 0 <= j < i ==> places[j].name != places[k].name;
    if i < k {
      assert places[i].name == places[k].name;
    }
  }

  /** The table has nine places. */
  lemma PlacesCount()
    ensures |Places| == 9
  {
  }

  /** The table's names are pairwise distinct. */
  lemma PlacesNamesDistinct()
    ensures NamesDistinct(Places)
  {
    forall i, j | 0 <= i < j < |Places|
      ensures Places[i].name != Places[j].name
    {
      assert Places[i].name[0] != Places[j].name[0];
    }
  }

  /** Every place in the table is found by its name. */
  lemma FindEveryPlace(k: nat)
    requires k < |Places|
    ensures Find(Places, Places[k].name) == Some(Places[k])
  {
    PlacesNamesDistinct();
    FindOwnName(Places, k);
  }

  /** All places lie in a small box around the campus. */
  lemma PlacesInCampusBox()
    ensures forall i :: 0 <= i < |Places| ==>
      35.246 <= Places[i].location.latitude <= 35.250 &&
      33.021 <= Places[i].location.longitude <= 33.027
  {
  }
}
