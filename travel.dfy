/** The travel map: a zoomable view whose zoom level decides which places
    are marked (countries when zoomed out, Indian states and the other
    countries at regional level, states and cities up close), with zoom
    buttons that stay inside the map's zoom bounds. */
module Travel {
  import opened Util

  datatype LocationType = Country | State | City

  datatype Location = Location(id: string, name: string, lon: real, lat: real, kind: LocationType,
                               description: string, parent: Option<string>)

  /** A location as put on the map. */
  datatype Marker = Marker(loc: Location, visible: bool)

  const Countries: seq<Location> := [
    Location("IN", "India", 78.9629, 20.5937, Country, "Home", None),
    Location("AE", "UAE", 54.3707, 24.4539, Country, "Emirates", None),
    Location("BH", "Bahrain", 50.5577, 26.0667, Country, "Island Kingdom", None),
    Location("MV", "Maldives", 73.2207, 3.2028, Country, "Paradise", None)
  ]

  const IndiaStates: seq<Location> := [
    Location("IN-KA", "Karnataka", 76.5, 14.5, State, "Bengaluru", Some("IN")),
    Location("IN-KL", "Kerala", 76.5, 10.0, State, "Backwaters", Some("IN")),
    Location("IN-TN", "Tamil Nadu", 78.5, 11.0, State, "Chennai", Some("IN")),
    Location("IN-MH", "Maharashtra", 75.0, 19.0, State, "Mumbai", Some("IN")),
    Location("IN-GA", "Goa", 74.12, 15.3, State, "Beaches", Some("IN")),
    Location("IN-RJ", "Rajasthan", 74.0, 26.5, State, "Jaipur", Some("IN")),
    Location("IN-DL", "Delhi", 77.1, 28.7, State, "Capital", Some("IN")),
    Location("IN-HP", "Himachal", 77.1, 31.5, State, "Mountains", Some("IN")),
    Location("IN-GJ", "Gujarat", 71.5, 22.5, State, "Ahmedabad", Some("IN")),
    Location("IN-AP", "Andhra Pradesh", 79.5, 15.5, State, "Visakhapatnam", Some("IN")),
    Location("IN-TG", "Telangana", 79.0, 18.0, State, "Tech Hub", Some("IN"))
  ]

  const UaeCities: seq<Location> := [
    Location("AE-DXB", "Dubai", 55.2708, 25.2048, City, "Burj Khalifa", Some("AE")),
    Location("AE-AUH", "Abu Dhabi", 54.3707, 24.4539, City, "Capital", Some("AE"))
  ]

  const MaldivesCities: seq<Location> := [
    Location("MV-MLE", "Malé", 73.5093, 4.4, City, "Capital", Some("MV")),
    Location("MV-MAF", "Maafushi", 73.2, 3.7, City, "Island", Some("MV")),
    Location("MV-FUL", "Fulidhoo", 73.6, 3.3, City, "Atoll", Some("MV")),
    Location("MV-VAS", "Vashugiri", 73.9, 3.9, City, "Resort", Some("MV"))
  ]

  const MinZoom: real := 1.0
  const MaxZoom: real := 80.0
  const ZoomStep: real := 1.5
  const CountryZoomThreshold: real := 3.0
  const CityZoomThreshold: real := 5.5

  predicate IsCountryLevel(zoom: real) { zoom < CountryZoomThreshold }
  predicate IsRegionLevel(zoom: real) { CountryZoomThreshold <= zoom < CityZoomThreshold }
  predicate IsCityLevel(zoom: real) { zoom >= CityZoomThreshold }

  /** Every zoom is at exactly one level. */
  lemma ExactlyOneLevel(zoom: real)
    ensures IsCountryLevel(zoom) || IsRegionLevel(zoom) || IsCityLevel(zoom)
    ensures !(IsCountryLevel(zoom) && IsRegionLevel(zoom))
    ensures !(IsCountryLevel(zoom) && IsCityLevel(zoom))
    ensures !(IsRegionLevel(zoom) && IsCityLevel(zoom))
  {
  }

  /** The zoom after the "+" button: unchanged at the upper bound or above,
      otherwise one step in, capped at the bound. */
  function ZoomedIn(zoom: real): real
  {
    if zoom >= MaxZoom then zoom
    else if zoom * ZoomStep < MaxZoom then zoom * ZoomStep else MaxZoom
  }

  /** The zoom after the "-" button: unchanged at the lower bound or below,
      otherwise one step out, floored at the bound. */
  function ZoomedOut(zoom: real): real
  {
    if zoom <= MinZoom then zoom
    else if zoom / ZoomStep > MinZoom then zoom / ZoomStep else MinZoom
  }

  /** Both buttons keep the zoom within the map's bounds, and each moves it
      strictly unless it is already at its bound. */
  lemma ZoomStaysInBounds(zoom: real)
    requires MinZoom <= zoom <= MaxZoom
    ensures MinZoom <= ZoomedIn(zoom) <= MaxZoom && MinZoom <= ZoomedOut(zoom) <= MaxZoom
    ensures zoom < MaxZoom ==> zoom < ZoomedIn(zoom)
    ensures zoom > MinZoom ==> ZoomedOut(zoom) < zoom
    ensures zoom == MaxZoom ==> ZoomedIn(zoom) == zoom
    ensures zoom == MinZoom ==> ZoomedOut(zoom) == zoom
  {
  }

  /** Away from the upper cap, zooming out undoes zooming in. */
  lemma ZoomOutUndoesZoomIn(zoom: real)
    requires MinZoom <= zoom && zoom * ZoomStep < MaxZoom
    ensures ZoomedOut(ZoomedIn(zoom)) == zoom
  {
    assert ZoomedIn(zoom) == zoom * ZoomStep;
    assert zoom * ZoomStep / ZoomStep == zoom;
  }

  /** The map's position. */
  class MapView {
    var lon: real
    var lat: real
    var zoom: real

    /** The zoom lies within the map's bounds. */
    predicate Valid()
      reads this
    {
      MinZoom <= zoom <= MaxZoom
    }

    /** The initial position: centred on (70, 20) at zoom 1.5. */
    constructor()
      ensures lon == 70.0 && lat == 20.0 && zoom == 1.5
      ensures Valid() && IsCountryLevel(zoom)
    {
      lon := 70.0;
      lat := 20.0;
      zoom := 1.5;
    }

    /** `handleMoveEnd`: the position the map reports after a drag or a
        scroll, which it keeps within `minZoom` and `maxZoom`. */
    method MoveEnd(newLon: real, newLat: real, newZoom: real)
      requires MinZoom <= newZoom <= MaxZoom
      modifies this
      ensures lon == newLon && lat == newLat && zoom == newZoom
      ensures Valid()
    {
      lon, lat, zoom := newLon, newLat, newZoom;
    }

    /** `handleZoomIn`. */
    method ZoomIn()
      modifies this
      ensures zoom == ZoomedIn(old(zoom)) && lon == old(lon) && lat == old(lat)
      ensures old(Valid()) ==> Valid()
    {
      if zoom >= MaxZoom {
        return;
      }
      var z := zoom * ZoomStep;
      zoom := if z < MaxZoom then z else MaxZoom;
      if old(Valid()) {
        ZoomStaysInBounds(old(zoom));
      }
    }

    /** `handleZoomOut`. */
    method ZoomOut()
      modifies this
      ensures zoom == ZoomedOut(old(zoom)) && lon == old(lon) && lat == old(lat)
      ensures old(Valid()) ==> Valid()
    {
      if zoom <= MinZoom {
        return;
      }
      var z := zoom / ZoomStep;
      zoom := if z > MinZoom then z else MinZoom;
      if old(Valid()) {
        ZoomStaysInBounds(old(zoom));
      }
    }

    /** Marker radius, shrinking as the map zooms in so that markers keep
        their size on screen. */
    function Radius(): (r: real)
      reads this
      requires Valid()
      ensures r * zoom == 6.0
      ensures 6.0 / MaxZoom <= r <= 6.0
    {
      DivisionBounds(zoom);
      6.0 / zoom
    }
  }

  lemma DivisionBounds(zoom: real)
    requires MinZoom <= zoom <= MaxZoom
    ensures 6.0 / MaxZoom <= 6.0 / zoom <= 6.0
    ensures (6.0 / zoom) * zoom == 6.0
  {
  }

  /** Starting at 1.5, one click of "+" stays at country level, the
      second reaches regional level and the fourth city level. */
  lemma ClicksToEachLevel()
    ensures IsCountryLevel(ZoomedIn(1.5))
    ensures IsRegionLevel(ZoomedIn(ZoomedIn(1.5))) && IsRegionLevel(ZoomedIn(ZoomedIn(ZoomedIn(1.5))))
    ensures IsCityLevel(ZoomedIn(ZoomedIn(ZoomedIn(ZoomedIn(1.5)))))
  {
    assert ZoomedIn(1.5) == 2.25;
    assert ZoomedIn(2.25) == 3.375;
    assert ZoomedIn(3.375) == 5.0625;
    assert ZoomedIn(5.0625) == 7.59375;
  }

  const Purple := "#7d5fff"
  const Lime := "#ccff00"
  const Orange := "#f97316"

  /** The fill colour of a marker by its kind. */
  function MarkerColour(kind: LocationType): (c: string)
    ensures c == Purple <==> kind == Country
    ensures c == Lime <==> kind == State
    ensures c == Orange <==> kind == City
  {
    match kind
    case Country => Purple
    case State => Lime
    case City => Orange
  }

  /** `.map(c => ({ ...c, visible: true }))`. */
  function Shown(locs: seq<Location>): (ms: seq<Marker>)
    ensures |ms| == |locs|
    ensures forall i :: 0 <= i < |ms| ==> ms[i] == Marker(locs[i], true)
  {
    seq(|locs|, i requires 0 <= i < |locs| => Marker(locs[i], true))
  }

  /** `.filter(c => (c.id === id) == keep)`. */
  function FilterId(locs: seq<Location>, id: string, keep: bool): (r: seq<Location>)
    ensures forall l :: l in r <==> l in locs && (l.id == id) == keep
    ensures |r| <= |locs|
  {
    if |locs| == 0 then []
    else (if (locs[0].id == id) == keep then [locs[0]] else []) + FilterId(locs[1..], id, keep)
  }

  /** The marked places in list order, before visibility. */
  function Places(ms: seq<Marker>): seq<Location>
  {
    seq(|ms|, i requires 0 <= i < |ms| => ms[i].loc)
  }

  predicate DistinctIds(locs: seq<Location>)
  {
    forall i, j :: 0 <= i < j < |locs| ==> locs[i].id != locs[j].id
  }

  /** The places marked at a zoom level, in the order they are pushed. */
  function LevelPlaces(zoom: real): seq<Location>
  {
    if IsCountryLevel(zoom) then Countries
    else if IsRegionLevel(zoom) then IndiaStates + FilterId(Countries, "IN", false)
    else IndiaStates + UaeCities + MaldivesCities + FilterId(Countries, "BH", true)
  }

  /** `allMarkers`: one push per group at the zoom's level, every marker
      visible. */
  method BuildMarkers(zoom: real) returns (markers: seq<Marker>)
    ensures Places(markers) == LevelPlaces(zoom)
    ensures forall i :: 0 <= i < |markers| ==> markers[i].visible
  {
    markers := [];
    assert Places(markers) == [];
    ghost var places: seq<Location> := [];
    if IsCountryLevel(zoom) {
      markers := Push(markers, Countries, places);
    } else if IsRegionLevel(zoom) {
      markers := Push(markers, IndiaStates, places);
      places := IndiaStates;
      markers := Push(markers, FilterId(Countries, "IN", false), places);
    } else {
      markers := Push(markers, IndiaStates, places);
      places := IndiaStates;
      markers := Push(markers, UaeCities, places);
      places := places + UaeCities;
      markers := Push(markers, MaldivesCities, places);
      places := places + MaldivesCities;
      markers := Push(markers, FilterId(Countries, "BH", true), places);
    }
  }

  /** `markers.push(...locs.map(...))`: the places appended, all visible. */
  method Push(markers: seq<Marker>, locs: seq<Location>, ghost before: seq<Location>) returns (r: seq<Marker>)
    requires Places(markers) == before
    ensures Places(r) == before + locs
    ensures (forall i :: 0 <= i < |markers| ==> markers[i].visible) ==> forall i :: 0 <= i < |r| ==> r[i].visible
  {
    r := markers + Shown(locs);
    assert Places(r) == Places(markers) + locs;
  }

  lemma NotIndia()
    ensures FilterId(Countries, "IN", false) == Countries[1..]
  {
    assert Countries[0].id == "IN";
    assert Countries[1..][0].id != "IN" && Countries[1..][1].id != "IN" && Countries[1..][2].id != "IN";
    assert Countries[1..][1..][1..][1..] == [];
  }

  lemma OnlyBahrain()
    ensures FilterId(Countries, "BH", true) == [Countries[2]]
  {
    assert Countries[0].id != "BH" && Countries[1].id != "BH" && Countries[3].id != "BH";
    assert Countries[1..][1..][1..][1..] == [];
  }

  /** Four markers when zoomed out; at regional level the eleven states
      and the three countries other than India, whose outline the states
      replace; up close the eleven states, the six cities and Bahrain. No
      place is marked twice. */
  lemma MarkerCounts(zoom: real)
    ensures IsCountryLevel(zoom) ==> |LevelPlaces(zoom)| == 4
    ensures IsRegionLevel(zoom) ==> |LevelPlaces(zoom)| == 14
    ensures IsCityLevel(zoom) ==> |LevelPlaces(zoom)| == 18
    ensures !IsCountryLevel(zoom) ==> forall p :: p in LevelPlaces(zoom) ==> p.id != "IN"
    ensures DistinctIds(LevelPlaces(zoom))
  {
    if IsCountryLevel(zoom) {
      CountriesDistinct();
    } else if IsRegionLevel(zoom) {
      NotIndia();
      RegionDistinct();
      StatesNotIndia();
    } else {
      OnlyBahrain();
      CityDistinct();
      StatesNotIndia();
      CitiesNotIndia();
    }
  }

  lemma StatesNotIndia()
    ensures forall p :: p in IndiaStates ==> p.id != "IN"
  {
    forall p | p in IndiaStates
      ensures p.id != "IN"
    {
      var i :| 0 <= i < |IndiaStates| && IndiaStates[i] == p;
      assert |p.id| == 5;
    }
  }

  lemma CitiesNotIndia()
    ensures forall p :: p in UaeCities + MaldivesCities ==> p.id != "IN"
  {
    forall p | p in UaeCities + MaldivesCities
      ensures p.id != "IN"
    {
      var i :| 0 <= i < 6 && (UaeCities + MaldivesCities)[i] == p;
      assert |p.id| == 6;
    }
  }

  lemma CountriesDistinct()
    ensures DistinctIds(Countries)
  {
  }

  lemma RegionDistinct()
    ensures DistinctIds(IndiaStates + Countries[1..])
  {
    StatesDistinct();
    var p := IndiaStates + Countries[1..];
    forall i, j | 0 <= i < j < |p|
      ensures p[i].id != p[j].id
    {
      if j >= 11 {
        assert |p[j].id| == 2;
        if i < 11 {
          assert |p[i].id| == 5;
        }
      }
    }
  }

  lemma CityDistinct()
    ensures DistinctIds(IndiaStates + UaeCities + MaldivesCities + [Countries[2]])
  {
    StatesDistinct();
    CitiesDistinct();
    var p := IndiaStates + UaeCities + MaldivesCities + [Countries[2]];
    forall i, j | 0 <= i < j < |p|
      ensures p[i].id != p[j].id
    {
      IdLength(i, p);
      IdLength(j, p);
      if 11 <= i && j < 17 {
        assert p[i] == (UaeCities + MaldivesCities)[i - 11];
        assert p[j] == (UaeCities + MaldivesCities)[j - 11];
      }
    }
  }

  lemma IdLength(i: int, p: seq<Location>)
    requires p == IndiaStates + UaeCities + MaldivesCities + [Countries[2]] && 0 <= i < |p|
    ensures i < 11 ==> |p[i].id| == 5 && p[i] == IndiaStates[i]
    ensures 11 <= i < 17 ==> |p[i].id| == 6
    ensures i == 17 ==> |p[i].id| == 2
  {
  }

  lemma StatesDistinct()
    ensures DistinctIds(IndiaStates)
  {
  }

  lemma CitiesDistinct()
    ensures DistinctIds(UaeCities + MaldivesCities)
  {
  }
}
