/**
 * The Leaflet map of the species wiki: category colours, the one-time map
 * initialisation, and the update that replaces the tracked layers with
 * either the selected species (marker and habitat polygon) or one small
 * marker per species.
 */
module WikiMap {
  import opened Wrappers
  import opened Geo
  import opened Habitat
  import Observations

  const BirdsColor: string := "#3b82f6"
  const FishColor: string := "#06b6d4"
  const FloraColor: string := "#10b981"
  const MammalsColor: string := "#f59e0b"
  const OtherColor: string := "#8b5cf6"

  /** The fill colour of a category; any category outside the four gets purple. */
  function CategoryColor(category: string): (c: string)
    ensures category == "birds" ==> c == BirdsColor
    ensures category == "fish" ==> c == FishColor
    ensures category == "flora" ==> c == FloraColor
    ensures category == "mammals" ==> c == MammalsColor
    ensures c == OtherColor <==> category !in {"birds", "fish", "flora", "mammals"}
  {
    match category
    case "birds" => BirdsColor
    case "fish" => FishColor
    case "flora" => FloraColor
    case "mammals" => MammalsColor
    case _ => OtherColor
  }

  /** Every category the CSV loader produces has its own colour, never the fallback. */
  lemma LoaderCategoriesColoured(a: Observations.Category, b: Observations.Category)
    ensures CategoryColor(Observations.CategoryName(a)) != OtherColor
    ensures a != b ==> CategoryColor(Observations.CategoryName(a)) != CategoryColor(Observations.CategoryName(b))
  {
  }

  /** GeoJSON `[lng, lat]` vertices turned into Leaflet `[lat, lng]` ones, length and order kept. */
  function SwapVertices(polygon: seq<Position>): (r: seq<LatLng>)
    ensures |r| == |polygon|
    ensures forall i :: 0 <= i < |r| ==> r[i] == LatLng(polygon[i].lat, polygon[i].lng)
  {
    seq(|polygon|, i requires 0 <= i < |polygon| => LatLng(polygon[i].lat, polygon[i].lng))
  }

  /** The opposite swap, back to GeoJSON order. */
  function ToPositions(vertices: seq<LatLng>): (r: seq<Position>)
    ensures |r| == |vertices|
    ensures forall i :: 0 <= i < |r| ==> r[i] == Position(vertices[i].lng, vertices[i].lat)
  {
    seq(|vertices|, i requires 0 <= i < |vertices| => Position(vertices[i].lng, vertices[i].lat))
  }

  /** The swap loses nothing: swapping back gives the polygon again. */
  lemma SwapRoundTrip(polygon: seq<Position>)
    ensures ToPositions(SwapVertices(polygon)) == polygon
  {
    var back := ToPositions(SwapVertices(polygon));
    assert |back| == |polygon|;
    forall i | 0 <= i < |polygon|
      ensures back[i] == polygon[i]
    {
    }
  }

  /** A layer on the map. */
  datatype Layer =
    | Tiles(url: string)
    | CircleMarker(center: LatLng, fillColor: string, fillOpacity: real, radius: nat, weight: nat,
                   popup: seq<string>, popupOpen: bool)
    | PolygonLayer(vertices: seq<LatLng>, color: string, fillColor: string, fillOpacity: real)

  const TilesUrl: string := "https://server.arcgisonline.com/ArcGIS/rest/services/World_Imagery/MapServer/tile/{z}/{y}/{x}"

  datatype View = View(center: LatLng, zoom: int)

  const OverviewView: View := View(LatLng(45.2671, 19.8335), 14)

  /** The large marker of the selected species, its popup open. */
  function SelectedMarker(s: MapSpecies): Layer {
    CircleMarker(s.coordinates, CategoryColor(s.category), 0.8, 12, 3,
      [s.name, s.scientificName, s.habitat, "Status: " + s.status], true)
  }

  /** The small marker of a species in the overview. */
  function OverviewMarker(s: MapSpecies): Layer {
    CircleMarker(s.coordinates, CategoryColor(s.category), 0.7, 6, 2, [s.name, s.category], false)
  }

  /** The layers the update adds, in the order it adds them. */
  function NewLayers(selected: Option<MapSpecies>, all: seq<MapSpecies>): seq<Layer> {
    match selected
    case Some(s) =>
      [SelectedMarker(s)] +
      (if s.polygon.Some?
       then [PolygonLayer(SwapVertices(s.polygon.value), CategoryColor(s.category), CategoryColor(s.category), 0.3)]
       else [])
    case None => seq(|all|, i requires 0 <= i < |all| => OverviewMarker(all[i]))
  }

  /**
   * A selection yields its marker and, when it has a habitat polygon, that
   * polygon in the species' colour; no selection yields one small marker per
   * species, in order, at the species' coordinates.
   */
  lemma NewLayersShape(selected: Option<MapSpecies>, all: seq<MapSpecies>)
    ensures selected.Some? ==>
      var ls := NewLayers(selected, all);
      var s := selected.value;
      |ls| == (if s.polygon.Some? then 2 else 1) &&
      ls[0].CircleMarker? && ls[0].center == s.coordinates && ls[0].popupOpen &&
      (s.polygon.Some? ==> ls[1].PolygonLayer? && ls[1].vertices == SwapVertices(s.polygon.value) &&
                           ls[1].color == ls[0].fillColor)
    ensures selected.None? ==>
      var ls := NewLayers(selected, all);
      |ls| == |all| &&
      forall i :: 0 <= i < |all| ==>
        ls[i].CircleMarker? && ls[i].center == all[i].coordinates && ls[i].fillColor == CategoryColor(all[i].category) &&
        !ls[i].popupOpen
  {
  }

  /** Where the update points the map. */
  function TargetView(selected: Option<MapSpecies>): (v: View)
    ensures selected.Some? ==> v == View(selected.value.coordinates, 16)
    ensures selected.None? ==> v == OverviewView
  {
    if selected.Some? then View(selected.value.coordinates, 16) else OverviewView
  }

  /** The ids `start`, `start + 1`, ... given to `n` layers added one after another. */
  function Ids(start: nat, n: nat): (r: seq<nat>)
    ensures |r| == n && forall i :: 0 <= i < n ==> r[i] == start + i
  {
    seq(n, i requires 0 <= i < n => start + i)
  }

  /** The layers `ls` placed under consecutive ids from `start`, on top of `m`. */
  function Placed(m: map<nat, Layer>, start: nat, ls: seq<Layer>): map<nat, Layer>
    decreases |ls|
  {
    if ls == [] then m
    else Placed(m, start, ls[..|ls| - 1])[start + |ls| - 1 := ls[|ls| - 1]]
  }

  /** The placed map holds the new layers under their ids and the old ones elsewhere. */
  lemma {:induction false} PlacedContents(m: map<nat, Layer>, start: nat, ls: seq<Layer>)
    ensures forall k :: k in Placed(m, start, ls) <==> k in m || start <= k < start + |ls|
    ensures forall k :: start <= k < start + |ls| ==> Placed(m, start, ls)[k] == ls[k - start]
    ensures forall k :: k in m && !(start <= k < start + |ls|) ==> Placed(m, start, ls)[k] == m[k]
    decreases |ls|
  {
    if ls != [] {
      var init := ls[..|ls| - 1];
      PlacedContents(m, start, init);
      assert forall i :: 0 <= i < |init| ==> init[i] == ls[i];
    }
  }

  /** Layers placed above every existing id are on the map under distinct ids, all below the next free one. */
  lemma PlacedFresh(m: map<nat, Layer>, start: nat, ls: seq<Layer>)
    requires forall k :: k in m ==> k < start
    ensures forall k :: k in Placed(m, start, ls) ==> k < start + |ls|
    ensures forall i :: 0 <= i < |ls| ==> Ids(start, |ls|)[i] in Placed(m, start, ls)
    ensures forall i, j :: 0 <= i < j < |ls| ==> Ids(start, |ls|)[i] != Ids(start, |ls|)[j]
  {
    PlacedContents(m, start, ls);
  }

  /** The `addTo` loop: each layer placed under the next id, and the ids collected in order. */
  method PlaceLayers(m: map<nat, Layer>, start: nat, added: seq<Layer>) returns (placed: map<nat, Layer>, ids: seq<nat>)
    ensures placed == Placed(m, start, added) && ids == Ids(start, |added|)
  {
    placed, ids := m, [];
    var next := start;
    var i := 0;
    while i < |added|
      invariant 0 <= i <= |added| && next == start + i
      invariant placed == Placed(m, start, added[..i])
      invariant ids == Ids(start, i)
    {
      assert added[..i + 1][..i] == added[..i];
      assert Placed(m, start, added[..i + 1]) == Placed(m, start, added[..i])[start + i := added[i]];
      placed := placed[next := added[i]];
      ids := ids + [next];
      next := next + 1;
      i := i + 1;
    }
    assert added[..i] == added;
  }

  /** The component's state: the map, `isLoaded`, the map's layers by id and the tracked list `markersRef`. */
  class WikiMapWidget {
    var mapExists: bool
    var mapsCreated: nat
    var isLoaded: bool
    var layers: map<nat, Layer>
    var nextId: nat
    var tracked: seq<nat>
    var view: Option<View>

    /**
     * Layer and tracked ids are below `nextId`, and the tracked ones are
     * distinct. A tracked id need not be on the map: unmounting removes the
     * map but keeps the list, and removing an absent layer does nothing.
     */
    ghost predicate Valid()
      reads this
    {
      (!mapExists ==> layers == map[] && view == None) &&
      (forall k :: k in layers ==> k < nextId) &&
      (forall i :: 0 <= i < |tracked| ==> tracked[i] < nextId) &&
      (forall i, j :: 0 <= i < j < |tracked| ==> tracked[i] != tracked[j])
    }

    constructor()
      ensures Valid() && !mapExists && mapsCreated == 0 && !isLoaded && layers == map[] && tracked == [] && view == None
    {
      mapExists := false;
      mapsCreated := 0;
      isLoaded := false;
      layers := map[];
      nextId := 0;
      tracked := [];
      view := None;
    }

    /**
     * `initializeMap`: without a container, with a map already there, or
     * without the library, nothing happens; otherwise the map is created on
     * the overview, with its tiles, and marked loaded.
     */
    method InitializeMap(hasContainer: bool, leafletAvailable: bool)
      requires Valid()
      modifies this
      ensures Valid()
      ensures !hasContainer || old(mapExists) || !leafletAvailable ==>
        mapExists == old(mapExists) && mapsCreated == old(mapsCreated) && isLoaded == old(isLoaded) &&
        layers == old(layers) && tracked == old(tracked) && view == old(view)
      ensures hasContainer && !old(mapExists) && leafletAvailable ==>
        mapExists && isLoaded && mapsCreated == old(mapsCreated) + 1 &&
        layers == old(layers)[old(nextId) := Tiles(TilesUrl)] && tracked == old(tracked) && view == Some(OverviewView)
    {
      if !hasContainer || mapExists || !leafletAvailable {
        return;
      }
      mapExists := true;
      mapsCreated := mapsCreated + 1;
      view := Some(OverviewView);
      layers := layers[nextId := Tiles(TilesUrl)];
      nextId := nextId + 1;
      isLoaded := true;
    }

    /**
     * The update effect: a no-op until the map exists and is loaded;
     * otherwise every tracked layer is removed, the list emptied, the new
     * layers added and tracked in order, and the view moved.
     */
    method Update(selected: Option<MapSpecies>, all: seq<MapSpecies>)
      requires Valid()
      modifies this
      ensures Valid()
      ensures mapExists == old(mapExists) && mapsCreated == old(mapsCreated) && isLoaded == old(isLoaded)
      ensures !old(mapExists) || !old(isLoaded) ==>
        layers == old(layers) && tracked == old(tracked) && view == old(view)
      ensures old(mapExists) && old(isLoaded) ==>
        var added := NewLayers(selected, all);
        layers == Placed(old(layers) - set i | 0 <= i < |old(tracked)| :: old(tracked)[i], old(nextId), added) &&
        tracked == Ids(old(nextId), |added|) &&
        view == Some(TargetView(selected))
      ensures old(mapExists) && old(isLoaded) ==>
        (forall i :: 0 <= i < |old(tracked)| ==> old(tracked)[i] !in layers) &&
        (forall i :: 0 <= i < |tracked| ==> tracked[i] in layers && layers[tracked[i]] == NewLayers(selected, all)[i])
    {
      if !mapExists || !isLoaded {
        return;
      }
      RemoveTracked();
      ghost var cleared := layers;
      var added := NewLayers(selected, all);
      AddLayers(added);
      PlacedContents(cleared, old(nextId), added);
      assert forall i :: 0 <= i < |tracked| ==> tracked[i] in layers;
      view := Some(TargetView(selected));
    }

    /** The `forEach` over `markersRef` removing each layer, then the list emptied. */
    method RemoveTracked()
      requires Valid()
      modifies this
      ensures Valid() && tracked == []
      ensures layers == old(layers) - set i | 0 <= i < |old(tracked)| :: old(tracked)[i]
      ensures nextId == old(nextId) && view == old(view)
      ensures mapExists == old(mapExists) && mapsCreated == old(mapsCreated) && isLoaded == old(isLoaded)
    {
      var i := 0;
      while i < |tracked|
        invariant 0 <= i <= |tracked| && tracked == old(tracked) && nextId == old(nextId) && view == old(view)
        invariant mapExists == old(mapExists) && mapsCreated == old(mapsCreated) && isLoaded == old(isLoaded)
        invariant layers == old(layers) - set j | 0 <= j < i :: tracked[j]
      {
        layers := layers - {tracked[i]};
        i := i + 1;
      }
      tracked := [];
    }

    /** Each new layer added to the map under a fresh id and pushed onto the tracked list. */
    method AddLayers(added: seq<Layer>)
      requires Valid() && tracked == [] && mapExists
      modifies this
      ensures Valid()
      ensures layers == Placed(old(layers), old(nextId), added) && tracked == Ids(old(nextId), |added|)
      ensures view == old(view) && mapExists == old(mapExists) && mapsCreated == old(mapsCreated) && isLoaded == old(isLoaded)
    {
      var placed, ids := PlaceLayers(layers, nextId, added);
      PlacedFresh(layers, nextId, added);
      assert forall k :: k in placed ==> k < nextId + |added|;
      assert forall i :: 0 <= i < |ids| ==> ids[i] < nextId + |added|;
      assert forall i, j :: 0 <= i < j < |ids| ==> ids[i] != ids[j];
      layers, tracked, nextId := placed, ids, nextId + |added|;
    }

    /** The cleanup on unmount: the map and everything on it go; `isLoaded` and the tracked list stay. */
    method Unmount()
      requires Valid()
      modifies this
      ensures Valid() && !mapExists && layers == map[] && view == None
      ensures nextId == old(nextId) && mapsCreated == old(mapsCreated) && isLoaded == old(isLoaded) && tracked == old(tracked)
    {
      if mapExists {
        mapExists := false;
        layers := map[];
        view := None;
      }
    }
  }
}
