/**
 * The Mapbox GL map of the species wiki: the polygon colour table, the
 * GeoJSON habitat source with its fill and outline layers, the markers and
 * the camera. The map library's own rules are the preconditions of its
 * operations: a source or layer id may be added only once, a layer only
 * over an existing source, and a source removed only when no layer uses it.
 */
module MapboxMap {
  import opened Wrappers
  import opened Geo
  import opened Habitat
  import WikiMap

  /** The fill colour of a category; any category outside the four gets purple. */
  function PolygonColor(category: string): (c: string)
    ensures c == "#8b5cf6" <==> category !in {"birds", "fish", "flora", "mammals"}
  {
    match category
    case "birds" => "#3b82f6"
    case "fish" => "#06b6d4"
    case "flora" => "#10b981"
    case "mammals" => "#f59e0b"
    case _ => "#8b5cf6"
  }

  /** The two wiki maps colour every category alike. */
  lemma ColorTablesAgree(category: string)
    ensures PolygonColor(category) == WikiMap.CategoryColor(category)
  {
  }

  const HabitatSource: string := "habitat-polygons"
  const FillLayer: string := "habitat-polygons-fill"
  const LineLayer: string := "habitat-polygons-line"

  /** The GeoJSON handed to the source. */
  datatype Properties = Properties(name: string, category: string, status: string)
  datatype Geometry = Polygon(rings: seq<seq<Position>>)
  datatype Feature = Feature(properties: Properties, geometry: Geometry)
  datatype FeatureCollection = FeatureCollection(features: seq<Feature>)

  /** One polygon feature for the selected species, its vertices as given, in GeoJSON order. */
  function HabitatGeoJson(s: MapSpecies): (g: FeatureCollection)
    requires s.polygon.Some?
    ensures |g.features| == 1
    ensures g.features[0].geometry.rings == [s.polygon.value]
    ensures g.features[0].properties == Properties(s.name, s.category, s.status)
  {
    FeatureCollection([Feature(Properties(s.name, s.category, s.status), Polygon([s.polygon.value]))])
  }

  /**
   * The outline this map draws is the one the Leaflet wiki map draws: that
   * map swaps the vertices to `[lat, lng]`, and swapping them back gives
   * this map's ring.
   */
  lemma SameHabitatOutline(s: MapSpecies)
    requires s.polygon.Some?
    ensures HabitatGeoJson(s).features[0].geometry.rings[0] == WikiMap.ToPositions(WikiMap.SwapVertices(s.polygon.value))
  {
    WikiMap.SwapRoundTrip(s.polygon.value);
  }

  datatype LayerKind = Fill | Line

  /** A style layer: its kind, its source, its colour and its fill opacity or line width. */
  datatype StyleLayer = StyleLayer(kind: LayerKind, source: string, color: string, amount: real)

  /** A DOM marker at a `[lng, lat]` position. */
  datatype Marker = Marker(lngLat: Position, color: string, sizePx: nat, popup: seq<string>)

  datatype Camera = Camera(center: Position, zoom: int)

  const DefaultCamera: Camera := Camera(Position(19.8335, 45.2671), 14)

  function LngLat(c: LatLng): Position {
    Position(c.lng, c.lat)
  }

  function SelectedMarker(s: MapSpecies): Marker {
    Marker(LngLat(s.coordinates), PolygonColor(s.category), 20, [s.name, s.scientificName, s.habitat])
  }

  function OverviewMarker(s: MapSpecies): Marker {
    Marker(LngLat(s.coordinates), PolygonColor(s.category), 12, [s.name, s.category])
  }

  /** The markers the update leaves: the selection's one, or one per species in order. */
  function NewMarkers(selected: Option<MapSpecies>, all: seq<MapSpecies>): (r: seq<Marker>)
    ensures selected.Some? ==> r == [SelectedMarker(selected.value)]
    ensures selected.None? ==> |r| == |all|
    ensures selected.None? ==>
      forall i :: 0 <= i < |all| ==> r[i].lngLat == LngLat(all[i].coordinates) && r[i].color == PolygonColor(all[i].category)
  {
    if selected.Some? then [SelectedMarker(selected.value)]
    else seq(|all|, i requires 0 <= i < |all| => OverviewMarker(all[i]))
  }

  /** Where the camera flies. */
  function Target(selected: Option<MapSpecies>): Camera {
    if selected.Some? then Camera(LngLat(selected.value.coordinates), 16) else DefaultCamera
  }

  /** Both wiki maps aim at the same place and zoom, each in its own coordinate order. */
  lemma SameTarget(selected: Option<MapSpecies>)
    ensures Target(selected).zoom == WikiMap.TargetView(selected).zoom
    ensures Target(selected).center == LngLat(WikiMap.TargetView(selected).center)
  {
  }

  /** `process.env.NEXT_PUBLIC_MAPBOX_ACCESS_TOKEN || <placeholder>`. */
  function AccessToken(env: Option<string>): (t: string)
    ensures env.Some? && env.value != "" ==> t == env.value
    ensures env.None? || env.value == "" ==> t == "pk.eyJ1IjoidGVzdCIsImEiOiJjbGV4YW1wbGUifQ.example"
  {
    if env.Some? && env.value != "" then env.value else "pk.eyJ1IjoidGVzdCIsImEiOiJjbGV4YW1wbGUifQ.example"
  }

  /** The component's state and, through it, the map's. */
  class MapboxMapWidget {
    var mapExists: bool
    var isLoaded: bool
    var sources: map<string, FeatureCollection>
    var layers: map<string, StyleLayer>
    var markers: seq<Marker>
    var camera: Option<Camera>
    /** Click handlers registered on the fill layer; the update never unregisters one. */
    var polygonClickHandlers: nat

    /** Every layer draws from a present source, and the only layers are the habitat ones. */
    ghost predicate Valid()
      reads this
    {
      (forall id :: id in layers ==> layers[id].source in sources) &&
      (forall id :: id in layers ==> id == FillLayer || id == LineLayer) &&
      (forall id :: id in layers ==> layers[id].source == HabitatSource) &&
      (!mapExists ==> sources == map[] && layers == map[] && markers == [] && camera == None)
    }

    constructor()
      ensures Valid() && !mapExists && !isLoaded && polygonClickHandlers == 0
    {
      mapExists := false;
      isLoaded := false;
      sources := map[];
      layers := map[];
      markers := [];
      camera := None;
      polygonClickHandlers := 0;
    }

    /** `initializeMap`: once per container, on the default camera. */
    method InitializeMap(hasContainer: bool)
      requires Valid()
      modifies this
      ensures Valid()
      ensures !hasContainer || old(mapExists) ==>
        mapExists == old(mapExists) && camera == old(camera) && sources == old(sources) && layers == old(layers)
      ensures hasContainer && !old(mapExists) ==> mapExists && camera == Some(DefaultCamera) && sources == map[] && layers == map[]
      ensures isLoaded == old(isLoaded) && markers == old(markers) && polygonClickHandlers == old(polygonClickHandlers)
    {
      if !hasContainer || mapExists {
        return;
      }
      mapExists := true;
      camera := Some(DefaultCamera);
    }

    /** The map's `load` event. */
    method OnLoad()
      requires Valid() && mapExists
      modifies this`isLoaded
      ensures Valid() && isLoaded
    {
      isLoaded := true;
    }

    method AddSource(id: string, data: FeatureCollection)
      requires Valid() && mapExists && id !in sources
      modifies this`sources
      ensures Valid() && sources == old(sources)[id := data]
    {
      sources := sources[id := data];
    }

    method AddLayer(id: string, layer: StyleLayer)
      requires Valid() && mapExists && id !in layers && layer.source in sources
      requires (id == FillLayer || id == LineLayer) && layer.source == HabitatSource
      modifies this`layers
      ensures Valid() && layers == old(layers)[id := layer]
    {
      layers := layers[id := layer];
    }

    method RemoveLayer(id: string)
      requires Valid() && id in layers
      modifies this`layers
      ensures Valid() && layers == old(layers) - {id}
    {
      layers := layers - {id};
    }

    method RemoveSource(id: string)
      requires Valid() && id in sources
      requires forall l :: l in layers ==> layers[l].source != id
      modifies this`sources
      ensures Valid() && sources == old(sources) - {id}
    {
      sources := sources - {id};
    }

    /**
     * The update effect: a no-op until the map exists and is loaded;
     * otherwise all markers go, the habitat layers and then their source are
     * removed, and the selection (marker, and habitat source and layers when
     * it has a polygon) or the overview markers are added before the camera
     * flies to its target. Every library call's precondition holds.
     */
    method Update(selected: Option<MapSpecies>, all: seq<MapSpecies>)
      requires Valid()
      modifies this
      ensures Valid()
      ensures mapExists == old(mapExists) && isLoaded == old(isLoaded)
      ensures !old(mapExists) || !old(isLoaded) ==>
        sources == old(sources) && layers == old(layers) && markers == old(markers) && camera == old(camera) &&
        polygonClickHandlers == old(polygonClickHandlers)
      ensures old(mapExists) && old(isLoaded) ==>
        markers == NewMarkers(selected, all) && camera == Some(Target(selected)) &&
        var drawn := selected.Some? && selected.value.polygon.Some?;
        (drawn ==>
          sources == (old(sources) - {HabitatSource})[HabitatSource := HabitatGeoJson(selected.value)] &&
          layers.Keys == {FillLayer, LineLayer} &&
          layers[FillLayer] == StyleLayer(Fill, HabitatSource, PolygonColor(selected.value.category), 0.4) &&
          layers[LineLayer] == StyleLayer(Line, HabitatSource, PolygonColor(selected.value.category), 2.0) &&
          polygonClickHandlers == old(polygonClickHandlers) + 1) &&
        (!drawn ==>
          sources == old(sources) - {HabitatSource} && layers == map[] &&
          polygonClickHandlers == old(polygonClickHandlers))
    {
      if !mapExists || !isLoaded {
        return;
      }
      markers := [];
      ClearHabitat();
      if selected.Some? {
        DrawSelection(selected.value);
      } else {
        DrawOverview(all);
      }
    }

    /** The teardown: only when the source is there, each present layer removed, then the source. */
    method ClearHabitat()
      requires Valid() && mapExists
      modifies this`layers, this`sources
      ensures Valid() && layers == map[] && sources == old(sources) - {HabitatSource}
    {
      if HabitatSource in sources {
        if FillLayer in layers {
          RemoveLayer(FillLayer);
        }
        if LineLayer in layers {
          RemoveLayer(LineLayer);
        }
        RemoveSource(HabitatSource);
      }
    }

    /** The selected species' marker, its habitat source and layers when it has a polygon, and the camera on it. */
    method DrawSelection(s: MapSpecies)
      requires Valid() && mapExists && layers == map[] && HabitatSource !in sources && markers == []
      modifies this
      ensures Valid() && mapExists == old(mapExists) && isLoaded == old(isLoaded)
      ensures markers == [SelectedMarker(s)] && camera == Some(Target(Some(s)))
      ensures s.polygon.Some? ==>
        sources == old(sources)[HabitatSource := HabitatGeoJson(s)] &&
        layers.Keys == {FillLayer, LineLayer} &&
        layers[FillLayer] == StyleLayer(Fill, HabitatSource, PolygonColor(s.category), 0.4) &&
        layers[LineLayer] == StyleLayer(Line, HabitatSource, PolygonColor(s.category), 2.0) &&
        polygonClickHandlers == old(polygonClickHandlers) + 1
      ensures s.polygon.None? ==>
        sources == old(sources) && layers == map[] && polygonClickHandlers == old(polygonClickHandlers)
    {
      markers := markers + [SelectedMarker(s)];
      if s.polygon.Some? {
        DrawHabitat(HabitatGeoJson(s), PolygonColor(s.category));
      }
      camera := Some(Camera(LngLat(s.coordinates), 16));
    }

    /** The habitat outline: its source, the fill and line layers over it, and one more click handler. */
    method DrawHabitat(data: FeatureCollection, color: string)
      requires Valid() && mapExists && layers == map[] && HabitatSource !in sources
      modifies this`sources, this`layers, this`polygonClickHandlers
      ensures Valid()
      ensures sources == old(sources)[HabitatSource := data]
      ensures layers == map[FillLayer := StyleLayer(Fill, HabitatSource, color, 0.4), LineLayer := StyleLayer(Line, HabitatSource, color, 2.0)]
      ensures polygonClickHandlers == old(polygonClickHandlers) + 1
    {
      AddSource(HabitatSource, data);
      AddLayer(FillLayer, StyleLayer(Fill, HabitatSource, color, 0.4));
      AddLayer(LineLayer, StyleLayer(Line, HabitatSource, color, 2.0));
      polygonClickHandlers := polygonClickHandlers + 1;
    }

    /** One small marker per species, in order, and the camera back on the default view. */
    method DrawOverview(all: seq<MapSpecies>)
      requires Valid() && mapExists && layers == map[] && markers == []
      modifies this`markers, this`camera
      ensures Valid() && markers == NewMarkers(None, all) && camera == Some(DefaultCamera)
    {
      var i := 0;
      while i < |all|
        invariant 0 <= i <= |all|
        invariant markers == NewMarkers(None, all[..i])
      {
        markers := markers + [OverviewMarker(all[i])];
        i := i + 1;
      }
      assert all[..i] == all;
      camera := Some(DefaultCamera);
    }

    /** The cleanup on unmount: the map and everything on it go. */
    method Unmount()
      requires Valid()
      modifies this
      ensures Valid() && !mapExists && sources == map[] && layers == map[] && markers == [] && camera == None
      ensures isLoaded == old(isLoaded) && polygonClickHandlers == old(polygonClickHandlers)
    {
      mapExists := false;
      sources := map[];
      layers := map[];
      markers := [];
      camera := None;
    }
  }
}
