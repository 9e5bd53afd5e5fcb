/**
 * The Leaflet map of measurement stations: the view it opens on, the
 * marker styling and popup contents, the station-id registries (one per
 * component, one module-global) and the two ways of opening a station's
 * popup from outside the map.
 */
module StationMap {
  import opened Wrappers
  import opened Geo

  /** A flow velocity as the station table gives it: a number or a label such as "n/a". */
  datatype FlowVelocity = Speed(metresPerSecond: real) | Label(text: string)

  /** A measurement station; absent readings are `None`. */
  datatype MeasurementPoint = MeasurementPoint(
    lat: real, lon: real, name: string, objectId: Option<int>,
    oxygen: Option<real>, temperature: Option<real>, pH: Option<real>, conductivity: Option<real>,
    flowVelocity: Option<FlowVelocity>, restored: Option<string>,
    humidity: Option<real>, soilMoisture: Option<real>)

  // ---------------------------------------------------------------- styling

  const RenaturedColor: string := "#22c55e"
  const NonRenaturedColor: string := "#ef4444"

  /** The marker colour, the status text and the badge classes of the popup. */
  datatype MarkerStyle = MarkerStyle(color: string, status: string, badge: string)

  predicate Renatured(p: MeasurementPoint) {
    p.restored == Some("y")
  }

  /** Only the exact text "y" counts as restored; anything else, absent included, is non-renatured. */
  function Style(p: MeasurementPoint): (s: MarkerStyle)
    ensures s.color == RenaturedColor <==> p.restored == Some("y")
    ensures s.status == "Renatured" <==> p.restored == Some("y")
    ensures p.restored != Some("y") ==>
      s == MarkerStyle(NonRenaturedColor, "Non-renatured", "bg-red-100 text-red-800")
  {
    if Renatured(p) then MarkerStyle(RenaturedColor, "Renatured", "bg-green-100 text-green-800")
    else MarkerStyle(NonRenaturedColor, "Non-renatured", "bg-red-100 text-red-800")
  }

  // ---------------------------------------------------------------- popup

  /** One line of a station's popup, in the order they are written. */
  datatype PopupLine =
    | Status(style: MarkerStyle)
    | Oxygen(mgPerLitre: real)
    | Temperature(celsius: real)
    | PH(value: real)
    | Conductivity(microSiemensPerCm: real)
    | Flow(velocity: FlowVelocity)
    | Humidity(percent: real)
    | SoilMoisture(percent: real)

  /** A JavaScript number is truthy when present and non-zero (NaN is not modelled). */
  predicate Truthy(v: Option<real>) {
    v.Some? && v.value != 0.0
  }

  predicate FlowTruthy(v: Option<FlowVelocity>) {
    match v
    case None => false
    case Some(Speed(x)) => x != 0.0
    case Some(Label(t)) => t != ""
  }

  /** The line shows one of the point's own readings, and that reading is truthy. */
  predicate FromPoint(p: MeasurementPoint, line: PopupLine) {
    match line
    case Status(s) => s == Style(p)
    case Oxygen(v) => p.oxygen == Some(v) && v != 0.0
    case Temperature(v) => p.temperature == Some(v) && v != 0.0
    case PH(v) => p.pH == Some(v) && v != 0.0
    case Conductivity(v) => p.conductivity == Some(v) && v != 0.0
    case Flow(f) => p.flowVelocity == Some(f) && FlowTruthy(Some(f)) && f != Label("n/a")
    case Humidity(v) => p.humidity == Some(v) && v != 0.0
    case SoilMoisture(v) => p.soilMoisture == Some(v) && v != 0.0
  }

  /** A single line when `show` holds, nothing otherwise. */
  function Optional(show: bool, line: PopupLine): (r: seq<PopupLine>)
    ensures show ==> line in r
    ensures forall l :: l in r ==> show && l == line
  {
    if show then [line] else []
  }

  /** The water-chemistry lines: oxygen, temperature, pH and conductivity, each when truthy. */
  function ChemistryLines(p: MeasurementPoint): (r: seq<PopupLine>)
    ensures Truthy(p.oxygen) ==> Oxygen(p.oxygen.value) in r
    ensures Truthy(p.temperature) ==> Temperature(p.temperature.value) in r
    ensures Truthy(p.pH) ==> PH(p.pH.value) in r
    ensures Truthy(p.conductivity) ==> Conductivity(p.conductivity.value) in r
  {
    Optional(Truthy(p.oxygen), Oxygen(p.oxygen.GetOr(0.0)))
    + Optional(Truthy(p.temperature), Temperature(p.temperature.GetOr(0.0)))
    + Optional(Truthy(p.pH), PH(p.pH.GetOr(0.0)))
    + Optional(Truthy(p.conductivity), Conductivity(p.conductivity.GetOr(0.0)))
  }

  /** The remaining lines: flow velocity unless it is "n/a", humidity and soil moisture, each when truthy. */
  function FieldLines(p: MeasurementPoint): (r: seq<PopupLine>)
    ensures FlowTruthy(p.flowVelocity) && p.flowVelocity != Some(Label("n/a")) ==> Flow(p.flowVelocity.value) in r
    ensures Truthy(p.humidity) ==> Humidity(p.humidity.value) in r
    ensures Truthy(p.soilMoisture) ==> SoilMoisture(p.soilMoisture.value) in r
  {
    Optional(FlowTruthy(p.flowVelocity) && p.flowVelocity != Some(Label("n/a")), Flow(p.flowVelocity.GetOr(Label(""))))
    + Optional(Truthy(p.humidity), Humidity(p.humidity.GetOr(0.0)))
    + Optional(Truthy(p.soilMoisture), SoilMoisture(p.soilMoisture.GetOr(0.0)))
  }

  /**
   * The popup's lines after the station name: the status badge first,
   * then every truthy reading; a flow velocity of "n/a" is left out.
   */
  function PopupLines(p: MeasurementPoint): (r: seq<PopupLine>)
    ensures |r| >= 1 && r[0] == Status(Style(p))
    ensures Truthy(p.oxygen) ==> Oxygen(p.oxygen.value) in r
    ensures Truthy(p.temperature) ==> Temperature(p.temperature.value) in r
    ensures Truthy(p.pH) ==> PH(p.pH.value) in r
    ensures Truthy(p.conductivity) ==> Conductivity(p.conductivity.value) in r
    ensures FlowTruthy(p.flowVelocity) && p.flowVelocity != Some(Label("n/a")) ==> Flow(p.flowVelocity.value) in r
    ensures Truthy(p.humidity) ==> Humidity(p.humidity.value) in r
    ensures Truthy(p.soilMoisture) ==> SoilMoisture(p.soilMoisture.value) in r
  {
    [Status(Style(p))] + ChemistryLines(p) + FieldLines(p)
  }

  lemma ChemistryFromPoint(p: MeasurementPoint, line: PopupLine)
    requires line in ChemistryLines(p)
    ensures FromPoint(p, line)
  {
    var oxygen := Optional(Truthy(p.oxygen), Oxygen(p.oxygen.GetOr(0.0)));
    var temperature := Optional(Truthy(p.temperature), Temperature(p.temperature.GetOr(0.0)));
    var pH := Optional(Truthy(p.pH), PH(p.pH.GetOr(0.0)));
    var conductivity := Optional(Truthy(p.conductivity), Conductivity(p.conductivity.GetOr(0.0)));
    if line in oxygen {
      assert line == Oxygen(p.oxygen.value);
    } else if line in temperature {
      assert line == Temperature(p.temperature.value);
    } else if line in pH {
      assert line == PH(p.pH.value);
    } else {
      assert line in conductivity;
      assert line == Conductivity(p.conductivity.value);
    }
  }

  lemma FieldFromPoint(p: MeasurementPoint, line: PopupLine)
    requires line in FieldLines(p)
    ensures FromPoint(p, line)
  {
    var flow := Optional(FlowTruthy(p.flowVelocity) && p.flowVelocity != Some(Label("n/a")),
      Flow(p.flowVelocity.GetOr(Label(""))));
    var humidity := Optional(Truthy(p.humidity), Humidity(p.humidity.GetOr(0.0)));
    var soil := Optional(Truthy(p.soilMoisture), SoilMoisture(p.soilMoisture.GetOr(0.0)));
    if line in flow {
      assert line == Flow(p.flowVelocity.value);
    } else if line in humidity {
      assert line == Humidity(p.humidity.value);
    } else {
      assert line in soil;
      assert line == SoilMoisture(p.soilMoisture.value);
    }
  }

  /** Every line shows one of the point's own truthy readings. */
  lemma PopupLinesFromPoint(p: MeasurementPoint, line: PopupLine)
    requires line in PopupLines(p)
    ensures FromPoint(p, line)
  {
    if line in ChemistryLines(p) {
      ChemistryFromPoint(p, line);
    } else if line in FieldLines(p) {
      FieldFromPoint(p, line);
    } else {
      assert line == Status(Style(p));
    }
  }

  /** A missing or zero reading never shows, nor does a flow velocity of "n/a". */
  lemma FalsyReadingsOmitted(p: MeasurementPoint, line: PopupLine)
    requires line in PopupLines(p)
    ensures !Truthy(p.oxygen) ==> !line.Oxygen?
    ensures !Truthy(p.temperature) ==> !line.Temperature?
    ensures !Truthy(p.pH) ==> !line.PH?
    ensures !Truthy(p.conductivity) ==> !line.Conductivity?
    ensures p.flowVelocity == Some(Label("n/a")) || !FlowTruthy(p.flowVelocity) ==> !line.Flow?
    ensures !Truthy(p.humidity) ==> !line.Humidity?
    ensures !Truthy(p.soilMoisture) ==> !line.SoilMoisture?
  {
    PopupLinesFromPoint(p, line);
  }

  // ---------------------------------------------------------------- view

  /** What the map is told to show: a centre and zoom, or a box fitted with the given padding in pixels. */
  datatype View = SetView(center: Corner, zoom: int) | FitBounds(box: Bounds, padding: nat)

  const DefaultCenter: Corner := Corner(Real(52.0), Real(7.6))
  const DefaultZoom: int := 13

  function Lats(points: seq<MeasurementPoint>): (r: seq<real>)
    ensures |r| == |points| && forall i :: 0 <= i < |points| ==> r[i] == points[i].lat
  {
    seq(|points|, i requires 0 <= i < |points| => points[i].lat)
  }

  function Lons(points: seq<MeasurementPoint>): (r: seq<real>)
    ensures |r| == |points| && forall i :: 0 <= i < |points| ==> r[i] == points[i].lon
  {
    seq(|points|, i requires 0 <= i < |points| => points[i].lon)
  }

  /** `Math.min(...s)` on a non-empty list. */
  function Least(s: seq<real>): real
    requires |s| > 0
  {
    if |s| == 1 then s[0] else var m := Least(s[1..]); if s[0] < m then s[0] else m
  }

  /** `Math.max(...s)` on a non-empty list. */
  function Greatest(s: seq<real>): real
    requires |s| > 0
  {
    if |s| == 1 then s[0] else var m := Greatest(s[1..]); if s[0] > m then s[0] else m
  }

  /** The least and greatest elements are elements, and every element lies between them. */
  lemma {:induction false} LeastGreatest(s: seq<real>)
    requires |s| > 0
    ensures Least(s) in s && Greatest(s) in s
    ensures forall i :: 0 <= i < |s| ==> Least(s) <= s[i] <= Greatest(s)
  {
    if |s| > 1 {
      LeastGreatest(s[1..]);
      forall i | 1 <= i < |s|
        ensures Least(s) <= s[i] <= Greatest(s)
      {
        assert s[i] == s[1..][i - 1];
      }
    }
  }

  /** The zoom chosen for the larger of the latitude and longitude spans. */
  function ZoomForSpan(span: real): (z: int)
    ensures z == 10 || z == 13 || z == 15 || z == 16
  {
    if span > 0.1 then 10 else if span > 0.01 then 13 else if span > 0.005 then 15 else 16
  }

  /** A wider span never gets a closer zoom. */
  lemma ZoomNarrowsWithSpan(a: real, b: real)
    requires a <= b
    ensures ZoomForSpan(b) <= ZoomForSpan(a)
  {
  }

  function Max(a: real, b: real): real {
    if a > b then a else b
  }

  /** The view the map is created with. */
  function InitialView(points: seq<MeasurementPoint>, surveyBounds: Option<Bounds>): (v: View)
    ensures v.SetView?
    ensures surveyBounds.Some? ==> var b := surveyBounds.value;
      v == SetView(Corner(Mid(b.southWest.lat, b.northEast.lat), Mid(b.southWest.lng, b.northEast.lng)), DefaultZoom)
    ensures surveyBounds.None? && points == [] ==> v == SetView(DefaultCenter, DefaultZoom)
  {
    if surveyBounds.Some? then
      var b := surveyBounds.value;
      SetView(Corner(Mid(b.southWest.lat, b.northEast.lat), Mid(b.southWest.lng, b.northEast.lng)), DefaultZoom)
    else if points != [] then
      var (minLat, maxLat) := (Least(Lats(points)), Greatest(Lats(points)));
      var (minLon, maxLon) := (Least(Lons(points)), Greatest(Lons(points)));
      SetView(Corner(Real((minLat + maxLat) / 2.0), Real((minLon + maxLon) / 2.0)),
              ZoomForSpan(Max(maxLat - minLat, maxLon - minLon)))
    else SetView(DefaultCenter, DefaultZoom)
  }

  /**
   * Without survey bounds the view is centred in the stations' box, every
   * station is within half the larger span of the centre on each axis, and
   * the zoom is the one for that span.
   */
  lemma StationsAroundCenter(points: seq<MeasurementPoint>)
    requires points != []
    ensures var v := InitialView(points, None);
      var span := Max(Greatest(Lats(points)) - Least(Lats(points)), Greatest(Lons(points)) - Least(Lons(points)));
      v.center.lat.Real? && v.center.lng.Real? && v.zoom == ZoomForSpan(span) &&
      forall i :: 0 <= i < |points| ==>
        -span / 2.0 <= points[i].lat - v.center.lat.value <= span / 2.0 &&
        -span / 2.0 <= points[i].lon - v.center.lng.value <= span / 2.0
  {
    LeastGreatest(Lats(points));
    LeastGreatest(Lons(points));
  }

  /** The stations' bounding box, `[[min lat, min lon], [max lat, max lon]]`. */
  function StationBox(points: seq<MeasurementPoint>): Bounds
    requires points != []
  {
    Bounds(Corner(Real(Least(Lats(points))), Real(Least(Lons(points)))),
           Corner(Real(Greatest(Lats(points))), Real(Greatest(Lons(points)))))
  }

  predicate TruthyText(s: Option<string>) {
    s.Some? && s.value != ""
  }

  /** The view after the build: fitted to the survey overlay, else to the stations with 20 px padding, else the initial view. */
  function FinalView(points: seq<MeasurementPoint>, surveyImageUrl: Option<string>, surveyBounds: Option<Bounds>): View {
    if TruthyText(surveyImageUrl) && surveyBounds.Some? then FitBounds(surveyBounds.value, 0)
    else if points != [] then FitBounds(StationBox(points), 20)
    else InitialView(points, surveyBounds)
  }

  /**
   * The computed centre and zoom survive the build only when there are no
   * stations and no overlay: otherwise a fit replaces them, so the zoom
   * chosen from the stations' span is never what the map ends up showing.
   */
  lemma InitialViewSurvives(points: seq<MeasurementPoint>, surveyImageUrl: Option<string>, surveyBounds: Option<Bounds>)
    ensures FinalView(points, surveyImageUrl, surveyBounds) == InitialView(points, surveyBounds) <==>
      points == [] && !(TruthyText(surveyImageUrl) && surveyBounds.Some?)
    ensures points != [] ==> FinalView(points, surveyImageUrl, surveyBounds).FitBounds?
  {
  }

  // ---------------------------------------------------------------- registries

  /** A marker on a given map, for a given station. */
  datatype Marker = Marker(mapId: nat, point: MeasurementPoint)

  function Position(m: Marker): LatLng {
    LatLng(m.point.lat, m.point.lon)
  }

  /** A station is registered only under a truthy id: present and non-zero. */
  predicate Registered(p: MeasurementPoint) {
    p.objectId.Some? && p.objectId.value != 0
  }

  /** The id registry the build leaves: stations in order, a later one replacing an earlier one with the same id. */
  function Registry(points: seq<MeasurementPoint>, mapId: nat): map<int, Marker>
    decreases |points|
  {
    if points == [] then map[]
    else
      var last := points[|points| - 1];
      var before := Registry(points[..|points| - 1], mapId);
      if Registered(last) then before[last.objectId.value := Marker(mapId, last)] else before
  }

  /**
   * The registry's keys are exactly the truthy ids, and each maps to the
   * marker of the last station carrying that id.
   */
  lemma {:induction false} RegistryEntries(points: seq<MeasurementPoint>, mapId: nat, k: int)
    ensures k in Registry(points, mapId) <==>
      exists i :: 0 <= i < |points| && Registered(points[i]) && points[i].objectId.value == k
    ensures k in Registry(points, mapId) ==>
      exists i :: 0 <= i < |points| && Registered(points[i]) && points[i].objectId.value == k &&
        Registry(points, mapId)[k] == Marker(mapId, points[i]) &&
        forall j :: i < j < |points| ==> !(Registered(points[j]) && points[j].objectId.value == k)
    decreases |points|
  {
    if points != [] {
      var n := |points| - 1;
      var init := points[..n];
      RegistryEntries(init, mapId, k);
      assert forall i :: 0 <= i < n ==> init[i] == points[i];
      if Registered(points[n]) && points[n].objectId.value == k {
        assert Registry(points, mapId)[k] == Marker(mapId, points[n]);
      } else if k in Registry(points, mapId) {
        var i :| 0 <= i < n && Registered(init[i]) && init[i].objectId.value == k &&
          Registry(init, mapId)[k] == Marker(mapId, init[i]) &&
          forall j :: i < j < n ==> !(Registered(init[j]) && init[j].objectId.value == k);
        assert Registry(points, mapId)[k] == Marker(mapId, points[i]);
        assert forall j :: i < j < |points| ==> !(Registered(points[j]) && points[j].objectId.value == k);
      }
    }
  }

  /** Every registered marker belongs to the given map. */
  lemma {:induction false} RegistryOnMap(points: seq<MeasurementPoint>, mapId: nat)
    ensures forall k :: k in Registry(points, mapId) ==> Registry(points, mapId)[k].mapId == mapId
    decreases |points|
  {
    if points != [] {
      RegistryOnMap(points[..|points| - 1], mapId);
    }
  }

  // ---------------------------------------------------------------- state

  /** An image overlay drawn over the map. */
  datatype Overlay = Overlay(url: string, bounds: Bounds, opacity: real)

  /**
   * The map library's side: the maps created so far (numbered from 0), the
   * ones not yet removed, and for each map its view, its overlay and the
   * position of its open popup. A call on a removed map changes nothing.
   */
  class Leaflet {
    var created: nat
    var live: set<nat>
    var views: map<nat, View>
    var overlays: map<nat, Overlay>
    var popups: map<nat, LatLng>

    constructor()
      ensures created == 0 && live == {} && views == map[] && overlays == map[] && popups == map[]
    {
      created := 0;
      live := {};
      views := map[];
      overlays := map[];
      popups := map[];
    }
  }

  /** The module-level `globalMapInstance` and `globalMarkersMap`, shared by every map component. */
  class Globals {
    var mapInstance: Option<nat>
    var markers: map<int, Marker>

    constructor()
      ensures mapInstance == None && markers == map[]
    {
      mapInstance := None;
      markers := map[];
    }

    /**
     * `window.openStationPopup`: without a global map or with an unknown id
     * nothing happens; otherwise the marker's popup opens and the global map
     * is centred 0.0003 degrees north of the marker at zoom 18.
     */
    method OpenStationPopup(leaflet: Leaflet, objectId: int)
      modifies leaflet
      ensures leaflet.created == old(leaflet.created) && leaflet.live == old(leaflet.live)
      ensures leaflet.overlays == old(leaflet.overlays)
      ensures mapInstance.None? || objectId !in markers ==>
        leaflet.popups == old(leaflet.popups) && leaflet.views == old(leaflet.views)
      ensures mapInstance.Some? && objectId in markers ==>
        var m := markers[objectId];
        var target := mapInstance.value;
        leaflet.popups == (if m.mapId in leaflet.live then old(leaflet.popups)[m.mapId := Position(m)] else old(leaflet.popups)) &&
        leaflet.views == (if target in leaflet.live
          then old(leaflet.views)[target := SetView(Corner(Real(m.point.lat + 0.0003), Real(m.point.lon)), 18)]
          else old(leaflet.views))
    {
      if mapInstance.None? {
        return;
      }
      if objectId in markers {
        var m := markers[objectId];
        if m.mapId in leaflet.live {
          leaflet.popups := leaflet.popups[m.mapId := Position(m)];
        }
        var target := mapInstance.value;
        if target in leaflet.live {
          leaflet.views := leaflet.views[target := SetView(Corner(Real(m.point.lat + 0.0003), Real(m.point.lon)), 18)];
        }
      }
    }
  }

  /** One mounted map component: `mapInstanceRef` and `markersRef`. */
  class StationMapComponent {
    var instance: Option<nat>
    var markers: map<int, Marker>

    /** The component's map is live, and its registry holds only markers of that map. */
    ghost predicate Valid(leaflet: Leaflet)
      reads this, leaflet
    {
      (instance.Some? ==> instance.value in leaflet.live) &&
      (instance.None? ==> markers == map[]) &&
      (forall k :: k in markers ==> instance.Some? && markers[k].mapId == instance.value)
    }

    constructor(leaflet: Leaflet)
      ensures instance == None && markers == map[] && Valid(leaflet)
    {
      instance := None;
      markers := map[];
    }

    /**
     * The effect that (re)builds the map. Without a container it returns at
     * once. Otherwise a previous map is removed and both registries and the
     * global map are cleared; a new map is created with its final view and
     * the overlay when there is one; every station gets a marker, and the
     * truthy ids are registered, last wins, locally and globally. When there
     * was no previous map the global registry keeps its old entries.
     */
    method Build(points: seq<MeasurementPoint>, surveyImageUrl: Option<string>, surveyBounds: Option<Bounds>,
                 hasContainer: bool, leaflet: Leaflet, globals: Globals)
      requires Valid(leaflet)
      modifies this, leaflet, globals
      ensures Valid(leaflet)
      ensures !hasContainer ==>
        instance == old(instance) && markers == old(markers) &&
        leaflet.created == old(leaflet.created) && leaflet.live == old(leaflet.live) && leaflet.views == old(leaflet.views) &&
        leaflet.overlays == old(leaflet.overlays) &&
        globals.mapInstance == old(globals.mapInstance) && globals.markers == old(globals.markers)
      ensures hasContainer ==>
        var id := old(leaflet.created);
        instance == Some(id) && leaflet.created == id + 1 &&
        leaflet.live == (if old(instance).Some? then old(leaflet.live) - {old(instance).value} else old(leaflet.live)) + {id} &&
        leaflet.views == old(leaflet.views)[id := FinalView(points, surveyImageUrl, surveyBounds)] &&
        leaflet.overlays == (if TruthyText(surveyImageUrl) && surveyBounds.Some?
          then old(leaflet.overlays)[id := Overlay(surveyImageUrl.value, surveyBounds.value, 0.8)]
          else old(leaflet.overlays)) &&
        markers == Registry(points, id) &&
        globals.mapInstance == Some(id) &&
        globals.markers == (if old(instance).Some? then map[] else old(globals.markers)) + Registry(points, id)
      ensures leaflet.popups == old(leaflet.popups)
    {
      if !hasContainer {
        return;
      }
      if instance.Some? {
        leaflet.live := leaflet.live - {instance.value};
        instance := None;
        markers := map[];
        globals.mapInstance := None;
        globals.markers := map[];
      }
      var id := leaflet.created;
      leaflet.created := id + 1;
      leaflet.live := leaflet.live + {id};
      leaflet.views := leaflet.views[id := FinalView(points, surveyImageUrl, surveyBounds)];
      if TruthyText(surveyImageUrl) && surveyBounds.Some? {
        leaflet.overlays := leaflet.overlays[id := Overlay(surveyImageUrl.value, surveyBounds.value, 0.8)];
      }
      Register(points, id, globals);
      instance := Some(id);
      globals.mapInstance := Some(id);
    }

    /** The marker loop: each station with a truthy id is registered, locally from empty and on top of the global registry. */
    method Register(points: seq<MeasurementPoint>, id: nat, globals: Globals)
      modifies this, globals
      ensures instance == old(instance) && globals.mapInstance == old(globals.mapInstance)
      ensures markers == Registry(points, id)
      ensures globals.markers == old(globals.markers) + Registry(points, id)
      ensures forall k :: k in markers ==> markers[k].mapId == id
    {
      markers := map[];
      var i := 0;
      while i < |points|
        invariant 0 <= i <= |points|
        invariant instance == old(instance) && globals.mapInstance == old(globals.mapInstance)
        invariant markers == Registry(points[..i], id)
        invariant globals.markers == old(globals.markers) + Registry(points[..i], id)
      {
        var p := points[i];
        assert points[..i + 1][..i] == points[..i];
        if Registered(p) {
          markers := markers[p.objectId.value := Marker(id, p)];
          globals.markers := globals.markers[p.objectId.value := Marker(id, p)];
        }
        i := i + 1;
      }
      assert points[..i] == points;
      RegistryOnMap(points, id);
    }

    /**
     * The effect's cleanup on unmount: the map is removed and the local
     * registry emptied. The globals are left as they were, so a global map
     * that was this component's now names a removed map.
     */
    method Unmount(leaflet: Leaflet, globals: Globals)
      requires Valid(leaflet)
      modifies this, leaflet
      ensures Valid(leaflet)
      ensures instance == None && markers == map[]
      ensures leaflet.live == (if old(instance).Some? then old(leaflet.live) - {old(instance).value} else old(leaflet.live))
      ensures leaflet.created == old(leaflet.created) && leaflet.views == old(leaflet.views)
      ensures leaflet.overlays == old(leaflet.overlays) && leaflet.popups == old(leaflet.popups)
      ensures old(instance).Some? && globals.mapInstance == old(instance) ==>
        globals.mapInstance.Some? && globals.mapInstance.value !in leaflet.live
    {
      if instance.Some? {
        leaflet.live := leaflet.live - {instance.value};
        instance := None;
      }
      markers := map[];
    }

    /**
     * A change of points, image or bounds: React runs the cleanup, then the
     * effect again. The cleanup has already dropped the map, so the rebuild
     * never empties the global registry and stale entries survive it.
     */
    method Rerun(points: seq<MeasurementPoint>, surveyImageUrl: Option<string>, surveyBounds: Option<Bounds>,
                 hasContainer: bool, leaflet: Leaflet, globals: Globals)
      requires Valid(leaflet)
      modifies this, leaflet, globals
      ensures Valid(leaflet)
      ensures hasContainer ==>
        instance == Some(old(leaflet.created)) && markers == Registry(points, old(leaflet.created)) &&
        globals.mapInstance == instance &&
        globals.markers == old(globals.markers) + Registry(points, old(leaflet.created))
    {
      Unmount(leaflet, globals);
      Build(points, surveyImageUrl, surveyBounds, hasContainer, leaflet, globals);
    }

    /**
     * The ref's `openPopup` (its 100 ms delay taken as immediate): without
     * a map or with an unknown id nothing happens; otherwise the marker's
     * popup opens and the map is centred on the marker at zoom 18.
     */
    method OpenPopup(leaflet: Leaflet, objectId: int)
      requires Valid(leaflet)
      modifies leaflet
      ensures Valid(leaflet)
      ensures leaflet.created == old(leaflet.created) && leaflet.live == old(leaflet.live)
      ensures leaflet.overlays == old(leaflet.overlays)
      ensures instance.None? || objectId !in markers ==>
        leaflet.popups == old(leaflet.popups) && leaflet.views == old(leaflet.views)
      ensures instance.Some? && objectId in markers ==>
        var m := markers[objectId];
        leaflet.popups == old(leaflet.popups)[instance.value := Position(m)] &&
        leaflet.views == old(leaflet.views)[instance.value := SetView(Corner(Real(m.point.lat), Real(m.point.lon)), 18)]
    {
      if instance.None? || instance.value !in leaflet.live {
        return;
      }
      if objectId in markers {
        var m := markers[objectId];
        leaflet.popups := leaflet.popups[m.mapId := Position(m)];
        leaflet.views := leaflet.views[instance.value := SetView(Corner(Real(m.point.lat), Real(m.point.lon)), 18)];
      }
    }
  }
}
