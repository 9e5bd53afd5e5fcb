/**
 * The georeferencing part of the GeoTIFF uploader: deciding whether corner
 * coordinates are already latitude/longitude, choosing the source
 * coordinate system, deriving Leaflet bounds from the bounding box or from
 * origin and resolution, sizing the canvas, and the manual fallback when the
 * file cannot be read as a GeoTIFF. The reprojection itself (`proj4`) is not
 * modelled: it is passed in as a function.
 */
module GeoTiff {
  import opened Wrappers
  import opened Geo
  import opened ManualCoordinates

  /** EPSG:4326, the WGS84 latitude/longitude system every result is meant to be in. */
  const Wgs84: int := 4326
  /** ETRS89 / UTM zones 32N and 33N, guessed when the file names no system. */
  const Utm32N: int := 25832
  const Utm33N: int := 25833

  /** The two GeoKeys the uploader consults; `0` or absent means "not given". */
  datatype GeoKeys = GeoKeys(projectedCSType: Option<int>, geographicType: Option<int>)

  /** `proj4("EPSG:<from>", "EPSG:<to>", [x, y])`; `None` when it throws. */
  type Projection = (int, int, Num, Num) -> Option<(Num, Num)>

  /** The four edges of a box, in the source's west, south, east, north order. */
  datatype Edges = Edges(west: Num, south: Num, east: Num, north: Num)

  /** JavaScript truthiness of an optional number. */
  predicate Given(v: Option<int>) {
    v.Some? && v.value != 0
  }

  /** All four edges are inside the longitude and latitude ranges. */
  predicate LooksGeographic(e: Edges) {
    Within(e.west, -180.0, 180.0) && Within(e.east, -180.0, 180.0) &&
    Within(e.south, -90.0, 90.0) && Within(e.north, -90.0, 90.0)
  }

  /** Some edge is outside its longitude or latitude range (NaN edges are never outside). */
  predicate LooksProjected(e: Edges) {
    Exceeds(Abs(e.west), 180.0) || Exceeds(Abs(e.east), 180.0) ||
    Exceeds(Abs(e.south), 90.0) || Exceeds(Abs(e.north), 90.0)
  }

  /**
   * The source system: the projected-CRS key, else the geographic-CRS key,
   * else UTM 32N when the west edge is below 500000 and UTM 33N otherwise.
   */
  function SourceEpsg(keys: Option<GeoKeys>, west: Num): (code: int)
    ensures keys.Some? && Given(keys.value.projectedCSType) ==> code == keys.value.projectedCSType.value
    ensures keys.Some? && !Given(keys.value.projectedCSType) && Given(keys.value.geographicType) ==>
      code == keys.value.geographicType.value
    ensures (keys.None? || (!Given(keys.value.projectedCSType) && !Given(keys.value.geographicType))) ==>
      (code == Utm32N <==> west.Real? && west.value < 500000.0) && (code == Utm32N || code == Utm33N)
  {
    if keys.Some? && (Given(keys.value.projectedCSType) || Given(keys.value.geographicType)) then
      if Given(keys.value.projectedCSType) then keys.value.projectedCSType.value else keys.value.geographicType.value
    else
      var zone := if west.Real? && west.value < 500000.0 then 32 else 33;
      25800 + zone
  }

  /**
   * `convertToWGS84`: edges that already look geographic are kept; edges that
   * look projected are reprojected corner by corner from the source system
   * to WGS84; when either reprojection fails, or neither test holds, the
   * edges are kept as they are.
   */
  function ConvertToWgs84(e: Edges, keys: Option<GeoKeys>, proj: Projection): (r: Edges)
    ensures LooksGeographic(e) || !LooksProjected(e) ==> r == e
    ensures !LooksGeographic(e) && LooksProjected(e) ==>
      var src := SourceEpsg(keys, e.west);
      var sw := proj(src, Wgs84, e.west, e.south);
      var ne := proj(src, Wgs84, e.east, e.north);
      r == if sw.Some? && ne.Some? then Edges(sw.value.0, sw.value.1, ne.value.0, ne.value.1) else e
  {
    if LooksGeographic(e) then e
    else if LooksProjected(e) then
      var src := SourceEpsg(keys, e.west);
      match (proj(src, Wgs84, e.west, e.south), proj(src, Wgs84, e.east, e.north))
      case (Some(sw), Some(ne)) => Edges(sw.0, sw.1, ne.0, ne.1)
      case _ => e
    else e
  }

  /** `[[south, west], [north, east]]`. */
  function ToBounds(e: Edges): Bounds {
    FromEdges(e.west, e.south, e.east, e.north)
  }

  /** What the uploader reads from a parsed GeoTIFF image. */
  datatype TiffImage = TiffImage(
    bbox: Option<seq<Num>>,
    origin: Option<(Num, Num)>,
    resolution: Option<(Num, Num)>,
    width: nat,
    height: nat,
    geoKeys: Option<GeoKeys>)

  /** The edges computed from origin and resolution: the origin is the north-west corner. */
  function OriginEdges(origin: (Num, Num), resolution: (Num, Num), width: nat, height: nat): (e: Edges)
    ensures e.west == origin.0 && e.north == origin.1
    ensures e.east == Add(origin.0, Mul(Real(width as real), resolution.0))
    ensures e.south == Sub(origin.1, Mul(Real(height as real), Abs(resolution.1)))
  {
    Edges(origin.0, Sub(origin.1, Mul(Real(height as real), Abs(resolution.1))),
          Add(origin.0, Mul(Real(width as real), resolution.0)), origin.1)
  }

  /**
   * The bounds of the image: from a four-number bounding box (rejected if
   * any is NaN), else from origin and resolution, else an error.
   */
  function DeriveBounds(img: TiffImage, proj: Projection): (r: Result<Bounds>)
    ensures img.bbox.Some? && |img.bbox.value| == 4 ==>
      if exists k :: 0 <= k < 4 && img.bbox.value[k].NaN? then r == Err("Invalid coordinates in bounding box")
      else var b := img.bbox.value;
        r == Ok(ToBounds(ConvertToWgs84(Edges(b[0], b[1], b[2], b[3]), img.geoKeys, proj)))
    ensures !(img.bbox.Some? && |img.bbox.value| == 4) && img.origin.Some? && img.resolution.Some? ==>
      r == Ok(ToBounds(ConvertToWgs84(OriginEdges(img.origin.value, img.resolution.value, img.width, img.height), img.geoKeys, proj)))
    ensures !(img.bbox.Some? && |img.bbox.value| == 4) && (img.origin.None? || img.resolution.None?) ==>
      r == Err("No geographic information found in GeoTIFF")
  {
    if img.bbox.Some? && |img.bbox.value| == 4 then
      var b := img.bbox.value;
      if b[0].NaN? || b[1].NaN? || b[2].NaN? || b[3].NaN? then Err("Invalid coordinates in bounding box")
      else Ok(ToBounds(ConvertToWgs84(Edges(b[0], b[1], b[2], b[3]), img.geoKeys, proj)))
    else if img.origin.Some? && img.resolution.Some? then
      Ok(ToBounds(ConvertToWgs84(OriginEdges(img.origin.value, img.resolution.value, img.width, img.height), img.geoKeys, proj)))
    else
      Err("No geographic information found in GeoTIFF")
  }

  /**
   * A bounding box already in latitude/longitude becomes bounds with south
   * and west in the first corner and north and east in the second, whatever
   * the GeoKeys and the projection say.
   */
  lemma GeographicBoxKept(img: TiffImage, proj: Projection, other: Projection)
    requires img.bbox.Some? && |img.bbox.value| == 4
    requires LooksGeographic(Edges(img.bbox.value[0], img.bbox.value[1], img.bbox.value[2], img.bbox.value[3]))
    ensures DeriveBounds(img, proj) == DeriveBounds(img, other)
    ensures var b := img.bbox.value;
      DeriveBounds(img, proj) == Ok(Bounds(Corner(b[1], b[0]), Corner(b[3], b[2])))
  {
  }

  /** The longest canvas side. */
  const MaxDimension: nat := 2048

  function Max(a: nat, b: nat): nat {
    if a >= b then a else b
  }

  /** `Math.min(1, 2048 / Math.max(width, height))`; a 0 x 0 image gets scale 1. */
  function Scale(width: nat, height: nat): (s: real)
    ensures 0.0 < s <= 1.0
    ensures Max(width, height) <= MaxDimension ==> s == 1.0
    ensures Max(width, height) > MaxDimension ==> s * (Max(width, height) as real) == MaxDimension as real
  {
    var m := Max(width, height);
    if m > MaxDimension then MaxDimension as real / m as real else 1.0
  }

  /** `Math.floor(side * scale)`, computed exactly on integers. */
  function ScaledSide(side: nat, width: nat, height: nat): nat {
    var m := Max(width, height);
    if m > MaxDimension then side * MaxDimension / m else side
  }

  /** `Math.floor(c / scale)`: the source row or column sampled for canvas row or column `c`. */
  function Unscaled(c: nat, width: nat, height: nat): nat {
    var m := Max(width, height);
    if m > MaxDimension then c * m / MaxDimension else c
  }

  lemma FloorOfQuotient(n: nat, d: nat)
    requires d > 0
    ensures ((n as real) / (d as real)).Floor == n / d
  {
    var q := n / d;
    var r := n % d;
    var (nr, dr, qr, rr) := (n as real, d as real, q as real, r as real);
    assert nr == qr * dr + rr;
    var f := rr / dr;
    assert f * dr == rr;
    assert 0.0 <= f < 1.0;
    assert nr / dr == qr + f;
  }

  /** The integer forms agree with the source's floating-point formulas taken exactly. */
  lemma ScaledSideIsFloor(side: nat, width: nat, height: nat)
    ensures ScaledSide(side, width, height) == ((side as real) * Scale(width, height)).Floor
    ensures Unscaled(side, width, height) == ((side as real) / Scale(width, height)).Floor
  {
    var m := Max(width, height);
    if m > MaxDimension {
      assert (side as real) * Scale(width, height) == ((side * MaxDimension) as real) / (m as real);
      FloorOfQuotient(side * MaxDimension, m);
      assert (side as real) / Scale(width, height) == ((side * m) as real) / (MaxDimension as real);
      FloorOfQuotient(side * m, MaxDimension);
    }
  }

  function CanvasWidth(width: nat, height: nat): nat {
    ScaledSide(width, width, height)
  }

  function CanvasHeight(width: nat, height: nat): nat {
    ScaledSide(height, width, height)
  }

  /**
   * A canvas side comes out 0 exactly when its image side is 0, or when the
   * image is so elongated that this side times 2048 falls short of the long
   * side (a 1 x 4096 raster gets a canvas 0 pixels wide).
   */
  lemma CanvasSideZero(width: nat, height: nat)
    ensures CanvasWidth(width, height) == 0 <==> width == 0 || width * MaxDimension < Max(width, height)
    ensures CanvasHeight(width, height) == 0 <==> height == 0 || height * MaxDimension < Max(width, height)
  {
    ScaledSideZero(width, width, height);
    ScaledSideZero(height, width, height);
  }

  lemma ScaledSideZero(side: nat, width: nat, height: nat)
    requires side <= Max(width, height)
    ensures ScaledSide(side, width, height) == 0 <==> side == 0 || side * MaxDimension < Max(width, height)
  {
    var m := Max(width, height);
    if m > MaxDimension {
      if side * MaxDimension >= m {
        assert side * MaxDimension / m >= m / m;
      }
    } else if side > 0 {
      assert side * MaxDimension >= MaxDimension;
    }
  }

  /** Neither canvas side exceeds 2048 nor the image side it comes from. */
  lemma CanvasFits(width: nat, height: nat)
    ensures CanvasWidth(width, height) <= MaxDimension && CanvasWidth(width, height) <= width
    ensures CanvasHeight(width, height) <= MaxDimension && CanvasHeight(width, height) <= height
  {
    ScaledSideFits(width, width, height);
    ScaledSideFits(height, width, height);
  }

  lemma ScaledSideFits(side: nat, width: nat, height: nat)
    requires side <= Max(width, height)
    ensures ScaledSide(side, width, height) <= MaxDimension && ScaledSide(side, width, height) <= side
  {
    var m := Max(width, height);
    if m > MaxDimension {
      assert side * MaxDimension <= m * MaxDimension;
      assert side * MaxDimension <= side * m;
      DivBounds(side * MaxDimension, m, MaxDimension);
      DivBounds(side * MaxDimension, m, side);
    }
  }

  lemma DivBounds(n: nat, d: nat, k: nat)
    requires d > 0 && n <= k * d
    ensures n / d <= k
  {
    assert (n / d) * d <= k * d;
    NonPositiveFactor(n / d - k, d);
  }

  lemma NonPositiveFactor(t: int, d: nat)
    requires d > 0 && t * d <= 0
    ensures t <= 0
  {
  }

  /** The source pixel sampled for canvas pixel (x, y): `floor(y / scale) * width + floor(x / scale)`. */
  function SourceIndex(width: nat, height: nat, x: nat, y: nat): nat {
    Unscaled(y, width, height) * width + Unscaled(x, width, height)
  }

  /** Every source index read for a canvas pixel lies inside the `width * height` raster. */
  lemma SourceIndexInBounds(width: nat, height: nat, x: nat, y: nat)
    requires x < CanvasWidth(width, height) && y < CanvasHeight(width, height)
    ensures SourceIndex(width, height, x, y) < width * height
  {
    UnscaledBelow(x, width, width, height);
    UnscaledBelow(y, height, width, height);
    RowMajorInBounds(Unscaled(x, width, height), Unscaled(y, width, height), width, height);
  }

  /** Row-major position (x, y) of a `width * height` grid lies inside it. */
  lemma RowMajorInBounds(x: int, y: int, width: nat, height: nat)
    requires 0 <= x < width && 0 <= y < height
    ensures 0 <= y * width + x < width * height
  {
    assert y * width <= (height - 1) * width;
  }

  /** A canvas coordinate below the scaled side maps back below the image side. */
  lemma UnscaledBelow(c: nat, side: nat, width: nat, height: nat)
    requires side <= Max(width, height) && c < ScaledSide(side, width, height)
    ensures Unscaled(c, width, height) < side
  {
    var m := Max(width, height);
    if m > MaxDimension {
      // c < side * 2048 / m, so (c + 1) * m <= side * 2048 and c * m < side * 2048
      assert (c + 1) * m <= side * MaxDimension by {
        MulBelowDiv(c + 1, side * MaxDimension, m);
      }
      DivBounds(c * m, MaxDimension, side - 1);
    }
  }

  lemma MulBelowDiv(k: nat, n: nat, d: nat)
    requires d > 0 && k <= n / d
    ensures k * d <= n
  {
    assert k * d <= (n / d) * d;
  }

  /** The bounds used when no coordinates were typed in: around Münster. */
  const DefaultBounds: Bounds := Bounds(Corner(Real(51.95), Real(7.55)), Corner(Real(52.05), Real(7.65)))

  /**
   * The manual fallback: typed text "west,south,east,north" with four
   * numbers gives `[[south, west], [north, east]]`; a cancelled or empty
   * prompt, or any other text, gives the default bounds.
   */
  function ManualBounds(input: Option<string>, toNumber: NumberConversion): (b: Bounds)
    ensures (input.None? || input.value == "") ==> b == DefaultBounds
    ensures input.Some? && FourNumbers(input.value, toNumber).None? ==> b == DefaultBounds
    ensures input.Some? && FourNumbers(input.value, toNumber).Some? ==>
      var q := FourNumbers(input.value, toNumber).value;
      b == Bounds(Corner(Real(q.second), Real(q.first)), Corner(Real(q.fourth), Real(q.third)))
  {
    if input.Some? && input.value != "" then
      match FourNumbers(input.value, toNumber)
      case Some(q) => FromEdges(Real(q.first), Real(q.second), Real(q.third), Real(q.fourth))
      case None => DefaultBounds
    else DefaultBounds
  }
}
