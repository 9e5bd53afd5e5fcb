/**
 * The simple survey-image loader: it overlays the pre-compressed survey
 * image, placed either at the survey's fixed UTM zone 32N extent converted
 * to WGS84, or at latitude/longitude bounds typed into a prompt.
 */
module SurveyLoader {
  import opened Wrappers
  import opened Geo
  import opened ManualCoordinates
  import GeoTiff

  /** The image that is overlaid. */
  const SurveyImageUrl: string := "/compressed_survey_new.jpg"

  /** The survey's extent in UTM zone 32N metres. */
  const UtmWest: real := 401785.101500
  const UtmSouth: real := 5755797.727200
  const UtmEast: real := 401962.697400
  const UtmNorth: real := 5756039.889900

  /**
   * The series of the transverse-Mercator inverse for UTM zone 32N: from
   * (easting, northing) in metres to the latitude and to the longitude's
   * offset from the zone's central meridian, both in radians. It uses sine,
   * cosine and tangent and is not modelled; callers pass it in.
   */
  type UtmSeries = (real, real) -> (real, real)

  /** `Math.PI`, to the digits JavaScript prints. */
  const Pi: real := 3.141592653589793

  /** The factor `180 / Math.PI` from radians to degrees. */
  const DegreesPerRadian: real := 180.0 / Pi

  /** The longitude of zone 32N's central meridian, in degrees. */
  const CentralMeridian: real := 9.0

  /**
   * `utmToWgs84` as written: the central meridian, a number of degrees, is
   * added to the longitude offset in radians, and the sum is then scaled
   * from radians to degrees together with the latitude.
   */
  function UtmToWgs84AsWritten(series: UtmSeries, easting: real, northing: real): (real, real) {
    var (lat, offset) := series(easting, northing);
    (lat * DegreesPerRadian, (CentralMeridian + offset) * DegreesPerRadian)
  }

  /** The conversion as intended: the offset is scaled to degrees before the meridian is added. */
  function UtmToWgs84(series: UtmSeries, easting: real, northing: real): (real, real) {
    var (lat, offset) := series(easting, northing);
    (lat * DegreesPerRadian, CentralMeridian + offset * DegreesPerRadian)
  }

  /**
   * As written, every longitude lands 9·(180/π − 1), about 506.66 degrees,
   * east of the intended one: a point on the central meridian comes out at
   * about 515.66 degrees instead of 9, and no point of the zone (offset within
   * 3 degrees of the meridian) comes out inside the zone's 6 to 12 degrees.
   */
  lemma AsWrittenLongitudeShift(series: UtmSeries, easting: real, northing: real)
    ensures UtmToWgs84AsWritten(series, easting, northing).1 - UtmToWgs84(series, easting, northing).1 ==
      CentralMeridian * (DegreesPerRadian - 1.0)
    ensures 506.6 < CentralMeridian * (DegreesPerRadian - 1.0) < 506.7
    ensures series(easting, northing).1 == 0.0 ==> UtmToWgs84AsWritten(series, easting, northing).1 > 515.6
    ensures -Pi / 60.0 <= series(easting, northing).1 <= Pi / 60.0 ==> UtmToWgs84AsWritten(series, easting, northing).1 > 12.0
  {
    var offset := series(easting, northing).1;
    assert (CentralMeridian + offset) * DegreesPerRadian == CentralMeridian * DegreesPerRadian + offset * DegreesPerRadian;
  }

  /**
   * The corrected conversion keeps the central meridian at 9 degrees and
   * puts every point whose offset is within 3 degrees (π/60 radians) of it
   * inside the zone's 6 to 12 degrees east.
   */
  lemma CentralMeridianKept(series: UtmSeries, easting: real, northing: real)
    ensures series(easting, northing).1 == 0.0 ==> UtmToWgs84(series, easting, northing).1 == CentralMeridian
    ensures -Pi / 60.0 <= series(easting, northing).1 <= Pi / 60.0 ==>
      6.0 <= UtmToWgs84(series, easting, northing).1 <= 12.0
  {
    assert Pi / 60.0 * DegreesPerRadian == 3.0;
  }

  /** One call of `onImageProcessed`. */
  datatype Delivery = Delivery(url: string, bounds: Bounds)

  /** The survey's WGS84 bounds: south-west from the west/south corner, north-east from the east/north one. */
  function SurveyBounds(series: UtmSeries): (b: Bounds)
    ensures b.southWest == Corner(Real(UtmToWgs84(series, UtmWest, UtmSouth).0), Real(UtmToWgs84(series, UtmWest, UtmSouth).1))
    ensures b.northEast == Corner(Real(UtmToWgs84(series, UtmEast, UtmNorth).0), Real(UtmToWgs84(series, UtmEast, UtmNorth).1))
  {
    var (southLat, westLon) := UtmToWgs84(series, UtmWest, UtmSouth);
    var (northLat, eastLon) := UtmToWgs84(series, UtmEast, UtmNorth);
    Bounds(Corner(Real(southLat), Real(westLon)), Corner(Real(northLat), Real(eastLon)))
  }

  /** A point of the survey's UTM extent. */
  predicate InExtent(easting: real, northing: real) {
    UtmWest <= easting <= UtmEast && UtmSouth <= northing <= UtmNorth
  }

  /**
   * Slope bounds across the survey extent: going north by d metres the
   * latitude gains at least `a`·d, going east by d metres it moves by at most
   * `b`·d either way; going east the longitude offset gains at least `g`·d,
   * going north it moves by at most `h`·d either way. When the gains over the
   * extent outweigh the drifts (the zone-32N series meets this with a ≈ 1.56e-7,
   * b ≈ 3.1e-9, g ≈ 2.5e-7, h ≈ 5e-9 radians per metre), the box is non-empty:
   * south-west below and left of north-east.
   */
  lemma SurveyBoundsOrdered(series: UtmSeries, a: real, b: real, g: real, h: real)
    requires forall e, n1, n2 :: InExtent(e, n1) && InExtent(e, n2) && n1 <= n2 ==>
      series(e, n2).0 - series(e, n1).0 >= a * (n2 - n1)
    requires forall e1, e2, n :: InExtent(e1, n) && InExtent(e2, n) && e1 <= e2 ==>
      -b * (e2 - e1) <= series(e2, n).0 - series(e1, n).0 <= b * (e2 - e1)
    requires forall e1, e2, n :: InExtent(e1, n) && InExtent(e2, n) && e1 <= e2 ==>
      series(e2, n).1 - series(e1, n).1 >= g * (e2 - e1)
    requires forall e, n1, n2 :: InExtent(e, n1) && InExtent(e, n2) && n1 <= n2 ==>
      -h * (n2 - n1) <= series(e, n2).1 - series(e, n1).1 <= h * (n2 - n1)
    requires a * (UtmNorth - UtmSouth) > b * (UtmEast - UtmWest)
    requires g * (UtmEast - UtmWest) > h * (UtmNorth - UtmSouth)
    ensures var box := SurveyBounds(series);
      box.southWest.lat.value < box.northEast.lat.value && box.southWest.lng.value < box.northEast.lng.value
  {
    assert InExtent(UtmWest, UtmSouth) && InExtent(UtmWest, UtmNorth);
    assert InExtent(UtmEast, UtmSouth) && InExtent(UtmEast, UtmNorth);
    // Latitude: north along the west edge, then east along the north edge.
    assert series(UtmWest, UtmNorth).0 - series(UtmWest, UtmSouth).0 >= a * (UtmNorth - UtmSouth);
    assert series(UtmEast, UtmNorth).0 - series(UtmWest, UtmNorth).0 >= -b * (UtmEast - UtmWest);
    // Longitude: east along the south edge, then north along the east edge.
    assert series(UtmEast, UtmSouth).1 - series(UtmWest, UtmSouth).1 >= g * (UtmEast - UtmWest);
    assert series(UtmEast, UtmNorth).1 - series(UtmEast, UtmSouth).1 >= -h * (UtmNorth - UtmSouth);
  }

  /** Typed coordinates, read in the order south latitude, west longitude, north latitude, east longitude. */
  function ParseManualCoords(input: string, toNumber: NumberConversion): (r: Option<Bounds>)
    ensures r.Some? <==> FourNumbers(input, toNumber).Some?
    ensures r.Some? ==> var q := FourNumbers(input, toNumber).value;
      r.value.southWest == Corner(Real(q.first), Real(q.second)) &&
      r.value.northEast == Corner(Real(q.third), Real(q.fourth))
  {
    match FourNumbers(input, toNumber)
    case None => None
    case Some(q) => Some(Bounds(Corner(Real(q.first), Real(q.second)), Corner(Real(q.third), Real(q.fourth))))
  }

  /** Four numbers written out and joined with commas come back as the bounds they spell. */
  lemma ParseManualCoordsOfJoin(south: string, west: string, north: string, east: string, toNumber: NumberConversion)
    requires ',' !in south && ',' !in west && ',' !in north && ',' !in east
    requires toNumber(south).Real? && toNumber(west).Real? && toNumber(north).Real? && toNumber(east).Real?
    ensures ParseManualCoords(Text.Join([south, west, north, east], ','), toNumber) ==
      Some(Bounds(Corner(toNumber(south), toNumber(west)), Corner(toNumber(north), toNumber(east))))
  {
    FourNumbersOfJoin(south, west, north, east, toNumber);
  }

  /**
   * The same typed text means different bounds here and in the GeoTIFF
   * uploader, which reads west, south, east, north: every corner comes out
   * with latitude and longitude exchanged.
   */
  lemma PromptOrdersTransposed(input: string, toNumber: NumberConversion)
    requires input != "" && ParseManualCoords(input, toNumber).Some?
    ensures var b := ParseManualCoords(input, toNumber).value;
      GeoTiff.ManualBounds(Some(input), toNumber) ==
        Bounds(Corner(b.southWest.lng, b.southWest.lat), Corner(b.northEast.lng, b.northEast.lat))
  {
  }

  /** The loader's state. */
  class Loader {
    var isLoading: bool
    var loadedImage: Option<string>
    /** Every call of `onImageProcessed`, in order. */
    var delivered: seq<Delivery>
    /** The number of `alert` dialogs shown. */
    var alerts: nat

    constructor()
      ensures !isLoading && loadedImage == None && delivered == [] && alerts == 0
    {
      isLoading := false;
      loadedImage := None;
      delivered := [];
      alerts := 0;
    }

    /**
     * `loadCompressedImage`: `imageFound` is whether the HEAD request for
     * the image succeeded. The callback fires only then, an alert is shown
     * otherwise, and loading ends on both paths.
     */
    method LoadCompressedImage(imageFound: bool, series: UtmSeries)
      modifies this
      ensures !isLoading
      ensures imageFound ==>
        loadedImage == Some(SurveyImageUrl) && alerts == old(alerts) &&
        delivered == old(delivered) + [Delivery(SurveyImageUrl, SurveyBounds(series))]
      ensures !imageFound ==>
        loadedImage == old(loadedImage) && delivered == old(delivered) && alerts == old(alerts) + 1
    {
      isLoading := true;
      var bounds := SurveyBounds(series);
      if imageFound {
        loadedImage := Some(SurveyImageUrl);
        delivered := delivered + [Delivery(SurveyImageUrl, bounds)];
      } else {
        alerts := alerts + 1;
      }
      isLoading := false;
    }

    /**
     * `loadWithManualCoords`: a cancelled or empty prompt does nothing,
     * four numbers overlay the image at the bounds they spell, anything
     * else alerts. The loading flag is untouched.
     */
    method LoadWithManualCoords(input: Option<string>, toNumber: NumberConversion)
      modifies this
      ensures isLoading == old(isLoading)
      ensures input.None? || input.value == "" ==>
        loadedImage == old(loadedImage) && delivered == old(delivered) && alerts == old(alerts)
      ensures input.Some? && input.value != "" && ParseManualCoords(input.value, toNumber).Some? ==>
        loadedImage == Some(SurveyImageUrl) && alerts == old(alerts) &&
        delivered == old(delivered) + [Delivery(SurveyImageUrl, ParseManualCoords(input.value, toNumber).value)]
      ensures input.Some? && input.value != "" && ParseManualCoords(input.value, toNumber).None? ==>
        loadedImage == old(loadedImage) && delivered == old(delivered) && alerts == old(alerts) + 1
    {
      if input.Some? && input.value != "" {
        var parsed := ParseManualCoords(input.value, toNumber);
        if parsed.Some? {
          loadedImage := Some(SurveyImageUrl);
          delivered := delivered + [Delivery(SurveyImageUrl, parsed.value)];
        } else {
          alerts := alerts + 1;
        }
      }
    }
  }
}
