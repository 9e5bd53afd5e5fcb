/**
 * The GeoTIFF uploader component: processing a file first as a GeoTIFF
 * (bounds from its georeferencing, pixels from its rasters) and, when any
 * step of that fails, as a plain image placed at typed-in or default
 * bounds; the processed image and its bounds are handed to the parent
 * through the `onImageProcessed` callback, recorded here as `delivered`.
 */
module TiffUploader {
  import opened Wrappers
  import opened Geo
  import opened ManualCoordinates
  import opened GeoTiff
  import opened Raster

  /** What the GeoTIFF library yields for a file: its first image and the bands of its rasters. */
  datatype GeoTiffFile = GeoTiffFile(image: TiffImage, rasters: seq<seq<real>>)

  /** The canvas content that becomes the processed image. */
  datatype Picture =
    | Rendered(width: nat, height: nat, pixels: seq<Byte>)
    | Redrawn(width: nat, height: nat)

  /** One call of `onImageProcessed`. */
  datatype Delivery = Delivery(picture: Picture, bounds: Bounds)

  /** The final status line. */
  datatype Info =
    | GeoTiffProcessed(bounds: Bounds)
    | ManualCoordinatesApplied(bounds: Bounds)
    | DefaultCoordinatesApplied
    | CannotProcess(reason: string)

  /** The message of the `TypeError` raised when a file has no raster band. */
  const NoBandError: string := "Cannot read properties of undefined (reading 'length')"

  /** The `IndexSizeError` messages of `createImageData` for a canvas side of 0. */
  const ZeroWidthError: string := "Failed to execute 'createImageData' on 'CanvasRenderingContext2D': The source width is 0."
  const ZeroHeightError: string := "Failed to execute 'createImageData' on 'CanvasRenderingContext2D': The source height is 0."

  /**
   * The raster rendering: `createImageData` on the scaled canvas first, which
   * throws when a side is 0; then RGB from three or more bands, grayscale
   * from one or two, an error from none.
   */
  function Render(file: GeoTiffFile): (r: Result<Picture>)
    ensures var (w, h) := (file.image.width, file.image.height);
      r.Err? <==> CanvasWidth(w, h) == 0 || CanvasHeight(w, h) == 0 || |file.rasters| == 0
    ensures CanvasWidth(file.image.width, file.image.height) == 0 ==> r == Err(ZeroWidthError)
    ensures r.Ok? ==> var (w, h) := (file.image.width, file.image.height);
      r.value == Rendered(CanvasWidth(w, h), CanvasHeight(w, h),
        if |file.rasters| >= 3 then RgbImage(file.rasters, w, h) else GrayImage(file.rasters[0], w, h))
  {
    var (w, h) := (file.image.width, file.image.height);
    if CanvasWidth(w, h) == 0 then Err(ZeroWidthError)
    else if CanvasHeight(w, h) == 0 then Err(ZeroHeightError)
    else if |file.rasters| >= 3 then Ok(Rendered(CanvasWidth(w, h), CanvasHeight(w, h), RgbImage(file.rasters, w, h)))
    else if |file.rasters| == 0 then Err(NoBandError)
    else Ok(Rendered(CanvasWidth(w, h), CanvasHeight(w, h), GrayImage(file.rasters[0], w, h)))
  }

  /** The GeoTIFF attempt: parse, derive bounds, render; the first error ends it. */
  function GeoTiffAttempt(file: Result<GeoTiffFile>, proj: Projection): Result<Delivery> {
    match file
    case Err(m) => Err("GeoTIFF parsing failed: " + m)
    case Ok(f) =>
      match DeriveBounds(f.image, proj)
      case Err(m) => Err(m)
      case Ok(bounds) =>
        match Render(f)
        case Err(m) => Err(m)
        case Ok(picture) => Ok(Delivery(picture, bounds))
  }

  /**
   * The whole of `processFile`: the GeoTIFF attempt, else the plain image
   * (`regular` holds its natural size, `None` when it cannot be decoded)
   * at the bounds typed into the prompt, else nothing delivered.
   */
  function Process(file: Result<GeoTiffFile>, proj: Projection, regular: Option<(nat, nat)>,
                   prompt: Option<string>, toNumber: NumberConversion): (Option<Delivery>, Info)
  {
    match GeoTiffAttempt(file, proj)
    case Ok(d) => (Some(d), GeoTiffProcessed(d.bounds))
    case Err(_) =>
      match regular
      case None => (None, CannotProcess("Cannot load as regular image"))
      case Some((w, h)) =>
        var picture := Redrawn(CanvasWidth(w, h), CanvasHeight(w, h));
        if prompt.Some? && prompt.value != "" && FourNumbers(prompt.value, toNumber).Some? then
          var b := ManualBounds(prompt, toNumber);
          (Some(Delivery(picture, b)), ManualCoordinatesApplied(b))
        else
          (Some(Delivery(picture, DefaultBounds)), DefaultCoordinatesApplied)
  }

  /**
   * A readable GeoTIFF with at least one band and a canvas of positive sides
   * is delivered at its own bounds; the prompt is never consulted.
   */
  lemma GeoTiffWins(f: GeoTiffFile, proj: Projection, regular: Option<(nat, nat)>,
                    prompt: Option<string>, toNumber: NumberConversion)
    requires DeriveBounds(f.image, proj).Ok? && |f.rasters| > 0
    requires CanvasWidth(f.image.width, f.image.height) > 0 && CanvasHeight(f.image.width, f.image.height) > 0
    ensures var (d, info) := Process(Ok(f), proj, regular, prompt, toNumber);
      d.Some? && d.value.bounds == DeriveBounds(f.image, proj).value && d.value.picture.Rendered? &&
      info == GeoTiffProcessed(d.value.bounds)
  {
  }

  /**
   * Something is delivered exactly when the GeoTIFF attempt succeeds or the
   * plain image decodes; a fallback delivery carries the typed bounds or the
   * default ones.
   */
  lemma DeliveryCases(file: Result<GeoTiffFile>, proj: Projection, regular: Option<(nat, nat)>,
                      prompt: Option<string>, toNumber: NumberConversion)
    ensures var (d, _) := Process(file, proj, regular, prompt, toNumber);
      (d.Some? <==> GeoTiffAttempt(file, proj).Ok? || regular.Some?) &&
      (d.Some? && GeoTiffAttempt(file, proj).Err? ==>
        d.value.picture.Redrawn? && d.value.bounds == ManualBounds(prompt, toNumber))
  {
  }

  /**
   * A raster whose canvas side scales to 0, such as a 1 x 4096 one, fails
   * as a GeoTIFF whatever its bounds and bands, so whatever is delivered is
   * the plain image at the typed or default bounds.
   */
  lemma ElongatedRasterFallsBack(f: GeoTiffFile, proj: Projection, regular: Option<(nat, nat)>,
                                 prompt: Option<string>, toNumber: NumberConversion)
    requires f.image.width * MaxDimension < Max(f.image.width, f.image.height)
    ensures GeoTiffAttempt(Ok(f), proj).Err?
    ensures var (d, _) := Process(Ok(f), proj, regular, prompt, toNumber);
      d.Some? ==> d.value.picture.Redrawn? && d.value.bounds == ManualBounds(prompt, toNumber)
  {
    CanvasSideZero(f.image.width, f.image.height);
  }

  /** A rendered picture fits the 2048-pixel canvas and holds four bytes per canvas pixel. */
  lemma RenderedFits(f: GeoTiffFile)
    requires Render(f).Ok?
    ensures var p := Render(f).value;
      p.width <= MaxDimension && p.height <= MaxDimension && |p.pixels| == p.width * p.height * 4
  {
    CanvasFits(f.image.width, f.image.height);
    var (w, h) := (f.image.width, f.image.height);
    var (cw, ch) := (CanvasWidth(w, h), CanvasHeight(w, h));
    RowStartOffset(cw, ch);
  }

  /**
   * The canvas drawing: the image data of the scaled canvas, which cannot
   * have a side of 0, then RGB from three or more bands, else grayscale.
   */
  method RenderFile(f: GeoTiffFile) returns (r: Result<Picture>)
    ensures r == Render(f)
  {
    var (w, h) := (f.image.width, f.image.height);
    var (cw, ch) := (CanvasWidth(w, h), CanvasHeight(w, h));
    if cw == 0 {
      return Err(ZeroWidthError);
    }
    if ch == 0 {
      return Err(ZeroHeightError);
    }
    if |f.rasters| == 0 {
      return Err(NoBandError);
    }
    var data;
    if |f.rasters| >= 3 {
      data := RenderRgb(f.rasters, w, h);
    } else {
      data := RenderGray(f.rasters[0], w, h);
    }
    r := Ok(Rendered(cw, ch, data[..]));
  }

  /**
   * The steps of `processFile` in order: the GeoTIFF attempt, and when it
   * fails the plain image at the prompted or the default bounds.
   */
  method ProcessSteps(file: Result<GeoTiffFile>, proj: Projection, regular: Option<(nat, nat)>,
                      prompt: Option<string>, toNumber: NumberConversion) returns (d: Option<Delivery>, info: Info)
    ensures (d, info) == Process(file, proj, regular, prompt, toNumber)
  {
    var attempt := GeoTiffAttempt(file, proj);
    if attempt.Ok? {
      var f := file.value;
      var rendered := RenderFile(f);
      var bounds := DeriveBounds(f.image, proj).value;
      return Some(Delivery(rendered.value, bounds)), GeoTiffProcessed(bounds);
    }
    if regular.None? {
      return None, CannotProcess("Cannot load as regular image");
    }
    var (w, h) := regular.value;
    var picture := Redrawn(CanvasWidth(w, h), CanvasHeight(w, h));
    if prompt.Some? && prompt.value != "" {
      var coords := FourNumbers(prompt.value, toNumber);
      if coords.Some? {
        var q := coords.value;
        var bounds := FromEdges(Real(q.first), Real(q.second), Real(q.third), Real(q.fourth));
        return Some(Delivery(picture, bounds)), ManualCoordinatesApplied(bounds);
      }
    }
    return Some(Delivery(picture, DefaultBounds)), DefaultCoordinatesApplied;
  }

  /** The component's state. */
  class Uploader {
    var isProcessing: bool
    var processedImage: Option<Picture>
    var geoInfo: Option<Info>
    /** Every call of `onImageProcessed`, in order. */
    var delivered: seq<Delivery>
    /** The number of `alert` dialogs shown. */
    var alerts: nat

    constructor()
      ensures !isProcessing && processedImage == None && geoInfo == None && delivered == [] && alerts == 0
    {
      isProcessing := false;
      processedImage := None;
      geoInfo := None;
      delivered := [];
      alerts := 0;
    }

    /** `processFile`: every path ends with `isProcessing` false. */
    method ProcessFile(file: Result<GeoTiffFile>, proj: Projection, regular: Option<(nat, nat)>,
                       prompt: Option<string>, toNumber: NumberConversion)
      modifies this
      ensures !isProcessing
      ensures var (d, info) := Process(file, proj, regular, prompt, toNumber);
        geoInfo == Some(info) &&
        (d.Some? ==> delivered == old(delivered) + [d.value] && processedImage == Some(d.value.picture) && alerts == old(alerts)) &&
        (d.None? ==> delivered == old(delivered) && processedImage == old(processedImage) && alerts == old(alerts) + 1)
    {
      isProcessing := true;
      var d, info := ProcessSteps(file, proj, regular, prompt, toNumber);
      geoInfo := Some(info);
      if d.Some? {
        processedImage := Some(d.value.picture);
        delivered := delivered + [d.value];
      } else {
        alerts := alerts + 1;
      }
      isProcessing := false;
    }

    /** `handleFileUpload`: with no file chosen nothing happens; otherwise the file is processed. */
    method HandleFileUpload(chosen: Option<Result<GeoTiffFile>>, proj: Projection, regular: Option<(nat, nat)>,
                            prompt: Option<string>, toNumber: NumberConversion)
      modifies this
      ensures chosen.None? ==>
        isProcessing == old(isProcessing) && delivered == old(delivered) && alerts == old(alerts) &&
        processedImage == old(processedImage) && geoInfo == old(geoInfo)
      ensures chosen.Some? ==> !isProcessing
      ensures chosen.Some? ==>
        var (d, info) := Process(chosen.value, proj, regular, prompt, toNumber);
        geoInfo == Some(info) &&
        (d.Some? ==> delivered == old(delivered) + [d.value] && processedImage == Some(d.value.picture) && alerts == old(alerts)) &&
        (d.None? ==> delivered == old(delivered) && processedImage == old(processedImage) && alerts == old(alerts) + 1)
    {
      if chosen.Some? {
        ProcessFile(chosen.value, proj, regular, prompt, toNumber);
      }
    }

    /** `handleAutoLoad`: a failed fetch alerts and stops; otherwise the fetched file is processed. */
    method AutoLoad(fetched: Option<Result<GeoTiffFile>>, proj: Projection, regular: Option<(nat, nat)>,
                    prompt: Option<string>, toNumber: NumberConversion)
      modifies this
      ensures !isProcessing
      ensures fetched.None? ==>
        delivered == old(delivered) && alerts == old(alerts) + 1 &&
        processedImage == old(processedImage) && geoInfo == old(geoInfo)
      ensures fetched.Some? ==> var (d, info) := Process(fetched.value, proj, regular, prompt, toNumber);
        geoInfo == Some(info) &&
        (d.Some? ==> delivered == old(delivered) + [d.value] && processedImage == Some(d.value.picture) && alerts == old(alerts)) &&
        (d.None? ==> delivered == old(delivered) && processedImage == old(processedImage) && alerts == old(alerts) + 1)
    {
      isProcessing := true;
      if fetched.None? {
        alerts := alerts + 1;
        isProcessing := false;
      } else {
        ProcessFile(fetched.value, proj, regular, prompt, toNumber);
      }
    }
  }
}
