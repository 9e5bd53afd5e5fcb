/**
 * Rendering a GeoTIFF raster onto the RGBA pixel buffer of a canvas: the
 * nested fill loops for three-band (RGB) and single-band (grayscale)
 * rasters and the min/max scan used to stretch a grayscale band to
 * 0..255. The buffer is a `Uint8ClampedArray`, so every store is clamped
 * to a byte (and non-integers rounded half to even).
 */
module Raster {
  import opened Wrappers
  import opened GeoTiff

  /** One element of a `Uint8ClampedArray`. */
  type Byte = b: int | 0 <= b < 256

  /** A canvas pixel as red, green, blue and alpha bytes. */
  datatype Rgba = Rgba(red: Byte, green: Byte, blue: Byte, alpha: Byte)

  /** `band[i] || 0`: an index outside the band reads `undefined`, which becomes 0. */
  function SampleAt(band: seq<real>, i: int): (v: real)
    ensures 0 <= i < |band| ==> v == band[i]
    ensures !(0 <= i < |band|) ==> v == 0.0
  {
    if 0 <= i < |band| then band[i] else 0.0
  }

  /** The integer nearest to `v`, ties going to the even one. */
  function RoundHalfEven(v: real): int {
    var f := v.Floor;
    var d := v - f as real;
    if d < 0.5 then f
    else if d > 0.5 then f + 1
    else if f % 2 == 0 then f else f + 1
  }

  /** Storing a number into a `Uint8ClampedArray`: clamped to 0..255, then rounded half to even. */
  function ClampedStore(v: real): (b: Byte)
    ensures v <= 0.0 ==> b == 0
    ensures v >= 255.0 ==> b == 255
    ensures 0.0 <= v <= 255.0 ==> (b as real - v) * 2.0 <= 1.0 && (v - b as real) * 2.0 <= 1.0
  {
    if v <= 0.0 then 0
    else if v >= 255.0 then 255
    else RoundHalfEven(v)
  }

  /** `Math.min(255, Math.max(0, value))`, then stored. */
  function RgbChannel(sample: real): Byte {
    var lifted := if sample < 0.0 then 0.0 else sample;
    ClampedStore(if lifted > 255.0 then 255.0 else lifted)
  }

  /** An 8-bit sample is copied unchanged; anything else is clamped to the nearest byte. */
  lemma RgbChannelCopiesBytes(sample: real)
    ensures 0.0 <= sample <= 255.0 && sample == sample.Floor as real ==> RgbChannel(sample) == sample.Floor
    ensures sample <= 0.0 ==> RgbChannel(sample) == 0
    ensures sample >= 255.0 ==> RgbChannel(sample) == 255
  {
  }

  /** Pixel (x, y) of an RGB rendering: the first three bands at the sampled source index, opaque. */
  function RgbPixel(bands: seq<seq<real>>, width: nat, height: nat, x: nat, y: nat): Rgba
    requires |bands| >= 3
  {
    var i := SourceIndex(width, height, x, y);
    Rgba(RgbChannel(SampleAt(bands[0], i)), RgbChannel(SampleAt(bands[1], i)), RgbChannel(SampleAt(bands[2], i)), 255)
  }

  /** The smallest and largest sample of a band; `None` for an empty band. */
  function Extremes(band: seq<real>): Option<(real, real)> {
    if |band| == 0 then None
    else
      var last := band[|band| - 1];
      match Extremes(band[..|band| - 1])
      case None => Some((last, last))
      case Some((lo, hi)) => Some((if last < lo then last else lo, if last > hi then last else hi))
  }

  /** The extremes are samples of the band and every sample lies between them. */
  lemma {:induction false} ExtremesBound(band: seq<real>)
    ensures Extremes(band).None? <==> |band| == 0
    ensures Extremes(band).Some? ==> var (lo, hi) := Extremes(band).value;
      lo in band && hi in band && forall k :: 0 <= k < |band| ==> lo <= band[k] <= hi
  {
    if |band| > 0 {
      var front := band[..|band| - 1];
      ExtremesBound(front);
      assert band == front + [band[|band| - 1]];
    }
  }

  /** The min/max scan over every sample of the band. */
  method MinMax(band: seq<real>) returns (range: Option<(real, real)>)
    ensures range == Extremes(band)
    ensures range.Some? ==> forall k :: 0 <= k < |band| ==> range.value.0 <= band[k] <= range.value.1
  {
    range := None;
    var i := 0;
    while i < |band|
      invariant 0 <= i <= |band|
      invariant range == Extremes(band[..i])
    {
      var val := band[i];
      assert band[..i + 1][..i] == band[..i];
      if range.None? {
        range := Some((val, val));
      } else {
        var (lo, hi) := range.value;
        range := Some((if val < lo then val else lo, if val > hi then val else hi));
      }
      i := i + 1;
    }
    assert band[..i] == band;
    ExtremesBound(band);
  }

  /**
   * `Math.floor((raw - min) / (max - min) * 255)`, stored. With no samples
   * the bounds stay at +/-Infinity and the quotient is NaN (stored as 0);
   * with a flat band (max == min) the quotient is NaN at `min` and
   * +/-Infinity elsewhere.
   */
  function GrayLevel(raw: real, range: Option<(real, real)>): Byte {
    match range
    case None => 0
    case Some((lo, hi)) =>
      if hi != lo then ClampedStore(((raw - lo) / (hi - lo) * 255.0).Floor as real)
      else if raw > lo then 255
      else 0
  }

  /** Stretching maps the minimum to black, the maximum to white and keeps the order of samples in between. */
  lemma GrayLevelStretch(lo: real, hi: real, a: real, b: real)
    requires lo < hi
    ensures GrayLevel(lo, Some((lo, hi))) == 0 && GrayLevel(hi, Some((lo, hi))) == 255
    ensures a <= b ==> GrayLevel(a, Some((lo, hi))) <= GrayLevel(b, Some((lo, hi)))
  {
    var d := hi - lo;
    assert (hi - lo) / d == 1.0;
    StoredInteger(0);
    StoredInteger(255);
    if a <= b {
      var u := (a - lo) / d;
      var v := (b - lo) / d;
      QuotientMonotone(a - lo, b - lo, d);
      assert u * 255.0 <= v * 255.0;
      var m := (u * 255.0).Floor;
      var n := (v * 255.0).Floor;
      assert m <= n;
      StoredIntegerMonotone(m, n);
    }
  }

  lemma QuotientMonotone(p: real, q: real, d: real)
    requires 0.0 < d && p <= q
    ensures p / d <= q / d
  {
    assert q / d - p / d == (q - p) / d;
  }

  /** Integers within a byte are stored unchanged. */
  lemma StoredInteger(k: int)
    requires 0 <= k < 256
    ensures ClampedStore(k as real) == k
  {
    if 0 < k < 255 {
      assert (k as real).Floor == k;
    }
  }

  lemma StoredIntegerMonotone(m: int, n: int)
    requires m <= n
    ensures ClampedStore(m as real) <= ClampedStore(n as real)
  {
    if 0 <= m < 256 {
      StoredInteger(m);
    }
    if 0 <= n < 256 {
      StoredInteger(n);
    }
  }

  /** A band whose samples are all equal renders black. */
  lemma FlatBandIsBlack(v: real)
    ensures GrayLevel(v, Some((v, v))) == 0
  {
  }

  /** Pixel (x, y) of a grayscale rendering: the stretched sample in all three colour channels, opaque. */
  function GrayPixel(band: seq<real>, range: Option<(real, real)>, width: nat, height: nat, x: nat, y: nat): Rgba {
    var level := GrayLevel(SampleAt(band, SourceIndex(width, height, x, y)), range);
    Rgba(level, level, level, 255)
  }

  /** The per-pixel computation of each branch, as a function of the canvas position. */
  function RgbShader(bands: seq<seq<real>>, width: nat, height: nat): (nat, nat) -> Rgba
    requires |bands| >= 3
  {
    (x: nat, y: nat) => RgbPixel(bands, width, height, x, y)
  }

  function GrayShader(band: seq<real>, range: Option<(real, real)>, width: nat, height: nat): (nat, nat) -> Rgba {
    (x: nat, y: nat) => GrayPixel(band, range, width, height, x, y)
  }

  /** The four bytes of a pixel in `ImageData` order. */
  function Quad(px: Rgba): seq<Byte> {
    [px.red, px.green, px.blue, px.alpha]
  }

  /** The pixels of a `cw` x `ch` canvas, row after row. */
  function Grid(cw: nat, ch: nat, pixel: (nat, nat) -> Rgba): (g: seq<Rgba>)
    ensures |g| == cw * ch
  {
    if cw == 0 then []
    else seq(cw * ch, p requires 0 <= p < cw * ch => pixel(p % cw, p / cw))
  }

  /** The bytes of a pixel buffer, four per pixel. */
  function Bytes(pixels: seq<Rgba>): (b: seq<Byte>)
    ensures |b| == 4 * |pixels|
  {
    seq(4 * |pixels|, j requires 0 <= j < 4 * |pixels| => Quad(pixels[j / 4])[j % 4])
  }

  /** The `ImageData` buffer of a `cw` x `ch` canvas. */
  function ImageBytes(cw: nat, ch: nat, pixel: (nat, nat) -> Rgba): seq<Byte> {
    Bytes(Grid(cw, ch, pixel))
  }

  lemma DivMod(n: int, d: int, q: int, r: int)
    requires 0 < d && 0 <= r < d && n == q * d + r
    ensures n / d == q && n % d == r
  {
    var k := n / d - q;
    assert k * d == r - n % d;
    MulAwayFromZero(k, d);
  }

  lemma MulAwayFromZero(k: int, d: int)
    requires 0 < d
    ensures k > 0 ==> k * d >= d
    ensures k < 0 ==> k * d <= -d
  {
  }

  /** The four bytes of pixel (x, y) are bytes `(y * cw + x) * 4` to `(y * cw + x) * 4 + 3` of the buffer. */
  lemma PixelAt(cw: nat, ch: nat, pixel: (nat, nat) -> Rgba, x: nat, y: nat)
    requires x < cw && y < ch
    ensures (y * cw + x) * 4 + 4 <= |ImageBytes(cw, ch, pixel)|
    ensures ImageBytes(cw, ch, pixel)[(y * cw + x) * 4..(y * cw + x) * 4 + 4] == Quad(pixel(x, y))
  {
    RowMajorInBounds(x, y, cw, ch);
    var p := y * cw + x;
    DivMod(p, cw, y, x);
    var grid := Grid(cw, ch, pixel);
    assert grid[p] == pixel(x, y);
    var bytes := Bytes(grid);
    forall c | 0 <= c < 4
      ensures bytes[p * 4 + c] == Quad(pixel(x, y))[c]
    {
      DivMod(p * 4 + c, 4, p, c);
    }
  }

  /** Where row `y` of a `cw`-pixel-wide buffer begins, counted one row at a time. */
  function RowStart(cw: nat, y: nat): nat {
    if y == 0 then 0 else RowStart(cw, y - 1) + cw * 4
  }

  lemma {:induction false} RowStartOffset(cw: nat, y: nat)
    ensures RowStart(cw, y) == y * cw * 4
  {
    if y > 0 {
      RowStartOffset(cw, y - 1);
      assert (y - 1) * cw * 4 + cw * 4 == y * cw * 4;
    }
  }

  lemma {:induction false} RowStartMonotone(cw: nat, y: nat, ch: nat)
    requires y <= ch
    ensures RowStart(cw, y) <= RowStart(cw, ch)
  {
    if y < ch {
      RowStartMonotone(cw, y, ch - 1);
    }
  }

  lemma RowOffset(cw: nat, x: nat, y: nat, rowStart: int)
    requires rowStart == y * cw * 4
    ensures (y * cw + x) * 4 == rowStart + 4 * x
  {
  }

  /** Storing the four bytes of the next pixel extends the prefix that agrees with the image by one pixel. */
  lemma StoredPixel(before: seq<Byte>, after: seq<Byte>, image: seq<Byte>, i: nat, px: Rgba)
    requires i + 4 <= |before| == |image|
    requires before[..i] == image[..i] && image[i..i + 4] == Quad(px)
    requires after == before[i := px.red][i + 1 := px.green][i + 2 := px.blue][i + 3 := px.alpha]
    ensures after[..i + 4] == image[..i + 4]
  {
    assert after[..i] == before[..i];
    assert after[i..i + 4] == Quad(px);
    assert after[..i + 4] == after[..i] + after[i..i + 4];
    assert image[..i + 4] == image[..i] + image[i..i + 4];
  }

  /**
   * The nested fill loop shared by both branches: row by row, pixel by
   * pixel, the four bytes at `(y * cw + x) * 4` receive the pixel's red,
   * green, blue and alpha.
   */
  method FillImageData(cw: nat, ch: nat, pixel: (nat, nat) -> Rgba) returns (data: array<Byte>)
    ensures fresh(data)
    ensures data[..] == ImageBytes(cw, ch, pixel)
  {
    RowStartOffset(cw, ch);
    data := new Byte[cw * ch * 4](_ => 0);
    var y := 0;
    while y < ch
      invariant 0 <= y <= ch && data.Length == |ImageBytes(cw, ch, pixel)| == RowStart(cw, ch)
      invariant RowStart(cw, y) <= data.Length
      invariant data[..RowStart(cw, y)] == ImageBytes(cw, ch, pixel)[..RowStart(cw, y)]
    {
      RowStartMonotone(cw, y + 1, ch);
      FillRow(data, cw, ch, pixel, y);
      y := y + 1;
    }
    assert data[..] == data[..RowStart(cw, ch)];
  }

  /** The inner loop: the pixels of row `y`, left to right. */
  method FillRow(data: array<Byte>, cw: nat, ch: nat, pixel: (nat, nat) -> Rgba, y: nat)
    requires y < ch && data.Length == |ImageBytes(cw, ch, pixel)| && RowStart(cw, y + 1) <= data.Length
    requires data[..RowStart(cw, y)] == ImageBytes(cw, ch, pixel)[..RowStart(cw, y)]
    modifies data
    ensures data[..RowStart(cw, y + 1)] == ImageBytes(cw, ch, pixel)[..RowStart(cw, y + 1)]
  {
    ghost var image := ImageBytes(cw, ch, pixel);
    ghost var rowStart := RowStart(cw, y);
    RowStartOffset(cw, y);
    var x := 0;
    while x < cw
      invariant 0 <= x <= cw && rowStart + x * 4 <= data.Length
      invariant data[..rowStart + x * 4] == image[..rowStart + x * 4]
    {
      var pixelIndex := (y * cw + x) * 4;
      RowOffset(cw, x, y, rowStart);
      var px := pixel(x, y);
      PixelAt(cw, ch, pixel, x, y);
      ghost var before := data[..];
      data[pixelIndex] := px.red;
      data[pixelIndex + 1] := px.green;
      data[pixelIndex + 2] := px.blue;
      data[pixelIndex + 3] := px.alpha;
      StoredPixel(before, data[..], image, pixelIndex, px);
      x := x + 1;
    }
  }

  /** The RGB rendering of the first three bands onto the scaled canvas. */
  function RgbImage(bands: seq<seq<real>>, width: nat, height: nat): seq<Byte>
    requires |bands| >= 3
  {
    ImageBytes(CanvasWidth(width, height), CanvasHeight(width, height), RgbShader(bands, width, height))
  }

  /** Every pixel of an RGB rendering is opaque and carries the clamped bands at its source pixel, which lies inside the raster. */
  lemma RgbImagePixels(bands: seq<seq<real>>, width: nat, height: nat, x: nat, y: nat)
    requires |bands| >= 3
    requires x < CanvasWidth(width, height) && y < CanvasHeight(width, height)
    ensures var i := (y * CanvasWidth(width, height) + x) * 4;
      var img := RgbImage(bands, width, height);
      var src := SourceIndex(width, height, x, y);
      i + 4 <= |img| && 0 <= src < width * height &&
      img[i..i + 4] == [RgbChannel(SampleAt(bands[0], src)), RgbChannel(SampleAt(bands[1], src)),
                        RgbChannel(SampleAt(bands[2], src)), 255]
  {
    var shader := RgbShader(bands, width, height);
    PixelAt(CanvasWidth(width, height), CanvasHeight(width, height), shader, x, y);
    assert shader(x, y) == RgbPixel(bands, width, height, x, y);
    SourceIndexInBounds(width, height, x, y);
  }

  /** The branch for rasters with three or more bands. */
  method RenderRgb(bands: seq<seq<real>>, width: nat, height: nat) returns (data: array<Byte>)
    requires |bands| >= 3
    ensures fresh(data)
    ensures data[..] == RgbImage(bands, width, height)
  {
    data := FillImageData(CanvasWidth(width, height), CanvasHeight(width, height), RgbShader(bands, width, height));
  }

  /** The grayscale rendering of one band, stretched between its extremes. */
  function GrayImage(band: seq<real>, width: nat, height: nat): seq<Byte> {
    ImageBytes(CanvasWidth(width, height), CanvasHeight(width, height), GrayShader(band, Extremes(band), width, height))
  }

  /** Every grayscale pixel is opaque with three equal channels holding the stretched sample. */
  lemma GrayImagePixels(band: seq<real>, width: nat, height: nat, x: nat, y: nat)
    requires x < CanvasWidth(width, height) && y < CanvasHeight(width, height)
    ensures var i := (y * CanvasWidth(width, height) + x) * 4;
      var img := GrayImage(band, width, height);
      var level := GrayLevel(SampleAt(band, SourceIndex(width, height, x, y)), Extremes(band));
      i + 4 <= |img| && img[i..i + 4] == [level, level, level, 255]
  {
    var shader := GrayShader(band, Extremes(band), width, height);
    PixelAt(CanvasWidth(width, height), CanvasHeight(width, height), shader, x, y);
    assert shader(x, y) == GrayPixel(band, Extremes(band), width, height, x, y);
  }

  /** The branch for rasters with fewer than three bands: the min/max scan, then the fill. */
  method RenderGray(band: seq<real>, width: nat, height: nat) returns (data: array<Byte>)
    ensures fresh(data)
    ensures data[..] == GrayImage(band, width, height)
  {
    var range := MinMax(band);
    data := FillImageData(CanvasWidth(width, height), CanvasHeight(width, height), GrayShader(band, range, width, height));
  }
}
