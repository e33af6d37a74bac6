/** Unit conversions of the generator: the DPI scale factor, DPI-scaled
    image sizes, the pixels in one centimetre, the scale-bar unit, and the
    projection of a real-world coordinate onto an image axis. Java doubles
    are modelled as exact reals. */
module Projection {
  import opened JavaArith

  /** `JAVA_DEFAULT_RESOLUTION`: the reference resolution in DPI. */
  const ReferenceDpi: real := 72.0
  /** `DPC`: centimetres per inch (the source names it "1 dot per cm"). */
  const CmPerInch: real := 2.54
  /** `AXIS_FONT_SIZE`: the base font size at the reference resolution. */
  const BaseAxisFontSize: real := 8.0

  /** `calculateDPIScale`: the factor that takes a size at 72 DPI to `dpi`. */
  function DpiScale(dpi: int): (s: real)
    requires dpi > 0
    ensures s > 0.0 && s * ReferenceDpi == dpi as real
  {
    dpi as real / ReferenceDpi
  }

  /** `(int) Math.floor(base * dpiScale)`: a base size in px scaled to `dpi`. */
  function ScaledSize(base: int, dpi: int): (n: int)
    requires base >= 0 && dpi > 0
    ensures n == base * dpi / 72
  {
    var x := base as real * DpiScale(dpi);
    assert x == (base * dpi) as real / 72.0;
    var n := Floor(x);
    DivIsUnique(base * dpi, 72, n);
    n
  }

  /** `(int) Math.ceil(dpi / DPC)`: how many pixels make one centimetre. */
  function Dpc(dpi: int): (n: int)
    requires dpi > 0
    ensures n == (100 * dpi + 253) / 254
    ensures n > 0
  {
    var n := Ceil(dpi as real / CmPerInch);
    assert (n - 1) * 254 < 100 * dpi <= n * 254;
    DivIsUnique(100 * dpi + 253, 254, n);
    n
  }

  /** `(int) Math.ceil(AXIS_FONT_SIZE * dpiScale)`: the font size every
      freshly configured graphics context starts with. */
  function BaseFontSize(dpi: int): (n: int)
    requires dpi > 0
    ensures n == (dpi + 8) / 9
    ensures n > 0
  {
    var n := Ceil(BaseAxisFontSize * DpiScale(dpi));
    assert (n - 1) * 9 < dpi <= n * 9;
    DivIsUnique(dpi + 8, 9, n);
    n
  }

  // ---- Projection -------------------------------------------------------

  /** The projection before `Math.round`: the distance from `minCoord` and
      the box extent are taken to centimetres and to pixels at 72 DPI, and
      the ratio of image extent to box extent is applied. */
  function UnroundedProjection(coord: real, extent: int, minCoord: real, maxCoord: real): real
    requires minCoord != maxCoord
  {
    var distanceCm := Abs(minCoord - coord) * 100.0;
    var deltaCm := Abs(maxCoord - minCoord) * 100.0;
    var ratio := extent as real / ((deltaCm * ReferenceDpi) / CmPerInch);
    ((distanceCm * ReferenceDpi) / CmPerInch) * ratio
  }

  /** `projectRealWorldCoordToImageCoord`: the pixel offset of `coord`. On a
      box of zero extent the only coordinate the callers project is
      `minCoord` itself: its zero distance times the infinite (or NaN) ratio
      is NaN, which `Math.round` takes to 0. */
  function ProjectToImage(coord: real, extent: int, minCoord: real, maxCoord: real): (p: int)
    requires minCoord != maxCoord || coord == minCoord
    ensures minCoord == maxCoord ==> p == 0
    ensures minCoord != maxCoord ==>
      p as real - 0.5 <= UnroundedProjection(coord, extent, minCoord, maxCoord) < p as real + 0.5
  {
    if minCoord == maxCoord then 0
    else RoundHalfUp(UnroundedProjection(coord, extent, minCoord, maxCoord))
  }

  /** The centimetre and DPI constants cancel: the projection is the linear
      interpolation of `coord` between the box bounds. */
  lemma ProjectionIsLinear(coord: real, extent: int, minCoord: real, maxCoord: real)
    requires minCoord < maxCoord && minCoord <= coord
    ensures UnroundedProjection(coord, extent, minCoord, maxCoord)
         == extent as real * (coord - minCoord) / (maxCoord - minCoord)
  {
    var k := 100.0 * ReferenceDpi / CmPerInch;
    var d, w, e := coord - minCoord, maxCoord - minCoord, extent as real;
    assert (d * 100.0 * ReferenceDpi) / CmPerInch == d * k;
    assert (w * 100.0 * ReferenceDpi) / CmPerInch == w * k;
    Cancel(d, e, w, k);
  }

  lemma Cancel(d: real, e: real, w: real, k: real)
    requires w > 0.0 && k > 0.0
    ensures (d * k) * (e / (w * k)) == e * d / w
  {
    var q := e / (w * k);
    assert q * (w * k) == e;
    assert (d * k) * q == d * (q * k);
    var p := e / w;
    assert p * w == e;
    assert (q * k) * w == e;
    assert q * k == p;
  }

  /** Both ends of the box land on both ends of the image. */
  lemma ProjectionEndpoints(extent: int, minCoord: real, maxCoord: real)
    requires minCoord < maxCoord
    ensures ProjectToImage(minCoord, extent, minCoord, maxCoord) == 0
    ensures ProjectToImage(maxCoord, extent, minCoord, maxCoord) == extent
  {
    ProjectionIsLinear(minCoord, extent, minCoord, maxCoord);
    ProjectionIsLinear(maxCoord, extent, minCoord, maxCoord);
    RoundHalfUpOfInt(0);
    RoundHalfUpOfInt(extent);
  }

  /** Moving `coord` up the axis never moves its pixel offset back. */
  lemma ProjectionMonotone(c1: real, c2: real, extent: int, minCoord: real, maxCoord: real)
    requires minCoord < maxCoord && minCoord <= c1 <= c2 && extent >= 0
    ensures ProjectToImage(c1, extent, minCoord, maxCoord) <= ProjectToImage(c2, extent, minCoord, maxCoord)
  {
    ProjectionIsLinear(c1, extent, minCoord, maxCoord);
    ProjectionIsLinear(c2, extent, minCoord, maxCoord);
    var e, w := extent as real, maxCoord - minCoord;
    assert e * (c2 - minCoord) - e * (c1 - minCoord) == e * (c2 - c1);
    assert e * (c1 - minCoord) / w <= e * (c2 - minCoord) / w by {
      DivMonotone(e * (c1 - minCoord), e * (c2 - minCoord), w);
    }
    RoundHalfUpMonotone(UnroundedProjection(c1, extent, minCoord, maxCoord),
                        UnroundedProjection(c2, extent, minCoord, maxCoord));
  }

  lemma DivMonotone(a: real, b: real, w: real)
    requires a <= b && w > 0.0
    ensures a / w <= b / w
  {
    assert b / w - a / w == (b - a) / w;
  }

  /** Every coordinate inside the box lands inside the image. */
  lemma ProjectionInImage(coord: real, extent: int, minCoord: real, maxCoord: real)
    requires minCoord <= coord <= maxCoord && extent >= 0
    ensures 0 <= ProjectToImage(coord, extent, minCoord, maxCoord) <= extent
  {
    if minCoord < maxCoord {
      ProjectionEndpoints(extent, minCoord, maxCoord);
      ProjectionMonotone(minCoord, coord, extent, minCoord, maxCoord);
      ProjectionMonotone(coord, maxCoord, extent, minCoord, maxCoord);
    }
  }

  // ---- Scale unit -------------------------------------------------------

  /** Lines 181-184: the box width in centimetres over the map width in
      centimetres at 72 DPI is the scale denominator; a hundredth of it is
      the metres one centimetre of map stands for, kept to four decimals. */
  function ScaleUnitInMeter(minX: real, maxX: real, mapWidth: int): (unit: real)
    requires mapWidth != 0
    ensures -0.00005 < unit - Abs(maxX - minX) / (mapWidth as real / ReferenceDpi * CmPerInch) <= 0.00005
    ensures Floor(unit * 10000.0) as real == unit * 10000.0
  {
    var bbWidthInCentimeter := Abs(maxX - minX) * 100.0;
    var scaleWidth := bbWidthInCentimeter / (mapWidth as real / ReferenceDpi * 2.54);
    var rounded := RoundHalfUp(scaleWidth * 100.0);
    assert scaleWidth / 100.0 == Abs(maxX - minX) / (mapWidth as real / ReferenceDpi * CmPerInch);
    assert Floor(rounded as real) == rounded;
    assert rounded as real / 10000.0 - scaleWidth / 100.0 == (rounded as real - scaleWidth * 100.0) / 10000.0;
    rounded as real / 10000.0
  }

  /** A negative map width gives a scale unit of at most 0, and so labels
      of at most 0. */
  lemma ScaleUnitNegativeWidth(minX: real, maxX: real, mapWidth: int)
    requires mapWidth < 0
    ensures ScaleUnitInMeter(minX, maxX, mapWidth) <= 0.0
  {
    var scaleWidth := Abs(maxX - minX) * 100.0 / (mapWidth as real / ReferenceDpi * 2.54);
    assert mapWidth as real / ReferenceDpi * 2.54 < 0.0;
    assert scaleWidth <= 0.0;
  }

  /** A 1000 m wide box on a 1000 px map: one scale unit is 28.3465 m. */
  lemma ScaleUnitExample()
    ensures ScaleUnitInMeter(0.0, 1000.0, 1000) == 28.3465
  {
    var scaleWidth := 100000.0 / (1000.0 / ReferenceDpi * 2.54);
    assert scaleWidth * 100.0 == 36000000.0 / 127.0;
    assert RoundHalfUp(36000000.0 / 127.0) == 283465;
  }
}
