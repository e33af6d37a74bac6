/** The label fitter: `adjustFontSize` and `adjustAxisFontSize`, which shrink
    the font of a graphics context so that the widest label fits a span.
    Font metrics belong to the drawing library and are taken as given. */
module FontFit {
  import opened JavaArith
  import opened Projection

  /** The texts whose width is measured. Their formatting (`DecimalFormat`,
      `String.valueOf`, `Double.toString`) is not modelled: a label is
      identified by the value it renders and by the formatting used. */
  datatype Label =
    | ScaleValue(meters: real)   // scale-bar label, pattern "0.#"
    | Coordinate(coord: int)     // axis label, `String.valueOf((int) c)`
    | CoordinateProbe(coord: int) // `Double.toString(c)`, used only to probe the axis font

  /** Font metrics of the drawing library, as functions of the font size:
      `stringWidth`, `getHeight`, and `charWidth(1)` (the code point 1). */
  datatype Metrics = Metrics(
    stringWidth: (real, Label) -> nat,
    lineHeight: real -> nat,
    charWidth: real -> nat)

  /** The font size after fitting a text of width `current` into `target`:
      shrunk linearly when it does not fit, unchanged otherwise. */
  function FittedSize(size: real, target: real, current: real): (r: real)
    requires current > target ==> current != 0.0
    ensures current > target ==> r * current == size * target
    ensures current <= target ==> r == size
  {
    if current > target then size * target / current else size
  }

  /** Fitting never enlarges the font. */
  lemma FittedSizeNeverGrows(size: real, target: real, current: real)
    requires size >= 0.0 && (current > target ==> current > 0.0)
    ensures FittedSize(size, target, current) <= size
  {
    if current > target {
      assert size * target <= size * current by {
        assert size * current - size * target == size * (current - target);
      }
      assert size * target / current <= size * current / current;
    }
  }

  /** A positive font whose text is too wide becomes strictly smaller. */
  lemma FittedSizeShrinks(size: real, target: real, current: real)
    requires size > 0.0 && current > target && current > 0.0
    ensures FittedSize(size, target, current) < size
  {
    assert size * current - size * target == size * (current - target);
    assert size * target / current < size * current / current;
  }

  /** Widths scale linearly with the font size, so the shrunk font makes the
      measured text exactly as wide as the target. */
  lemma FittedSizeFitsExactly(size: real, target: real, current: real)
    requires size != 0.0 && current > target && current > 0.0
    ensures current * (FittedSize(size, target, current) / size) == target
  {
    var r := size * target / current;
    assert r * current == size * target;
    assert current * (r / size) == (r * current) / size;
  }

  /** Re-fitting against the same target, with the width the shrunk font
      gives under linear scaling, changes nothing. */
  lemma FittedSizeIdempotent(size: real, target: real, current: real)
    requires size > 0.0 && current > 0.0
    ensures FittedSize(FittedSize(size, target, current), target,
                       current * (FittedSize(size, target, current) / size))
         == FittedSize(size, target, current)
  {
    if current > target {
      FittedSizeFitsExactly(size, target, current);
    } else {
      assert current * (size / size) == current;
    }
  }

  /** The width of the axis probe: the last (largest) mark's text. */
  function ProbeWidth(size: real, coords: seq<int>, m: Metrics): nat
    requires coords != []
  {
    m.stringWidth(size, CoordinateProbe(coords[|coords| - 1]))
  }

  /** `(int) Math.abs(imgCoords[1] - imgCoords[0])`: the first gap. */
  function FirstGap(imgCoords: seq<int>): (gap: nat)
    requires |imgCoords| > 1
    ensures gap as real == Abs((imgCoords[1] - imgCoords[0]) as real)
  {
    if imgCoords[1] >= imgCoords[0] then imgCoords[1] - imgCoords[0] else imgCoords[0] - imgCoords[1]
  }

  /** The axis font: probed with the width of the last (largest) mark and
      fitted into the gap between the first two projected marks. */
  function AxisFontSize(size: real, coords: seq<int>, imgCoords: seq<int>, m: Metrics): real
  {
    if coords == [] || |imgCoords| <= 1 then size
    else FittedSize(size, FirstGap(imgCoords) as real, ProbeWidth(size, coords, m) as real)
  }

  /** With fewer than two marks the axis font is never touched, and it never
      grows. */
  lemma AxisFontSizeNeverGrows(size: real, coords: seq<int>, imgCoords: seq<int>, m: Metrics)
    requires size >= 0.0
    ensures AxisFontSize(size, coords, imgCoords, m) <= size
    ensures |coords| <= 1 && |imgCoords| == |coords| ==> AxisFontSize(size, coords, imgCoords, m) == size
  {
    if coords != [] && |imgCoords| > 1 {
      FittedSizeNeverGrows(size, FirstGap(imgCoords) as real, ProbeWidth(size, coords, m) as real);
    }
  }

  /** The graphics context's mutable font, as far as the layout uses it. */
  class Graphics {
    var fontSize: real

    /** `configureImageGraphics`: the font size part of the configuration. */
    constructor Configure(dpi: int)
      requires dpi > 0
      ensures fontSize == BaseFontSize(dpi) as real
    {
      fontSize := BaseFontSize(dpi) as real;
    }

    /** `adjustFontSize`: shrink when the text is wider than the target. */
    method AdjustFontSize(targetWidth: real, currentWidth: real) returns (adjusted: bool)
      requires currentWidth > targetWidth ==> currentWidth != 0.0
      modifies this
      ensures adjusted <==> currentWidth > targetWidth
      ensures fontSize == FittedSize(old(fontSize), targetWidth, currentWidth)
      ensures !adjusted ==> fontSize == old(fontSize)
    {
      if currentWidth > targetWidth {
        var size := fontSize;
        var newFontSize := size * targetWidth / currentWidth;
        fontSize := newFontSize;
        return true;
      }
      return false;
    }

    /** `adjustAxisFontSize`: nothing to do without marks or with a single
      mark; otherwise fit the last mark's text into the first gap. */
    method AdjustAxisFontSize(realWorldCoords: seq<int>, imgCoords: seq<int>, m: Metrics) returns (adjusted: bool)
      modifies this
      ensures fontSize == AxisFontSize(old(fontSize), realWorldCoords, imgCoords, m)
      ensures adjusted <==>
        (realWorldCoords != [] && |imgCoords| > 1 && ProbeWidth(old(fontSize), realWorldCoords, m) > FirstGap(imgCoords))
    {
      if realWorldCoords == [] {
        return false;
      }
      // the last coordinate is the largest, so its text is taken as the widest
      var maxStringWidth := m.stringWidth(fontSize, CoordinateProbe(realWorldCoords[|realWorldCoords| - 1]));
      if |imgCoords| > 1 {
        var distanceBetweenImgCoords := FirstGap(imgCoords);
        adjusted := AdjustFontSize(distanceBetweenImgCoords as real, maxStringWidth as real);
        return;
      }
      return false;
    }
  }
}
