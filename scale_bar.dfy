/** `generateScaleImage`: the layout of the scale bar, five adjacent
    one-centimetre unit rectangles, every second one filled, with a
    separator and a cumulative distance label at each trailing edge. The
    drawing calls are recorded as one `UnitCell` per rectangle. */
module ScaleBar {
  import opened JavaArith
  import opened Projection
  import opened FontFit

  /** Base size of the scale image, in px at 72 DPI. */
  const ScaleImgWidth: int := 170
  const ScaleImgHeight: int := 25
  /** Number of unit rectangles in the bar. */
  const NumScaleUnitRectangles: int := 5
  /** Space kept free on each side of a label, in px (not DPI-scaled). */
  const ScaleUnitMargin: int := 10

  datatype Rect = Rect(x: int, y: int, width: int, height: int)

  /** A `java.awt.Rectangle`, moved in place by `translate`. */
  class Rectangle {
    var x: int
    var y: int
    var width: int
    var height: int

    constructor (x0: int, y0: int, w: int, h: int)
      ensures Value() == Rect(x0, y0, w, h)
    {
      x, y, width, height := x0, y0, w, h;
    }

    function Value(): Rect
      reads this
    {
      Rect(x, y, width, height)
    }

    method Translate(dx: int, dy: int)
      modifies this
      ensures Value() == Rect(old(x) + dx, old(y) + dy, old(width), old(height))
    {
      x := x + dx;
      y := y + dy;
    }
  }

  /** What is drawn for one unit rectangle: the rectangle (filled or only
      outlined), the separator at its trailing edge, and its label, centred
      on the separator. */
  datatype UnitCell = UnitCell(box: Rect, filled: bool, separator: Rect, text: Label, textX: int, textY: int)

  datatype ScaleImage = ScaleImage(width: int, height: int, fontSize: real, cells: seq<UnitCell>)

  /** The label probed before drawing: the largest, that of the fifth unit. */
  function ProbeLabel(unit: real): (probe: Label)
    ensures probe == ScaleValue(Cumulative(unit, NumScaleUnitRectangles))
  {
    CumulativeIsMultiple(unit, NumScaleUnitRectangles);
    assert Cumulative(unit, NumScaleUnitRectangles) == unit * NumScaleUnitRectangles as real;
    ScaleValue(unit * NumScaleUnitRectangles as real)
  }

  /** The width the probe must fit: one unit minus a margin on each side. */
  function LabelSpan(dpi: int): (span: int)
    requires dpi > 0
    ensures span < 0 <==> dpi <= 48
    ensures span <= 0 <==> dpi <= 50
  {
    Dpc(dpi) - 2 * ScaleUnitMargin
  }

  /** Baseline of the labels: a quarter of the text height above the
      separators' top. */
  function TextY(imgHeight: int, txtHeight: nat): int
  {
    var top := imgHeight - imgHeight / 2 - 1;
    top - JDiv(top, 6) - txtHeight / 4
  }

  /** The cell the loop records for the `i`-th unit (0-based). */
  function UnitCellAt(i: nat, dpc: int, imgHeight: int, unit: real, fontSize: real, textY: int, m: Metrics): UnitCell
  {
    var top := imgHeight - imgHeight / 2 - 1;
    var sepHeight := JDiv(top, 6);
    var text := ScaleValue(Cumulative(unit, i + 1));
    var sepX := dpc / 2 + (i + 1) * dpc;
    UnitCell(Rect(dpc / 2 + i * dpc, top, dpc, imgHeight / 3), (i + 1) % 2 == 0,
             Rect(sepX, top - sepHeight, 1, sepHeight), text, sepX - m.stringWidth(fontSize, text) / 2, textY)
  }

  /** `generateScaleImage` (lines 171-255), drawing calls recorded. */
  method GenerateScaleImage(minX: real, maxX: real, mapWidth: int, dpi: int, m: Metrics) returns (img: ScaleImage)
    requires mapWidth != 0 && dpi > 0
    // a shrink by a zero-width probe would divide by zero
    requires LabelSpan(dpi) >= 0 || m.stringWidth(BaseFontSize(dpi) as real, ProbeLabel(ScaleUnitInMeter(minX, maxX, mapWidth))) > 0
    ensures img.width == ScaledSize(ScaleImgWidth, dpi) && img.height == ScaledSize(ScaleImgHeight, dpi)
    ensures img.fontSize == FittedSize(BaseFontSize(dpi) as real, LabelSpan(dpi) as real,
      m.stringWidth(BaseFontSize(dpi) as real, ProbeLabel(ScaleUnitInMeter(minX, maxX, mapWidth))) as real)
    ensures img.fontSize <= BaseFontSize(dpi) as real
    ensures |img.cells| == NumScaleUnitRectangles
    ensures forall i :: 0 <= i < |img.cells| ==>
      img.cells[i] == UnitCellAt(i, Dpc(dpi), img.height, ScaleUnitInMeter(minX, maxX, mapWidth), img.fontSize,
                                 TextY(img.height, m.lineHeight(BaseFontSize(dpi) as real)), m)
  {
    var scaleUnitInMeter := ScaleUnitInMeter(minX, maxX, mapWidth);
    var imgWidth := ScaledSize(ScaleImgWidth, dpi);
    var imgHeight := ScaledSize(ScaleImgHeight, dpi);
    var g := new Graphics.Configure(dpi);
    var dpc := Dpc(dpi);

    var unitRec := new Rectangle(0, imgHeight - imgHeight / 2 - 1, dpc, imgHeight / 3);
    unitRec.Translate(dpc / 2, 0);
    var sepHeight := JDiv(unitRec.y, 6);
    var separator := new Rectangle(unitRec.x, unitRec.y - sepHeight, 1, sepHeight);

    // the text height is measured with the font as configured, before fitting
    var txtHeight := m.lineHeight(g.fontSize);
    var txtYPos := separator.y - txtHeight / 4;
    assert txtYPos == TextY(imgHeight, txtHeight);
    var scaleInc := scaleUnitInMeter;

    var labelWidth := m.stringWidth(g.fontSize, ScaleValue(scaleInc * NumScaleUnitRectangles as real));
    var _ := g.AdjustFontSize((unitRec.width - 2 * ScaleUnitMargin) as real, labelWidth as real);
    FittedSizeNeverGrows(BaseFontSize(dpi) as real, LabelSpan(dpi) as real, labelWidth as real);

    var cells := DrawUnits(unitRec, separator, dpc, imgHeight, scaleUnitInMeter, g.fontSize, txtYPos, m);
    img := ScaleImage(imgWidth, imgHeight, g.fontSize, cells);
  }

  /** The drawing loop of `generateScaleImage` (lines 224-250): each round
      moves the separator to the end of the current rectangle, records the
      cell, and moves the rectangle one centimetre on. */
  method DrawUnits(unitRec: Rectangle, separator: Rectangle, dpc: int, imgHeight: int, unit: real,
                   fontSize: real, txtYPos: int, m: Metrics) returns (cells: seq<UnitCell>)
    requires unitRec != separator
    requires unitRec.Value() == Rect(dpc / 2, imgHeight - imgHeight / 2 - 1, dpc, imgHeight / 3)
    requires separator.Value() == Rect(dpc / 2, unitRec.y - JDiv(unitRec.y, 6), 1, JDiv(unitRec.y, 6))
    modifies unitRec, separator
    ensures |cells| == NumScaleUnitRectangles
    ensures forall i :: 0 <= i < |cells| ==> cells[i] == UnitCellAt(i, dpc, imgHeight, unit, fontSize, txtYPos, m)
    ensures unitRec.Value() == Rect(dpc / 2 + NumScaleUnitRectangles * dpc, old(unitRec.y), dpc, imgHeight / 3)
    ensures separator.Value() == Rect(dpc / 2 + NumScaleUnitRectangles * dpc, old(separator.y), 1, old(separator.height))
  {
    cells := [];
    var scaleInc := unit;
    ghost var top := imgHeight - imgHeight / 2 - 1;
    ghost var sepHeight := JDiv(top, 6);
    for i := 0 to NumScaleUnitRectangles
      invariant unitRec.Value() == Rect(dpc / 2 + i * dpc, top, dpc, imgHeight / 3)
      invariant separator.Value() == Rect(dpc / 2 + i * dpc, top - sepHeight, 1, sepHeight)
      invariant scaleInc == Cumulative(unit, i + 1)
      invariant |cells| == i
      invariant forall k :: 0 <= k < i ==> cells[k] == UnitCellAt(k, dpc, imgHeight, unit, fontSize, txtYPos, m)
    {
      // every second rectangle is filled
      var filled := (i + 1) % 2 == 0;
      // move the separator to the end of the unit rectangle
      separator.Translate(dpc, 0);
      var labelTxt := ScaleValue(scaleInc);
      var w := m.stringWidth(fontSize, labelTxt);
      cells := cells + [UnitCell(unitRec.Value(), filled, separator.Value(), labelTxt, separator.x - w / 2, txtYPos)];
      // move the unit rectangle one centimetre along the x axis
      unitRec.Translate(dpc, 0);
      assert dpc / 2 + i * dpc + dpc == dpc / 2 + (i + 1) * dpc;
      assert cells[i] == UnitCellAt(i, dpc, imgHeight, unit, fontSize, txtYPos, m);
      scaleInc := scaleInc + unit;
    }
  }

  /** The label value after `n` units, summed as the loop sums it. */
  function Cumulative(unit: real, n: nat): real
  {
    if n == 0 then 0.0 else Cumulative(unit, n - 1) + unit
  }

  /** The running sum is the `n`-th multiple of the unit. */
  lemma {:induction false} CumulativeIsMultiple(unit: real, n: nat)
    ensures Cumulative(unit, n) == unit * n as real
  {
    if n > 0 {
      CumulativeIsMultiple(unit, n - 1);
      assert unit * (n - 1) as real + unit == unit * n as real;
    }
  }

  /** The layout of each recorded cell: rectangle `i` starts `i` units after
      half a unit of margin, is filled when `i + 1` is even, ends at its
      separator, and is labelled with `i + 1` units, centred on the separator. */
  lemma UnitCellLayout(i: nat, dpc: int, imgHeight: int, unit: real, fontSize: real, textY: int, m: Metrics)
    ensures var c := UnitCellAt(i, dpc, imgHeight, unit, fontSize, textY, m);
      && c.box == Rect(dpc / 2 + i * dpc, imgHeight - imgHeight / 2 - 1, dpc, imgHeight / 3)
      && (c.filled <==> (i + 1) % 2 == 0)
      && c.separator.x == c.box.x + c.box.width == dpc / 2 + (i + 1) * dpc
      && c.text == ScaleValue(unit * (i + 1) as real)
      && c.textX == c.separator.x - m.stringWidth(fontSize, c.text) / 2
  {
    CumulativeIsMultiple(unit, i + 1);
  }

  /** Consecutive rectangles abut: each starts where the previous one's
      separator stands. */
  lemma UnitCellsAdjacent(i: nat, dpc: int, imgHeight: int, unit: real, fontSize: real, textY: int, m: Metrics)
    ensures UnitCellAt(i + 1, dpc, imgHeight, unit, fontSize, textY, m).box.x
         == UnitCellAt(i, dpc, imgHeight, unit, fontSize, textY, m).separator.x
  {
  }

  /** From 24 DPI up the whole bar, left margin included, fits the image:
      the right edge of the fifth rectangle is at most the image width. */
  lemma ScaleBarFitsImage(dpi: int)
    requires dpi >= 24
    ensures Dpc(dpi) / 2 + NumScaleUnitRectangles * Dpc(dpi) <= ScaledSize(ScaleImgWidth, dpi)
  {
    var dpc, w := Dpc(dpi), ScaledSize(ScaleImgWidth, dpi);
    if dpi < 34 {
      assert dpi in {24, 25, 26, 27, 28, 29, 30, 31, 32, 33};
    } else {
      assert dpc * 254 <= 100 * dpi + 253;
      assert 170 * dpi < w * 72 + 72;
      assert 2 * (dpc / 2) <= dpc;
    }
  }

  /** Below that it need not: at 23 DPI the bar overruns the image. */
  lemma ScaleBarOverrunsAt23()
    ensures Dpc(23) / 2 + NumScaleUnitRectangles * Dpc(23) > ScaledSize(ScaleImgWidth, 23)
  {
  }
}
