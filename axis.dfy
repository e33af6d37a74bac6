/** The axis rulers: `generateVerticalAxisWithGrid` and
    `generateHorizontalAxisWithGrid`, and their variants that derive the grid
    from the map scale. One tick per grid mark; a label beside it when the
    label passes the source's containment check. Drawing calls are recorded
    as one `AxisMark` per mark. */
module Axis {
  import opened JavaArith
  import opened GridSizing
  import opened Marks
  import opened Projection
  import opened FontFit

  /** Base width of the vertical axis image, in px at 72 DPI. */
  const VerticalAxisWidth: int := 25
  /** Base height of the horizontal axis image, in px at 72 DPI. */
  const HorizontalAxisHeight: int := 25

  /** Where a mark's label is drawn, if at all (top-left corner of the
      rotated text image on the vertical axis, the text origin on the
      horizontal one). */
  datatype Placement = NoLabel | LabelAt(text: Label, x: int, y: int)

  /** One mark: its real-world coordinate, its projected offset along the
      axis, the image coordinate of its tick line, and its label. */
  datatype AxisMark = AxisMark(coord: int, pos: int, tick: int, placement: Placement)

  datatype AxisImage = AxisImage(width: int, height: int, gridSize: int, fontSize: real, marks: seq<AxisMark>)

  /** On a box of zero extent only its own bound can be projected. */
  predicate Projectable(coords: seq<int>, minCoord: real, maxCoord: real)
  {
    forall i :: 0 <= i < |coords| ==> minCoord != maxCoord || coords[i] as real == minCoord
  }

  /** The `imgCoordinates` array: every mark projected onto the axis. */
  function Projected(coords: seq<int>, extent: int, minCoord: real, maxCoord: real): (ps: seq<int>)
    requires Projectable(coords, minCoord, maxCoord)
    ensures |ps| == |coords|
  {
    seq(|coords|, i requires 0 <= i < |coords| => ProjectToImage(coords[i] as real, extent, minCoord, maxCoord))
  }

  // ---- Vertical axis ----------------------------------------------------

  /** One mark of the vertical axis: the tick is flipped (image y grows
      downward), and the rotated label is drawn only when `imgY + textWidth`
      stays below the image height. */
  function VerticalMark(coord: int, imgY: int, imgWidth: int, imgHeight: int, fontSize: real, m: Metrics): AxisMark
  {
    var text := Coordinate(coord);
    var textWidth := m.stringWidth(fontSize, text);
    AxisMark(coord, imgY, imgHeight - imgY,
      if imgY + textWidth < imgHeight
      then LabelAt(text, imgWidth / 2, imgHeight - imgY - textWidth - m.charWidth(fontSize))
      else NoLabel)
  }

  /** The marks of the vertical axis, one per projected coordinate. */
  function VerticalMarks(coords: seq<int>, imgCoords: seq<int>, imgWidth: int, imgHeight: int, fontSize: real, m: Metrics): (marks: seq<AxisMark>)
    requires |imgCoords| == |coords|
    ensures |marks| == |coords|
  {
    seq(|coords|, i requires 0 <= i < |coords| => VerticalMark(coords[i], imgCoords[i], imgWidth, imgHeight, fontSize, m))
  }

  /** The vertical axis image for a grid size. */
  function VerticalAxis(minY: real, maxY: real, mapHeight: int, dpi: int, gridSize: int, m: Metrics): AxisImage
    requires mapHeight > 0 && dpi > 0 && gridSize > 0
  {
    var imgWidth := ScaledSize(VerticalAxisWidth, dpi);
    var imgHeight := ScaledSize(mapHeight, dpi);
    var coords := SuitableCoordinates(Ceil(minY), Floor(maxY), gridSize);
    MarksInsideBox(minY, maxY, gridSize);
    var imgCoords := Projected(coords, imgHeight, minY, maxY);
    var fontSize := AxisFontSize(BaseFontSize(dpi) as real, coords, imgCoords, m);
    AxisImage(imgWidth, imgHeight, gridSize, fontSize, VerticalMarks(coords, imgCoords, imgWidth, imgHeight, fontSize, m))
  }

  /** `generateVerticalAxisWithGrid` (lines 403-491), drawing calls recorded. */
  method GenerateVerticalAxisWithGrid(minY: real, maxY: real, mapHeight: int, dpi: int, gridSize: int, m: Metrics)
    returns (img: AxisImage)
    requires mapHeight > 0 && dpi > 0
    requires InIntRange(Ceil(minY), Floor(maxY), gridSize)
    ensures img == VerticalAxis(minY, maxY, mapHeight, dpi, gridSize, m)
  {
    var imgWidth := ScaledSize(VerticalAxisWidth, dpi);
    var imgHeight := ScaledSize(mapHeight, dpi);
    var g := new Graphics.Configure(dpi);
    var realWorldYCoords := FindSuitableCoordinates(Ceil(minY), Floor(maxY), gridSize);
    MarksInsideBox(minY, maxY, gridSize);
    var imgCoordinates := ProjectAll(realWorldYCoords, imgHeight, minY, maxY);
    var _ := g.AdjustAxisFontSize(realWorldYCoords, imgCoordinates[..], m);
    var marks := DrawVerticalMarks(realWorldYCoords, imgCoordinates, imgWidth, imgHeight, g.fontSize, m);
    img := AxisImage(imgWidth, imgHeight, gridSize, g.fontSize, marks);
  }

  /** The drawing loop of `generateVerticalAxisWithGrid` (lines 447-486). */
  method DrawVerticalMarks(realWorldYCoords: seq<int>, imgCoordinates: array<int>, imgWidth: int, imgHeight: int,
                           fontSize: real, m: Metrics) returns (marks: seq<AxisMark>)
    requires imgCoordinates.Length == |realWorldYCoords|
    ensures marks == VerticalMarks(realWorldYCoords, imgCoordinates[..], imgWidth, imgHeight, fontSize, m)
  {
    marks := [];
    for i := 0 to imgCoordinates.Length
      invariant |marks| == i
      invariant forall k :: 0 <= k < i ==>
        marks[k] == VerticalMark(realWorldYCoords[k], imgCoordinates[k], imgWidth, imgHeight, fontSize, m)
    {
      var realWorldY := realWorldYCoords[i];
      var imgY := imgCoordinates[i];
      // the tick line spans the image width at y = imgHeight - imgY
      var text := Coordinate(realWorldY);
      var textWidth := m.stringWidth(fontSize, text);
      var placement := NoLabel;
      // draw the text only if it does not cross the image boundary
      if imgY + textWidth < imgHeight {
        var charWidth := m.charWidth(fontSize);
        var xTxtPos := imgWidth / 2;
        var yTxtPos := imgHeight - imgY - textWidth - charWidth;
        placement := LabelAt(text, xTxtPos, yTxtPos);
      }
      marks := marks + [AxisMark(realWorldY, imgY, imgHeight - imgY, placement)];
    }
  }

  /** The projection loop of both axes: fills `imgCoordinates`. */
  method ProjectAll(realWorldCoords: seq<int>, extent: int, minCoord: real, maxCoord: real)
    returns (imgCoordinates: array<int>)
    requires Projectable(realWorldCoords, minCoord, maxCoord)
    ensures fresh(imgCoordinates)
    ensures imgCoordinates[..] == Projected(realWorldCoords, extent, minCoord, maxCoord)
  {
    imgCoordinates := new int[|realWorldCoords|];
    for i := 0 to imgCoordinates.Length
      invariant imgCoordinates[..i] == Projected(realWorldCoords, extent, minCoord, maxCoord)[..i]
    {
      imgCoordinates[i] := ProjectToImage(realWorldCoords[i] as real, extent, minCoord, maxCoord);
    }
    assert imgCoordinates[..] == imgCoordinates[..imgCoordinates.Length];
  }

  /** `generateVerticalAxis` with an int scale (lines 374-384): the grid comes
      from the step table. */
  method GenerateVerticalAxis(minY: real, maxY: real, mapHeight: int, dpi: int, scale: int, m: Metrics)
    returns (img: AxisImage)
    requires mapHeight > 0 && dpi > 0
    requires InIntRange(Ceil(minY), Floor(maxY), GridSize(scale))
    ensures img == VerticalAxis(minY, maxY, mapHeight, dpi, GridSize(scale), m)
    ensures img.gridSize == GridSize(scale)
  {
    var gridSize := GridSize(scale);
    img := GenerateVerticalAxisWithGrid(minY, maxY, mapHeight, dpi, gridSize, m);
  }

  /** One tick per grid mark, in mark order; every tick lies on the image;
      the font is never larger than the configured one. */
  lemma VerticalTicks(minY: real, maxY: real, mapHeight: int, dpi: int, gridSize: int, m: Metrics)
    requires mapHeight > 0 && dpi > 0 && gridSize > 0
    ensures var img := VerticalAxis(minY, maxY, mapHeight, dpi, gridSize, m);
      && img.width == ScaledSize(VerticalAxisWidth, dpi) && img.height == ScaledSize(mapHeight, dpi)
      && img.fontSize <= BaseFontSize(dpi) as real
      && |img.marks| == |SuitableCoordinates(Ceil(minY), Floor(maxY), gridSize)|
      && forall i :: 0 <= i < |img.marks| ==>
           && img.marks[i].coord == SuitableCoordinates(Ceil(minY), Floor(maxY), gridSize)[i]
           && img.marks[i].tick == img.height - ProjectToImage(img.marks[i].coord as real, img.height, minY, maxY)
           && 0 <= img.marks[i].tick <= img.height
  {
    var img := VerticalAxis(minY, maxY, mapHeight, dpi, gridSize, m);
    var coords := SuitableCoordinates(Ceil(minY), Floor(maxY), gridSize);
    MarksInsideBox(minY, maxY, gridSize);
    var ps := Projected(coords, img.height, minY, maxY);
    ProjectedInImage(coords, img.height, minY, maxY);
    AxisFontSizeNeverGrows(BaseFontSize(dpi) as real, coords, ps, m);
    assert img.marks == VerticalMarks(coords, ps, img.width, img.height, img.fontSize, m);
  }

  /** Marks inside the box are projected onto the image. */
  lemma ProjectedInImage(coords: seq<int>, extent: int, minCoord: real, maxCoord: real)
    requires extent >= 0
    requires forall i :: 0 <= i < |coords| ==> minCoord <= coords[i] as real <= maxCoord
    ensures Projectable(coords, minCoord, maxCoord)
    ensures forall i :: 0 <= i < |coords| ==> 0 <= Projected(coords, extent, minCoord, maxCoord)[i] <= extent
  {
    forall i | 0 <= i < |coords|
      ensures 0 <= Projected(coords, extent, minCoord, maxCoord)[i] <= extent
    {
      ProjectionInImage(coords[i] as real, extent, minCoord, maxCoord);
    }
  }

  /** A label is drawn exactly when the source's check passes, and then it
      sits one character width above its tick. */
  lemma VerticalLabels(minY: real, maxY: real, mapHeight: int, dpi: int, gridSize: int, m: Metrics, i: int)
    requires mapHeight > 0 && dpi > 0 && gridSize > 0
    requires 0 <= i < |VerticalAxis(minY, maxY, mapHeight, dpi, gridSize, m).marks|
    ensures var img := VerticalAxis(minY, maxY, mapHeight, dpi, gridSize, m);
      var mk := img.marks[i];
      var textWidth := m.stringWidth(img.fontSize, Coordinate(mk.coord));
      && (mk.placement.LabelAt? <==> mk.pos + textWidth < img.height)
      && (mk.placement.LabelAt? ==>
            && mk.placement.text == Coordinate(mk.coord)
            && mk.placement.x == img.width / 2
            && mk.placement.y + textWidth + m.charWidth(img.fontSize) == mk.tick
            && mk.placement.y + textWidth <= img.height)
  {
    var img := VerticalAxis(minY, maxY, mapHeight, dpi, gridSize, m);
    VerticalTicks(minY, maxY, mapHeight, dpi, gridSize, m);
    assert 0 <= img.marks[i].tick <= img.height;
  }

  /** The marks handed to the projector lie inside the box (so there are
      none when the bounds are reversed). */
  lemma MarksInsideBox(minC: real, maxC: real, gridSize: int)
    requires gridSize > 0
    ensures var coords := SuitableCoordinates(Ceil(minC), Floor(maxC), gridSize);
      && (coords != [] ==> minC <= maxC)
      && (forall i :: 0 <= i < |coords| ==> minC <= coords[i] as real <= maxC)
      && Projectable(coords, minC, maxC)
  {
    var coords := SuitableCoordinates(Ceil(minC), Floor(maxC), gridSize);
    forall i | 0 <= i < |coords|
      ensures minC <= coords[i] as real <= maxC
    {
      SuitableCoordinatesSound(Ceil(minC), Floor(maxC), gridSize, i);
    }
  }

  // ---- Horizontal axis --------------------------------------------------

  /** One mark of the horizontal axis: the tick at `imgX`, and the upright
      label drawn only when `imgX + textWidth` stays left of the image width. */
  function HorizontalMark(coord: int, imgX: int, imgWidth: int, imgHeight: int, fontSize: real, m: Metrics): AxisMark
  {
    var text := Coordinate(coord);
    AxisMark(coord, imgX, imgX,
      if imgX + m.stringWidth(fontSize, text) < imgWidth
      then LabelAt(text, imgX + m.charWidth(fontSize), imgHeight / 2)
      else NoLabel)
  }

  /** The marks of the horizontal axis, one per projected coordinate. */
  function HorizontalMarks(coords: seq<int>, imgCoords: seq<int>, imgWidth: int, imgHeight: int, fontSize: real, m: Metrics): (marks: seq<AxisMark>)
    requires |imgCoords| == |coords|
    ensures |marks| == |coords|
  {
    seq(|coords|, i requires 0 <= i < |coords| => HorizontalMark(coords[i], imgCoords[i], imgWidth, imgHeight, fontSize, m))
  }

  /** The horizontal axis image for a grid size. */
  function HorizontalAxis(minX: real, maxX: real, mapWidth: int, dpi: int, gridSize: int, m: Metrics): AxisImage
    requires mapWidth > 0 && dpi > 0 && gridSize > 0
  {
    var imgWidth := ScaledSize(mapWidth, dpi);
    var imgHeight := ScaledSize(HorizontalAxisHeight, dpi);
    var coords := SuitableCoordinates(Ceil(minX), Floor(maxX), gridSize);
    MarksInsideBox(minX, maxX, gridSize);
    var imgCoords := Projected(coords, imgWidth, minX, maxX);
    var fontSize := AxisFontSize(BaseFontSize(dpi) as real, coords, imgCoords, m);
    AxisImage(imgWidth, imgHeight, gridSize, fontSize, HorizontalMarks(coords, imgCoords, imgWidth, imgHeight, fontSize, m))
  }

  /** `generateHorizontalAxisWithGrid` (lines 598-661), drawing calls recorded. */
  method GenerateHorizontalAxisWithGrid(minX: real, maxX: real, mapWidth: int, dpi: int, gridSize: int, m: Metrics)
    returns (img: AxisImage)
    requires mapWidth > 0 && dpi > 0
    requires InIntRange(Ceil(minX), Floor(maxX), gridSize)
    ensures img == HorizontalAxis(minX, maxX, mapWidth, dpi, gridSize, m)
  {
    var imgWidth := ScaledSize(mapWidth, dpi);
    var imgHeight := ScaledSize(HorizontalAxisHeight, dpi);
    var g := new Graphics.Configure(dpi);
    var realWorldXCoords := FindSuitableCoordinates(Ceil(minX), Floor(maxX), gridSize);
    MarksInsideBox(minX, maxX, gridSize);
    var imgCoordinates := ProjectAll(realWorldXCoords, imgWidth, minX, maxX);
    var _ := g.AdjustAxisFontSize(realWorldXCoords, imgCoordinates[..], m);
    var marks := DrawHorizontalMarks(realWorldXCoords, imgCoordinates, imgWidth, imgHeight, g.fontSize, m);
    img := AxisImage(imgWidth, imgHeight, gridSize, g.fontSize, marks);
  }

  /** The drawing loop of `generateHorizontalAxisWithGrid` (lines 635-656). */
  method DrawHorizontalMarks(realWorldXCoords: seq<int>, imgCoordinates: array<int>, imgWidth: int, imgHeight: int,
                             fontSize: real, m: Metrics) returns (marks: seq<AxisMark>)
    requires imgCoordinates.Length == |realWorldXCoords|
    ensures marks == HorizontalMarks(realWorldXCoords, imgCoordinates[..], imgWidth, imgHeight, fontSize, m)
  {
    marks := [];
    for i := 0 to imgCoordinates.Length
      invariant |marks| == i
      invariant forall k :: 0 <= k < i ==>
        marks[k] == HorizontalMark(realWorldXCoords[k], imgCoordinates[k], imgWidth, imgHeight, fontSize, m)
    {
      var imgX := imgCoordinates[i];
      var realWorldX := realWorldXCoords[i];
      // the tick line spans the image height at x = imgX
      var text := Coordinate(realWorldX);
      var placement := NoLabel;
      if imgX + m.stringWidth(fontSize, text) < imgWidth {
        var charWidth := m.charWidth(fontSize);
        var xTxtPos := imgX + charWidth;
        var yTxtPos := imgHeight / 2;
        placement := LabelAt(text, xTxtPos, yTxtPos);
      }
      marks := marks + [AxisMark(realWorldX, imgX, imgX, placement)];
    }
  }

  /** `generateHorizontalAxis` with an int scale (lines 569-579). */
  method GenerateHorizontalAxis(minX: real, maxX: real, mapWidth: int, dpi: int, scale: int, m: Metrics)
    returns (img: AxisImage)
    requires mapWidth > 0 && dpi > 0
    requires InIntRange(Ceil(minX), Floor(maxX), GridSize(scale))
    ensures img == HorizontalAxis(minX, maxX, mapWidth, dpi, GridSize(scale), m)
    ensures img.gridSize == GridSize(scale)
  {
    var gridSize := GridSize(scale);
    img := GenerateHorizontalAxisWithGrid(minX, maxX, mapWidth, dpi, gridSize, m);
  }

  /** One tick per grid mark, at the projected offset, always on the image. */
  lemma HorizontalTicks(minX: real, maxX: real, mapWidth: int, dpi: int, gridSize: int, m: Metrics)
    requires mapWidth > 0 && dpi > 0 && gridSize > 0
    ensures var img := HorizontalAxis(minX, maxX, mapWidth, dpi, gridSize, m);
      && img.width == ScaledSize(mapWidth, dpi) && img.height == ScaledSize(HorizontalAxisHeight, dpi)
      && img.fontSize <= BaseFontSize(dpi) as real
      && |img.marks| == |SuitableCoordinates(Ceil(minX), Floor(maxX), gridSize)|
      && forall i :: 0 <= i < |img.marks| ==>
           && img.marks[i].coord == SuitableCoordinates(Ceil(minX), Floor(maxX), gridSize)[i]
           && img.marks[i].tick == ProjectToImage(img.marks[i].coord as real, img.width, minX, maxX)
           && 0 <= img.marks[i].tick <= img.width
  {
    var img := HorizontalAxis(minX, maxX, mapWidth, dpi, gridSize, m);
    var coords := SuitableCoordinates(Ceil(minX), Floor(maxX), gridSize);
    MarksInsideBox(minX, maxX, gridSize);
    var ps := Projected(coords, img.width, minX, maxX);
    ProjectedInImage(coords, img.width, minX, maxX);
    AxisFontSizeNeverGrows(BaseFontSize(dpi) as real, coords, ps, m);
    assert img.marks == HorizontalMarks(coords, ps, img.width, img.height, img.fontSize, m);
  }

  /** A label is drawn exactly when the source's check passes, one
      character width right of its tick, half-way down the image. */
  lemma HorizontalLabels(minX: real, maxX: real, mapWidth: int, dpi: int, gridSize: int, m: Metrics, i: int)
    requires mapWidth > 0 && dpi > 0 && gridSize > 0
    requires 0 <= i < |HorizontalAxis(minX, maxX, mapWidth, dpi, gridSize, m).marks|
    ensures var img := HorizontalAxis(minX, maxX, mapWidth, dpi, gridSize, m);
      var mk := img.marks[i];
      var textWidth := m.stringWidth(img.fontSize, Coordinate(mk.coord));
      && (mk.placement.LabelAt? <==> mk.pos + textWidth < img.width)
      && (mk.placement.LabelAt? ==>
            && mk.placement.text == Coordinate(mk.coord)
            && mk.placement.x == mk.tick + m.charWidth(img.fontSize)
            && mk.placement.y == img.height / 2
            && 0 <= mk.placement.x)
  {
    HorizontalTicks(minX, maxX, mapWidth, dpi, gridSize, m);
  }

  // ---- Label containment ------------------------------------------------

  /** As written, the check leaves out the character-width gap between tick
      and label: on a 100 px tall vertical axis, a 45 px label at offset 50
      with 10 px characters passes the check and starts 5 px above the image. */
  lemma VerticalLabelCanOverflow()
    ensures var mk := VerticalMark(0, 50, 25, 100, 8.0, Metrics((s, t) => 45, s => 10, s => 10));
      mk.placement.LabelAt? && mk.placement.y == -5
  {
  }

  /** The same on the horizontal axis: a 45 px label at x = 50 with 10 px
      characters passes the check on a 100 px wide image and ends at 105. */
  lemma HorizontalLabelCanOverflow()
    ensures var mk := HorizontalMark(0, 50, 100, 25, 8.0, Metrics((s, t) => 45, s => 10, s => 10));
      mk.placement.LabelAt? && mk.placement.x + 45 == 105
  {
  }

  /** The intended check for both axes: the source's check, and the label
      together with its character-width gap ends inside the image extent. */
  predicate LabelFits(pos: int, textWidth: int, charWidth: int, extent: int)
  {
    pos + textWidth < extent && pos + textWidth + charWidth <= extent
  }

  /** A vertical mark under the intended check. */
  function CorrectedVerticalMark(coord: int, imgY: int, imgWidth: int, imgHeight: int, fontSize: real, m: Metrics): AxisMark
  {
    var text := Coordinate(coord);
    var textWidth := m.stringWidth(fontSize, text);
    AxisMark(coord, imgY, imgHeight - imgY,
      if LabelFits(imgY, textWidth, m.charWidth(fontSize), imgHeight)
      then LabelAt(text, imgWidth / 2, imgHeight - imgY - textWidth - m.charWidth(fontSize))
      else NoLabel)
  }

  /** A horizontal mark under the intended check. */
  function CorrectedHorizontalMark(coord: int, imgX: int, imgWidth: int, imgHeight: int, fontSize: real, m: Metrics): AxisMark
  {
    var text := Coordinate(coord);
    AxisMark(coord, imgX, imgX,
      if LabelFits(imgX, m.stringWidth(fontSize, text), m.charWidth(fontSize), imgWidth)
      then LabelAt(text, imgX + m.charWidth(fontSize), imgHeight / 2)
      else NoLabel)
  }

  /** Under the intended check every drawn vertical label lies within the
      image height, and the correction drops exactly the labels the source
      draws past the top edge. */
  lemma CorrectedVerticalLabelInside(coord: int, imgY: int, imgWidth: int, imgHeight: int, fontSize: real, m: Metrics)
    requires 0 <= imgY
    ensures var mk := CorrectedVerticalMark(coord, imgY, imgWidth, imgHeight, fontSize, m);
      mk.placement.LabelAt? ==>
        0 <= mk.placement.y && mk.placement.y + m.stringWidth(fontSize, Coordinate(coord)) <= imgHeight
    ensures var asWritten := VerticalMark(coord, imgY, imgWidth, imgHeight, fontSize, m);
      CorrectedVerticalMark(coord, imgY, imgWidth, imgHeight, fontSize, m)
        == if asWritten.placement.LabelAt? && asWritten.placement.y < 0
           then asWritten.(placement := NoLabel) else asWritten
  {
  }

  /** Under the intended check every drawn horizontal label lies within the
      image width, and the correction drops exactly the labels the source
      draws past the right edge. */
  lemma CorrectedHorizontalLabelInside(coord: int, imgX: int, imgWidth: int, imgHeight: int, fontSize: real, m: Metrics)
    requires 0 <= imgX
    ensures var mk := CorrectedHorizontalMark(coord, imgX, imgWidth, imgHeight, fontSize, m);
      mk.placement.LabelAt? ==>
        0 <= mk.placement.x && mk.placement.x + m.stringWidth(fontSize, Coordinate(coord)) <= imgWidth
    ensures var asWritten := HorizontalMark(coord, imgX, imgWidth, imgHeight, fontSize, m);
      CorrectedHorizontalMark(coord, imgX, imgWidth, imgHeight, fontSize, m)
        == if asWritten.placement.LabelAt? && asWritten.placement.x + m.stringWidth(fontSize, Coordinate(coord)) > imgWidth
           then asWritten.(placement := NoLabel) else asWritten
  {
  }
}
