# Scale image generator — a verified model

This project models `ScaleImageGenerator`, the part of the cismap scale image
provider that renders the map decorations of a printed or exported map. It
draws a scale bar of five one-centimetre unit rectangles, each labelled at
its trailing edge with the cumulative real-world distance from the start of
the bar, and a vertical and a horizontal axis
ruler with tick lines and coordinate labels at grid-aligned real-world
coordinates. All of it is derived from a metric bounding box, the map size
in pixels and a target DPI.

The model keeps the source's structure:

- `java_arith.dfy` (`JavaArith`): Java's truncating integer `/` and `%`,
  `Math.floor`, `Math.ceil` and `Math.round` over exact reals, and the small
  arithmetic lemmas the proofs use.
- `grid_size.dfy` (`GridSizing`): `getGridSize`, the step table that maps a
  scale denominator to the grid spacing in metres.
- `marks.dfy` (`Marks`): `findSuitableCoordinates`, an imperative loop proved
  against the list it must produce.
- `projection.dfy` (`Projection`): the DPI scale, DPI-scaled image sizes,
  pixels per centimetre, the initial font size, the projection of a
  real-world coordinate onto an image axis, and the scale unit in metres.
- `font_fit.dfy` (`FontFit`): `adjustFontSize` and `adjustAxisFontSize` as
  methods of a `Graphics` class whose font size they change in place.
- `scale_bar.dfy` (`ScaleBar`): `generateScaleImage`, with `java.awt.Rectangle`
  as a class moved by `Translate`.
- `axis.dfy` (`Axis`): the four axis generators.

Drawing is recorded, not rasterised. Each generator returns the image size,
the final font size and one record per drawn element: a `UnitCell` per scale
rectangle, an `AxisMark` per axis tick. Font metrics belong to the drawing
library and enter as a `Metrics` value of three functions of the font size.
Java doubles are modelled as exact reals. Java ints are modelled as
unbounded integers, with preconditions keeping them in range where the
source's loops depend on it.

The scale bar's label margin, `SCALE_UNIT_MARGIN` (10 px, line 35), is
subtracted unscaled at line 220. The image, rectangle, font and stroke sizes
are DPI-scaled; the separator stays 1 px wide at every DPI (line 203).

## Model

All source paths are in `src/main/java/de/cismet/cismap/scaleimageprovider/ScaleImageGenerator.java`.

| member | source | states |
|---|---|---|
| JavaArith.JDiv | src/main/java/de/cismet/cismap/scaleimageprovider/ScaleImageGenerator.java:302 | Java int division truncates toward zero: the quotient times the divisor lies within one divisor of the dividend, on the dividend's side of zero |
| JavaArith.JRem | src/main/java/de/cismet/cismap/scaleimageprovider/ScaleImageGenerator.java:299 | Java `%` is `a - (a / b) * b`, takes the dividend's sign, and is zero exactly when the divisor divides the dividend |
| JavaArith.Ceil | src/main/java/de/cismet/cismap/scaleimageprovider/ScaleImageGenerator.java:298 | `(int) Math.ceil(x)` is the least integer at or above `x` |
| JavaArith.Floor | src/main/java/de/cismet/cismap/scaleimageprovider/ScaleImageGenerator.java:310 | `(int) Math.floor(x)` is the greatest integer at or below `x` |
| JavaArith.RoundHalfUp | src/main/java/de/cismet/cismap/scaleimageprovider/ScaleImageGenerator.java:278 | `Math.round(x)` is the integer within half a unit of `x`, ties rounding up |
| GridSizing.GridSize | src/main/java/de/cismet/cismap/scaleimageprovider/ScaleImageGenerator.java:130-154 | the grid size is always one of the eleven table values, between 20 m and 20000 m |
| GridSizing.GridSizeIsTableLookup | src/main/java/de/cismet/cismap/scaleimageprovider/ScaleImageGenerator.java:130-154 | the if-chain equals reading the ascending step table: the first row whose threshold is strictly above the scale, else 20000 |
| GridSizing.GridSizeMonotone | src/main/java/de/cismet/cismap/scaleimageprovider/ScaleImageGenerator.java:130-154 | a larger scale denominator never gets a finer grid |
| GridSizing.GridSizeBoundaries | src/main/java/de/cismet/cismap/scaleimageprovider/ScaleImageGenerator.java:131-153 | every threshold belongs to the next row (strict `<`); scales past the last threshold and negative scales fall into the end rows |
| Marks.FirstMark | src/main/java/de/cismet/cismap/scaleimageprovider/ScaleImageGenerator.java:298-306 | the start is a multiple of the grid at or above `ceil(minCoord)`, and for a non-negative bound less than one grid step above it |
| Marks.MarkCount | src/main/java/de/cismet/cismap/scaleimageprovider/ScaleImageGenerator.java:310-315 | the loop emits no mark exactly when the start exceeds `floor(maxCoord)`; otherwise its last mark is at or below the end and the next one past it |
| Marks.SuitableCoordinates | src/main/java/de/cismet/cismap/scaleimageprovider/ScaleImageGenerator.java:291-318 | the list the method returns: `MarkCount` coordinates from the aligned start, each one grid step after the previous |
| Marks.FindSuitableCoordinates | src/main/java/de/cismet/cismap/scaleimageprovider/ScaleImageGenerator.java:291-318 | the stepping loop returns exactly the specified list: every grid step from the aligned start up to `floor(maxCoord)` inclusive |
| Marks.LoopExitIsComplete | src/main/java/de/cismet/cismap/scaleimageprovider/ScaleImageGenerator.java:313-315 | when the loop stops past the end bound it has emitted every mark of the list, in order, and no other |
| Marks.SuitableCoordinatesSound | src/main/java/de/cismet/cismap/scaleimageprovider/ScaleImageGenerator.java:282-283 | every emitted coordinate is divisible by the grid size and lies between the rounded bounds, inclusive |
| Marks.SuitableCoordinatesStep | src/main/java/de/cismet/cismap/scaleimageprovider/ScaleImageGenerator.java:313 | consecutive marks are exactly one grid step apart, so the list strictly ascends |
| Marks.SuitableCoordinatesComplete | src/main/java/de/cismet/cismap/scaleimageprovider/ScaleImageGenerator.java:282-283 | for a non-negative lower bound every multiple of the grid between the rounded bounds is emitted |
| Marks.SuitableCoordinatesEmpty | src/main/java/de/cismet/cismap/scaleimageprovider/ScaleImageGenerator.java:313 | the list is empty exactly when the aligned start lies beyond `floor(maxCoord)` |
| Marks.SuitableCoordinatesExample | src/main/java/de/cismet/cismap/scaleimageprovider/ScaleImageGenerator.java:300-302 | 5682123 on a 1000 m grid truncates to 5682000 and starts at 5683000; bounds 1005..4999 give `[2000, 3000, 4000]` |
| Marks.NegativeStartSkipsMark | src/main/java/de/cismet/cismap/scaleimageprovider/ScaleImageGenerator.java:298-306 | as written, bounds -1005..4999 on a 1000 m grid start at 0, so the in-range mark -1000 is missing |
| Marks.CorrectedFirstMark | src/main/java/de/cismet/cismap/scaleimageprovider/ScaleImageGenerator.java:296-306 | the intended start is aligned and lies within one grid step at or above `ceil(minCoord)`, for every sign |
| Marks.CorrectedFirstMarkIsLeast | src/main/java/de/cismet/cismap/scaleimageprovider/ScaleImageGenerator.java:296-306 | no multiple of the grid at or above the lower bound lies below the intended start |
| Marks.CorrectedAgreesOnNonNegative | src/main/java/de/cismet/cismap/scaleimageprovider/ScaleImageGenerator.java:298-306 | on a non-negative lower bound the source's start and the intended start coincide |
| Marks.CorrectedSuitableCoordinates | src/main/java/de/cismet/cismap/scaleimageprovider/ScaleImageGenerator.java:291-318 | correction: the list enumerated from the intended start `CorrectedFirstMark` instead of the source's, with the source's end bound and step |
| Marks.CorrectedSuitableCoordinatesSound | src/main/java/de/cismet/cismap/scaleimageprovider/ScaleImageGenerator.java:282-283 | enumerating from the intended start still lists only multiples of the grid between the rounded bounds |
| Marks.CorrectedSuitableCoordinatesComplete | src/main/java/de/cismet/cismap/scaleimageprovider/ScaleImageGenerator.java:282-283 | enumerating from the intended start lists every multiple of the grid between the rounded bounds, for bounds of every sign |
| Projection.DpiScale | src/main/java/de/cismet/cismap/scaleimageprovider/ScaleImageGenerator.java:327-329 | the DPI scale is positive and takes the 72 DPI reference resolution to the requested DPI |
| Projection.ScaledSize | src/main/java/de/cismet/cismap/scaleimageprovider/ScaleImageGenerator.java:187-188 | a base size scaled by `floor(base * dpi / 72)` is the integer quotient `base * dpi / 72` |
| Projection.Dpc | src/main/java/de/cismet/cismap/scaleimageprovider/ScaleImageGenerator.java:195 | one centimetre is `ceil(dpi / 2.54)` pixels, positive, the integer `(100 dpi + 253) / 254` |
| Projection.BaseFontSize | src/main/java/de/cismet/cismap/scaleimageprovider/ScaleImageGenerator.java:90 | a freshly configured context starts with font size `ceil(8 * dpi / 72)`, positive, the integer `(dpi + 8) / 9` |
| Projection.UnroundedProjection | src/main/java/de/cismet/cismap/scaleimageprovider/ScaleImageGenerator.java:272-278 | the value before rounding: the distance from the lower bound and the box extent in centimetres, taken to px at 72 DPI, times the ratio of image extent to box extent |
| Projection.ProjectToImage | src/main/java/de/cismet/cismap/scaleimageprovider/ScaleImageGenerator.java:268-279 | the projected offset is the integer nearest the unrounded projection (ties up); on a zero-extent box it is 0, as `Math.round(NaN)` |
| Projection.ProjectionIsLinear | src/main/java/de/cismet/cismap/scaleimageprovider/ScaleImageGenerator.java:268-279 | before rounding, the centimetre and DPI constants cancel: the projection is the linear interpolation `extent * (c - min) / (max - min)` |
| Projection.ProjectionEndpoints | src/main/java/de/cismet/cismap/scaleimageprovider/ScaleImageGenerator.java:268-279 | the lower box bound lands on pixel 0 and the upper one on the image extent |
| Projection.ProjectionMonotone | src/main/java/de/cismet/cismap/scaleimageprovider/ScaleImageGenerator.java:268-279 | a coordinate further from the lower bound never gets a smaller pixel offset |
| Projection.ProjectionInImage | src/main/java/de/cismet/cismap/scaleimageprovider/ScaleImageGenerator.java:268-279 | every coordinate inside the box, a zero-extent box included, lands between 0 and the image extent |
| Projection.ScaleUnitInMeter | src/main/java/de/cismet/cismap/scaleimageprovider/ScaleImageGenerator.java:181-184 | the scale unit is within 0.00005 m of the box width over the map width in centimetres at 72 DPI, and has at most four decimals |
| Projection.ScaleUnitNegativeWidth | src/main/java/de/cismet/cismap/scaleimageprovider/ScaleImageGenerator.java:181-184 | a negative map width, which the source accepts without error, gives a scale unit of at most 0 |
| Projection.ScaleUnitExample | src/main/java/de/cismet/cismap/scaleimageprovider/ScaleImageGenerator.java:181-184 | a 1000 m wide box on a 1000 px map gives a unit of 28.3465 m |
| FontFit.FittedSizeNeverGrows | src/main/java/de/cismet/cismap/scaleimageprovider/ScaleImageGenerator.java:105-121 | fitting never enlarges a font |
| FontFit.FittedSize | src/main/java/de/cismet/cismap/scaleimageprovider/ScaleImageGenerator.java:106-110 | a too-wide text gets the size that scales its width exactly to the target (`r * current == size * target`); a text that fits keeps the size |
| FontFit.FittedSizeShrinks | src/main/java/de/cismet/cismap/scaleimageprovider/ScaleImageGenerator.java:106-110 | a positive font whose text is wider than the target becomes strictly smaller |
| FontFit.FittedSizeFitsExactly | src/main/java/de/cismet/cismap/scaleimageprovider/ScaleImageGenerator.java:97-110 | with widths linear in the font size, the shrunk font makes the text exactly as wide as the target |
| FontFit.FittedSizeIdempotent | src/main/java/de/cismet/cismap/scaleimageprovider/ScaleImageGenerator.java:105-121 | fitting again against the same target, with the width the fitted font yields, changes nothing |
| FontFit.ProbeWidth | src/main/java/de/cismet/cismap/scaleimageprovider/ScaleImageGenerator.java:514 | the width, at the current font size, of the `Double.toString` text of the last mark, which the axis font is fitted by |
| FontFit.FirstGap | src/main/java/de/cismet/cismap/scaleimageprovider/ScaleImageGenerator.java:518 | the gap is the absolute distance between the first two projected marks |
| FontFit.AxisFontSizeNeverGrows | src/main/java/de/cismet/cismap/scaleimageprovider/ScaleImageGenerator.java:503-524 | the axis font never grows, and with at most one mark it is left unchanged |
| FontFit.AxisFontSize | src/main/java/de/cismet/cismap/scaleimageprovider/ScaleImageGenerator.java:503-524 | the axis font: unchanged without marks or with at most one projected mark, else the size fitting the last mark's `Double.toString` text into the first gap |
| FontFit.Graphics.Configure | src/main/java/de/cismet/cismap/scaleimageprovider/ScaleImageGenerator.java:84-91 | a configured context's font size is the DPI-scaled base size |
| FontFit.Graphics.AdjustFontSize | src/main/java/de/cismet/cismap/scaleimageprovider/ScaleImageGenerator.java:105-121 | reports an adjustment exactly when the text is wider than the target; the font becomes the linearly shrunk size then and is unchanged otherwise |
| FontFit.Graphics.AdjustAxisFontSize | src/main/java/de/cismet/cismap/scaleimageprovider/ScaleImageGenerator.java:503-524 | adjusts only with marks and at least two projected ones, when the last mark's text is wider than the first gap, fitting it into that gap |
| ScaleBar.Rectangle.constructor | src/main/java/de/cismet/cismap/scaleimageprovider/ScaleImageGenerator.java:198 | a new rectangle has the given position and size |
| ScaleBar.Rectangle.Translate | src/main/java/de/cismet/cismap/scaleimageprovider/ScaleImageGenerator.java:199 | `translate` moves the rectangle in place and keeps its size |
| ScaleBar.ProbeLabel | src/main/java/de/cismet/cismap/scaleimageprovider/ScaleImageGenerator.java:217 | the probe text is the label of the fifth, last unit: the running sum after five units, computed as the unit times five |
| ScaleBar.LabelSpan | src/main/java/de/cismet/cismap/scaleimageprovider/ScaleImageGenerator.java:220 | the width the probe must fit, one centimetre less the unscaled 10 px margin on each side; negative exactly at 48 DPI and below, and at most 0 exactly at 50 DPI and below |
| ScaleBar.TextY | src/main/java/de/cismet/cismap/scaleimageprovider/ScaleImageGenerator.java:202-208 | the label baseline: the separator top (`top - top / 6`, truncating) less a quarter of the text height |
| ScaleBar.UnitCellAt | src/main/java/de/cismet/cismap/scaleimageprovider/ScaleImageGenerator.java:224-250 | what the loop records in round `i`: the rectangle at `dpc/2 + i*dpc`, filled when `i + 1` is even, the 1 px separator at its end, and the running label centred on it |
| ScaleBar.GenerateScaleImage | src/main/java/de/cismet/cismap/scaleimageprovider/ScaleImageGenerator.java:171-255 | the image is 170 x 25 px scaled to the DPI; the font is the base size fitted so the fifth unit's label fits one unit minus the margins, never larger; five cells, the i-th as the layout function gives it |
| ScaleBar.DrawUnits | src/main/java/de/cismet/cismap/scaleimageprovider/ScaleImageGenerator.java:224-250 | the loop, moving the separator and the unit rectangle one centimetre per round, records exactly the five specified cells and leaves both rectangles five centimetres further on, at their heights and sizes |
| ScaleBar.Cumulative | src/main/java/de/cismet/cismap/scaleimageprovider/ScaleImageGenerator.java:212-249 | the label value of round `n`: the unit added `n` times, as `scaleInc += scaleUnitInMeter` sums it |
| ScaleBar.CumulativeIsMultiple | src/main/java/de/cismet/cismap/scaleimageprovider/ScaleImageGenerator.java:212-249 | the label value summed by the loop after `n` units is `n` times the unit |
| ScaleBar.UnitCellLayout | src/main/java/de/cismet/cismap/scaleimageprovider/ScaleImageGenerator.java:198-250 | rectangle `i` starts `i` centimetres after half a centimetre of margin, is filled when `i + 1` is even, ends at its separator, and carries the label `(i + 1)` units centred on that separator |
| ScaleBar.UnitCellsAdjacent | src/main/java/de/cismet/cismap/scaleimageprovider/ScaleImageGenerator.java:234-246 | each rectangle starts where the previous one's separator stands |
| ScaleBar.ScaleBarFitsImage | src/main/java/de/cismet/cismap/scaleimageprovider/ScaleImageGenerator.java:187-199 | from 24 DPI up the five rectangles with their left margin fit the image width |
| ScaleBar.ScaleBarOverrunsAt23 | src/main/java/de/cismet/cismap/scaleimageprovider/ScaleImageGenerator.java:187-199 | at 23 DPI the last rectangle runs past the image width |
| Axis.Projected | src/main/java/de/cismet/cismap/scaleimageprovider/ScaleImageGenerator.java:421-427 | the `imgCoordinates` the projection loop fills: one projected offset per mark, in mark order |
| Axis.ProjectAll | src/main/java/de/cismet/cismap/scaleimageprovider/ScaleImageGenerator.java:421-427 | the new `imgCoordinates` array holds every mark's projection, in mark order |
| Axis.VerticalMark | src/main/java/de/cismet/cismap/scaleimageprovider/ScaleImageGenerator.java:455-482 | one vertical mark: the tick at `height - imgY`, and the integer label at `(width / 2, height - imgY - textWidth - charWidth)` only when `imgY + textWidth < height` |
| Axis.VerticalMarks | src/main/java/de/cismet/cismap/scaleimageprovider/ScaleImageGenerator.java:447-486 | the marks the vertical drawing loop records: one `VerticalMark` per coordinate and its projected offset |
| Axis.VerticalAxis | src/main/java/de/cismet/cismap/scaleimageprovider/ScaleImageGenerator.java:411-486 | the vertical axis: 25 px by the scaled map height, the marks of `SuitableCoordinates` projected on the height, the fitted axis font, one `VerticalMark` each |
| Axis.HorizontalMark | src/main/java/de/cismet/cismap/scaleimageprovider/ScaleImageGenerator.java:643-655 | one horizontal mark: the tick at `imgX`, and the integer label at `(imgX + charWidth, height / 2)` only when `imgX + textWidth < width` |
| Axis.HorizontalMarks | src/main/java/de/cismet/cismap/scaleimageprovider/ScaleImageGenerator.java:635-656 | the marks the horizontal drawing loop records: one `HorizontalMark` per coordinate and its projected offset |
| Axis.HorizontalAxis | src/main/java/de/cismet/cismap/scaleimageprovider/ScaleImageGenerator.java:606-656 | the horizontal axis: the scaled map width by 25 px, the marks projected on the width, the fitted axis font, one `HorizontalMark` each |
| Axis.MarksInsideBox | src/main/java/de/cismet/cismap/scaleimageprovider/ScaleImageGenerator.java:419 | every mark handed to the projector lies inside the box, so a reversed box has no marks and a zero-extent box projects only its own bound |
| Axis.ProjectedInImage | src/main/java/de/cismet/cismap/scaleimageprovider/ScaleImageGenerator.java:421-427 | every mark inside the box gets an image offset between 0 and the image extent |
| Axis.GenerateVerticalAxisWithGrid | src/main/java/de/cismet/cismap/scaleimageprovider/ScaleImageGenerator.java:403-491 | the generator produces exactly the specified vertical axis image |
| Axis.DrawVerticalMarks | src/main/java/de/cismet/cismap/scaleimageprovider/ScaleImageGenerator.java:447-486 | the drawing loop records one specified vertical mark per projected coordinate |
| Axis.GenerateVerticalAxis | src/main/java/de/cismet/cismap/scaleimageprovider/ScaleImageGenerator.java:374-384 | the scale overload draws the axis for the grid size of that scale |
| Axis.VerticalTicks | src/main/java/de/cismet/cismap/scaleimageprovider/ScaleImageGenerator.java:411-457 | the image is 25 px by the map height scaled to the DPI; the font never grows; one tick per grid mark in order, at the flipped projected offset, always within the image height |
| Axis.VerticalLabels | src/main/java/de/cismet/cismap/scaleimageprovider/ScaleImageGenerator.java:459-485 | a label is drawn exactly when offset plus text width stays below the image height; it shows the mark's integer, is centred horizontally, and ends one character width above its tick, not past the bottom edge |
| Axis.GenerateHorizontalAxisWithGrid | src/main/java/de/cismet/cismap/scaleimageprovider/ScaleImageGenerator.java:598-661 | the generator produces exactly the specified horizontal axis image |
| Axis.DrawHorizontalMarks | src/main/java/de/cismet/cismap/scaleimageprovider/ScaleImageGenerator.java:635-656 | the drawing loop records one specified horizontal mark per projected coordinate |
| Axis.GenerateHorizontalAxis | src/main/java/de/cismet/cismap/scaleimageprovider/ScaleImageGenerator.java:569-579 | the scale overload draws the axis for the grid size of that scale |
| Axis.HorizontalTicks | src/main/java/de/cismet/cismap/scaleimageprovider/ScaleImageGenerator.java:606-645 | the image is the map width by 25 px scaled to the DPI; the font never grows; one tick per grid mark in order, at the projected offset, always within the image width |
| Axis.HorizontalLabels | src/main/java/de/cismet/cismap/scaleimageprovider/ScaleImageGenerator.java:647-655 | a label is drawn exactly when offset plus text width stays left of the image width; it shows the mark's integer one character width right of its tick, half-way down |
| Axis.VerticalLabelCanOverflow | src/main/java/de/cismet/cismap/scaleimageprovider/ScaleImageGenerator.java:464-482 | as written, a label that passes the check can start above the image: 100 px height, offset 50, 45 px text, 10 px characters gives y = -5 |
| Axis.HorizontalLabelCanOverflow | src/main/java/de/cismet/cismap/scaleimageprovider/ScaleImageGenerator.java:649-651 | as written, a label that passes the check can end past the image: 100 px width, offset 50, 45 px text, 10 px characters ends at 105 |
| Axis.CorrectedVerticalMark | src/main/java/de/cismet/cismap/scaleimageprovider/ScaleImageGenerator.java:463-482 | correction: a vertical mark whose label is drawn only when it fits with the character gap (`LabelFits`), placed as the source places it |
| Axis.CorrectedHorizontalMark | src/main/java/de/cismet/cismap/scaleimageprovider/ScaleImageGenerator.java:649-651 | correction: a horizontal mark whose label is drawn only when it fits with the character gap (`LabelFits`), placed as the source places it |
| Axis.CorrectedVerticalLabelInside | src/main/java/de/cismet/cismap/scaleimageprovider/ScaleImageGenerator.java:463-482 | with the character gap in the check every drawn vertical label lies within the image, and exactly the labels the source draws past the top edge are dropped |
| Axis.CorrectedHorizontalLabelInside | src/main/java/de/cismet/cismap/scaleimageprovider/ScaleImageGenerator.java:649-651 | with the character gap in the check every drawn horizontal label lies within the image, and exactly the labels the source draws past the right edge are dropped |

## Left out

- Rendering is recorded, not drawn. Anti-aliasing, colours, stroke width, background clearing and `dispose` are not modelled. Neither is the rotated off-screen text image of the vertical axis. Only its placement on the canvas is.
- Label text formatting is not modelled: `DecimalFormat("0.#")`, `String.valueOf((int) c)` and `Double.toString`. A label is carried as the value it renders, and its width comes from the `Metrics` functions.
- Font metrics (`stringWidth`, `getHeight`, `charWidth(1)`) belong to the drawing library and are parameters of the model.
- Doubles are exact reals. Floating-point rounding is not modelled, and neither are infinities or NaN, except in the zero-extent projection, where `Math.round(NaN)` is 0.
- Java ints are unbounded. `FindSuitableCoordinates` requires the rounded bounds to leave room for one more grid step within the int range. Outside it, the source's `(int)` casts saturate and `c += gridSize` wraps.
- Marks.FindSuitableCoordinates, Axis.GenerateVerticalAxisWithGrid and Axis.GenerateHorizontalAxisWithGrid require `gridSize > 0`, although the source accepts any `int`. For 0 the source throws `ArithmeticException` at `startCoord % gridSize` (line 299). For a negative grid the loop at lines 313-315 steps downward from a start at or below `endCoord` and stops only once `c` wraps past `Integer.MIN_VALUE`, after about 2^31/|gridSize| marks.
- ScaleBar.GenerateScaleImage and Projection.ScaleUnitInMeter require `mapWidth != 0`. The scale image's size depends only on the DPI, so the source does not throw at 0: the division at line 183 gives +Infinity (NaN for a zero-width box), `Math.round` at line 184 turns that into `Long.MAX_VALUE` (NaN into 0), and the labels read about 9.2e14 m (or 0 m). A negative map width is modelled as the source computes it: `Projection.ScaleUnitNegativeWidth` shows the unit, and so every label, is then at most 0.
- `BufferedImage` throws for zero or negative image sizes. Every generator requires a positive DPI, and the axis generators a positive map size along their axis; without these the source's image size is zero or negative and the constructor throws. A size that scales down to 0 gives an empty-extent image in the model instead of the exception. That happens when a base or map size times the DPI is below 72: every generator at 1 or 2 DPI (the 25 px bases at lines 188, 413 and 609), or a map dimension under 72/dpi px.
- The rotated label image of the vertical axis (`new BufferedImage(textHeight, textWidth, …)`, line 466) throws when either metric is 0. That can happen once a zero first gap has shrunk the axis font to 0, which the model allows; the model records the label placement instead.
- The `String` overloads of `generateVerticalAxis` and `generateHorizontalAxis` (lines 348-357 and 543-552) are not modelled. `Integer.parseInt` and its `NumberFormatException` are outside the model; the `int` overloads are modelled.
- Parameters the generators accept but never read (the other axis's bounds, the other map dimension) are omitted.
- Logging is not modelled.
- FontFit.Graphics.AdjustFontSize: reads the exact font size, where Java's `Font.getSize()` rounds a fractional derived size to an integer. Every caller adjusts a freshly configured, integral font, where the two agree.
- FontFit.Graphics.AdjustFontSize: excludes a zero-width text that is wider than a negative target. Java's float division would then give an infinite font size.
- ScaleBar.GenerateScaleImage: for the same reason, requires a positive probe width whenever the label span `dpc - 20` is negative (48 DPI and below, as `ScaleBar.LabelSpan` states).
- Marks.FindSuitableCoordinates keeps the source's start computation, including the skipped mark for negative unaligned bounds (see Findings). The doc comment's example system (EPSG:25832, line 159) has non-negative coordinates in its area of use, and there `Marks.CorrectedAgreesOnNonNegative` shows the two agree.
- The axis generators keep the source's label check, including the overflow by up to one character width (see Findings).

## Findings

| source | as written | input that shows it | evidently intended | confidence | as-written member | corrected member |
|---|---|---|---|---|---|---|
| src/main/java/de/cismet/cismap/scaleimageprovider/ScaleImageGenerator.java:298-306 | an unaligned start is truncated toward zero and then moved one grid step up; for a negative start the truncation already rounds up, so the first in-range mark is skipped | `minCoord = -1005`, `maxCoord = 4999`, grid 1000: marks start at 0, and -1000 is missing | start at the least multiple of the grid at or above `ceil(minCoord)` (the comment says "round down to foregoing mark") | high for negative bounds, not executed | Marks.NegativeStartSkipsMark | Marks.CorrectedSuitableCoordinatesComplete |
| src/main/java/de/cismet/cismap/scaleimageprovider/ScaleImageGenerator.java:464-482 | the containment check `imgY + textWidth < imgHeight` leaves out the `charWidth` gap the label is then shifted by, on both axes (also lines 649-651) | vertical axis 100 px high, mark at offset 50, text 45 px wide, characters 10 px wide: the label is drawn from y = -5 | draw a label only if it stays inside the image, as the comment at line 463 says | medium, not executed | Axis.VerticalLabelCanOverflow | Axis.CorrectedVerticalLabelInside |
