/** `findSuitableCoordinates`: the grid-aligned integer coordinates between
    the (already rounded) bounds of one axis of the bounding box.

    `minCeil` is `(int) Math.ceil(minCoord)` and `maxFloor` is
    `(int) Math.floor(maxCoord)`; the source's int arithmetic, with its
    truncating `/` and `%`, is modelled as written. */
module Marks {
  import opened JavaArith

  /** The loop `c += gridSize` and the start alignment stay inside Java's
      int range: the only bound the source relies on besides `gridSize > 0`. */
  predicate InIntRange(minCeil: int, maxFloor: int, gridSize: int)
  {
    0 < gridSize &&
    IntMin <= minCeil <= IntMax - gridSize &&
    IntMin <= maxFloor <= IntMax - gridSize
  }

  /** The first mark as the source computes it: an unaligned start is
      truncated to a multiple of the grid (toward zero) and moved one step up. */
  function FirstMark(minCeil: int, gridSize: int): (start: int)
    requires gridSize > 0
    ensures start % gridSize == 0
    ensures minCeil <= start
    ensures 0 <= minCeil ==> start < minCeil + gridSize
  {
    if JRem(minCeil, gridSize) != 0 then
      var q := JDiv(minCeil, gridSize);
      assert q * gridSize + gridSize == (q + 1) * gridSize;
      MultipleIsAligned(q + 1, gridSize);
      q * gridSize + gridSize
    else minCeil
  }

  /** How many marks the loop emits from `start` up to `maxFloor`. */
  function MarkCount(start: int, maxFloor: int, gridSize: int): (n: nat)
    requires gridSize > 0
    ensures n == 0 <==> start > maxFloor
    ensures n > 0 ==> start + (n - 1) * gridSize <= maxFloor < start + n * gridSize
  {
    if start > maxFloor then 0
    else
      var n := (maxFloor - start) / gridSize + 1;
      assert (n - 1) * gridSize <= maxFloor - start < (n - 1) * gridSize + gridSize;
      n
  }

  /** The list the source returns: every `gridSize` step from the first mark
      up to `maxFloor` inclusive. */
  function SuitableCoordinates(minCeil: int, maxFloor: int, gridSize: int): seq<int>
    requires gridSize > 0
  {
    var start := FirstMark(minCeil, gridSize);
    seq(MarkCount(start, maxFloor, gridSize), i => start + i * gridSize)
  }

  /** `findSuitableCoordinates` (lines 291-318): align the start, then step. */
  method FindSuitableCoordinates(minCeil: int, maxFloor: int, gridSize: int) returns (coords: seq<int>)
    requires InIntRange(minCeil, maxFloor, gridSize)
    ensures coords == SuitableCoordinates(minCeil, maxFloor, gridSize)
  {
    var startCoord := minCeil;
    if JRem(startCoord, gridSize) != 0 {
      startCoord := JDiv(startCoord, gridSize) * gridSize;
      startCoord := startCoord + gridSize;
    }
    var endCoord := maxFloor;
    coords := [];
    var c := startCoord;
    while c <= endCoord
      invariant c == startCoord + |coords| * gridSize
      invariant forall i :: 0 <= i < |coords| ==> coords[i] == startCoord + i * gridSize
      invariant |coords| > 0 ==> c - gridSize <= endCoord
      decreases endCoord - c
    {
      assert c + gridSize == startCoord + (|coords| + 1) * gridSize;
      coords := coords + [c];
      c := c + gridSize;
    }
    assert startCoord == FirstMark(minCeil, gridSize);
    LoopExitIsComplete(minCeil, maxFloor, gridSize, coords, c);
  }

  /** When the stepping loop stops past `maxFloor`, it has emitted exactly
      the specified list. */
  lemma LoopExitIsComplete(minCeil: int, maxFloor: int, gridSize: int, coords: seq<int>, c: int)
    requires gridSize > 0
    requires c == FirstMark(minCeil, gridSize) + |coords| * gridSize && maxFloor < c
    requires forall i :: 0 <= i < |coords| ==> coords[i] == FirstMark(minCeil, gridSize) + i * gridSize
    requires |coords| > 0 ==> c - gridSize <= maxFloor
    ensures coords == SuitableCoordinates(minCeil, maxFloor, gridSize)
  {
    var startCoord := FirstMark(minCeil, gridSize);
    if coords != [] {
      var n := |coords|;
      assert c - gridSize == startCoord + (n - 1) * gridSize;
      assert (n - 1) * gridSize <= maxFloor - startCoord < (n - 1) * gridSize + gridSize;
      DivIsUnique(maxFloor - startCoord, gridSize, n - 1);
    }
    var expected := SuitableCoordinates(minCeil, maxFloor, gridSize);
    assert |coords| == MarkCount(startCoord, maxFloor, gridSize) == |expected|;
    forall i | 0 <= i < |coords| ensures coords[i] == expected[i] {
      SuitableCoordinatesAt(minCeil, maxFloor, gridSize, i);
    }
  }

  lemma SuitableCoordinatesAt(minCeil: int, maxFloor: int, gridSize: int, i: int)
    requires gridSize > 0
    requires 0 <= i < MarkCount(FirstMark(minCeil, gridSize), maxFloor, gridSize)
    ensures |SuitableCoordinates(minCeil, maxFloor, gridSize)| == MarkCount(FirstMark(minCeil, gridSize), maxFloor, gridSize)
    ensures SuitableCoordinates(minCeil, maxFloor, gridSize)[i] == FirstMark(minCeil, gridSize) + i * gridSize
  {
  }

  /** Every emitted coordinate is a multiple of the grid lying in
      `[minCeil, maxFloor]`. */
  lemma SuitableCoordinatesSound(minCeil: int, maxFloor: int, gridSize: int, i: int)
    requires gridSize > 0
    requires 0 <= i < |SuitableCoordinates(minCeil, maxFloor, gridSize)|
    ensures SuitableCoordinates(minCeil, maxFloor, gridSize)[i] % gridSize == 0
    ensures minCeil <= SuitableCoordinates(minCeil, maxFloor, gridSize)[i] <= maxFloor
  {
    var start := FirstMark(minCeil, gridSize);
    var n := MarkCount(start, maxFloor, gridSize);
    SuitableCoordinatesAt(minCeil, maxFloor, gridSize, i);
    MulMonotone(0, i, gridSize);
    MulMonotone(i, n - 1, gridSize);
    StepKeepsAlignment(start, i, gridSize);
  }

  /** Whole steps from a multiple of the grid land on multiples of the grid. */
  lemma StepKeepsAlignment(start: int, i: int, gridSize: int)
    requires gridSize > 0 && start % gridSize == 0
    ensures (start + i * gridSize) % gridSize == 0
  {
    var k := start / gridSize;
    assert start == k * gridSize;
    assert start + i * gridSize == (k + i) * gridSize;
    MultipleIsAligned(k + i, gridSize);
  }

  /** Consecutive marks are exactly one grid step apart, so the list ascends. */
  lemma SuitableCoordinatesStep(minCeil: int, maxFloor: int, gridSize: int, i: int)
    requires gridSize > 0
    requires 0 <= i && i + 1 < |SuitableCoordinates(minCeil, maxFloor, gridSize)|
    ensures SuitableCoordinates(minCeil, maxFloor, gridSize)[i + 1]
         == SuitableCoordinates(minCeil, maxFloor, gridSize)[i] + gridSize
    ensures SuitableCoordinates(minCeil, maxFloor, gridSize)[i]
          < SuitableCoordinates(minCeil, maxFloor, gridSize)[i + 1]
  {
  }

  /** For a non-negative start (every metric projected coordinate), every
      multiple of the grid in `[minCeil, maxFloor]` is emitted. */
  lemma SuitableCoordinatesComplete(minCeil: int, maxFloor: int, gridSize: int, v: int)
    requires gridSize > 0 && 0 <= minCeil
    requires v % gridSize == 0 && minCeil <= v <= maxFloor
    ensures v in SuitableCoordinates(minCeil, maxFloor, gridSize)
  {
    var start := FirstMark(minCeil, gridSize);
    var ks, kv := start / gridSize, v / gridSize;
    assert start == ks * gridSize && v == kv * gridSize;
    if v < start {
      // no multiple of the grid lies in [minCeil, start)
      FactorsOrdered(kv, ks, gridSize);
      MulMonotone(kv, ks - 1, gridSize);
      assert false;
    }
    var i := kv - ks;
    assert (kv - ks) * gridSize == v - start;
    assert 0 <= i by {
      if ks > kv {
        MulMonotone(kv + 1, ks, gridSize);
      }
    }
    var n := MarkCount(start, maxFloor, gridSize);
    assert i < n by {
      if i >= n {
        MulMonotone(n, i, gridSize);
      }
    }
    SuitableCoordinatesAt(minCeil, maxFloor, gridSize, i);
  }

  /** The list is empty exactly when the aligned start lies beyond `maxFloor`. */
  lemma SuitableCoordinatesEmpty(minCeil: int, maxFloor: int, gridSize: int)
    requires gridSize > 0
    ensures SuitableCoordinates(minCeil, maxFloor, gridSize) == [] <==> FirstMark(minCeil, gridSize) > maxFloor
  {
    var s := SuitableCoordinates(minCeil, maxFloor, gridSize);
    assert |s| == MarkCount(FirstMark(minCeil, gridSize), maxFloor, gridSize);
  }

  /** Worked examples: 5682123 on a 1000 m grid truncates to 5682000 and
      starts at 5683000; marks for 1005..4999 on a 1000 m grid. */
  lemma SuitableCoordinatesExample()
    ensures JDiv(5682123, 1000) * 1000 == 5682000 && FirstMark(5682123, 1000) == 5683000
    ensures SuitableCoordinates(1005, 4999, 1000) == [2000, 3000, 4000]
  {
    assert FirstMark(1005, 1000) == 2000;
    assert MarkCount(2000, 4999, 1000) == 3;
  }

  // ---- Negative unaligned starts ----------------------------------------

  /** As written, truncation toward zero already rounds a negative start up;
      adding one more step then skips the first mark (-1005 on a 1000 m grid
      starts at 0, not at -1000). */
  lemma NegativeStartSkipsMark()
    ensures -1000 % 1000 == 0 && -1005 <= -1000 <= 4999
    ensures FirstMark(-1005, 1000) == 0
    ensures -1000 !in SuitableCoordinates(-1005, 4999, 1000)
  {
    var s := SuitableCoordinates(-1005, 4999, 1000);
    assert FirstMark(-1005, 1000) == 0;
    assert forall i :: 0 <= i < |s| ==> s[i] >= 0;
  }

  /** The intended first mark: the least multiple of the grid at or above
      `minCeil`, for every sign of `minCeil`. */
  function CorrectedFirstMark(minCeil: int, gridSize: int): (start: int)
    requires gridSize > 0
    ensures start % gridSize == 0
    ensures minCeil <= start < minCeil + gridSize
  {
    if minCeil % gridSize == 0 then minCeil
    else
      var q := minCeil / gridSize;
      assert q * gridSize + gridSize == (q + 1) * gridSize;
      MultipleIsAligned(q + 1, gridSize);
      (q + 1) * gridSize
  }

  /** Every multiple of the grid at or above `minCeil` is at or above the
      corrected first mark, so enumerating from it misses nothing. */
  lemma CorrectedFirstMarkIsLeast(minCeil: int, gridSize: int, v: int)
    requires gridSize > 0 && v % gridSize == 0 && minCeil <= v
    ensures CorrectedFirstMark(minCeil, gridSize) <= v
  {
    var start := CorrectedFirstMark(minCeil, gridSize);
    var ks, kv := start / gridSize, v / gridSize;
    assert start == ks * gridSize && v == kv * gridSize;
    if v < start {
      FactorsOrdered(kv, ks, gridSize);
      MulMonotone(kv, ks - 1, gridSize);
    }
  }

  /** On non-negative starts the source and the correction agree. */
  lemma CorrectedAgreesOnNonNegative(minCeil: int, gridSize: int)
    requires gridSize > 0 && 0 <= minCeil
    ensures FirstMark(minCeil, gridSize) == CorrectedFirstMark(minCeil, gridSize)
  {
  }

  /** The list enumerated from the intended first mark. */
  function CorrectedSuitableCoordinates(minCeil: int, maxFloor: int, gridSize: int): seq<int>
    requires gridSize > 0
  {
    var start := CorrectedFirstMark(minCeil, gridSize);
    seq(MarkCount(start, maxFloor, gridSize), i => start + i * gridSize)
  }

  /** From the intended first mark every listed coordinate is still a
      multiple of the grid between the bounds. */
  lemma CorrectedSuitableCoordinatesSound(minCeil: int, maxFloor: int, gridSize: int, i: int)
    requires gridSize > 0
    requires 0 <= i < |CorrectedSuitableCoordinates(minCeil, maxFloor, gridSize)|
    ensures CorrectedSuitableCoordinates(minCeil, maxFloor, gridSize)[i] % gridSize == 0
    ensures minCeil <= CorrectedSuitableCoordinates(minCeil, maxFloor, gridSize)[i] <= maxFloor
  {
    var start := CorrectedFirstMark(minCeil, gridSize);
    var n := MarkCount(start, maxFloor, gridSize);
    assert CorrectedSuitableCoordinates(minCeil, maxFloor, gridSize)[i] == start + i * gridSize;
    MulMonotone(0, i, gridSize);
    MulMonotone(i, n - 1, gridSize);
    StepKeepsAlignment(start, i, gridSize);
  }

  /** For bounds of every sign, every multiple of the grid between them is
      listed from the intended first mark. */
  lemma CorrectedSuitableCoordinatesComplete(minCeil: int, maxFloor: int, gridSize: int, v: int)
    requires gridSize > 0
    requires v % gridSize == 0 && minCeil <= v <= maxFloor
    ensures v in CorrectedSuitableCoordinates(minCeil, maxFloor, gridSize)
  {
    var start := CorrectedFirstMark(minCeil, gridSize);
    CorrectedFirstMarkIsLeast(minCeil, gridSize, v);
    var ks, kv := start / gridSize, v / gridSize;
    assert start == ks * gridSize && v == kv * gridSize;
    var i := kv - ks;
    assert i * gridSize == v - start;
    assert 0 <= i by {
      if ks > kv {
        MulMonotone(kv + 1, ks, gridSize);
      }
    }
    var n := MarkCount(start, maxFloor, gridSize);
    assert i < n by {
      if i >= n {
        MulMonotone(n, i, gridSize);
      }
    }
    assert CorrectedSuitableCoordinates(minCeil, maxFloor, gridSize)[i] == v;
  }
}
