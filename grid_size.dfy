/** The grid-size heuristic: a map-scale denominator (1:scale) is mapped to
    the spacing, in metres, of the coordinate marks drawn on the axes. */
module GridSizing {

  /** One row of the step table: scales strictly below `below` get `size`. */
  datatype Step = Step(below: int, size: int)

  /** The table the if-chain encodes, thresholds ascending. */
  const Steps: seq<Step> := [
    Step(500, 20), Step(1000, 50), Step(2000, 100), Step(5000, 200),
    Step(25000, 1000), Step(50000, 2000), Step(75000, 3000),
    Step(100000, 4000), Step(150000, 8000), Step(250000, 12000)
  ]

  /** Grid size for every scale at or above the last threshold. */
  const Coarsest: int := 20000

  /** `getGridSize`: the strict `<` comparisons in ascending order. */
  function GridSize(scale: int): (size: int)
    ensures 20 <= size <= Coarsest
    ensures size in {20, 50, 100, 200, 1000, 2000, 3000, 4000, 8000, 12000, 20000}
  {
    if scale < 500 then 20
    else if scale < 1000 then 50
    else if scale < 2000 then 100
    else if scale < 5000 then 200
    else if scale < 25000 then 1000
    else if scale < 50000 then 2000
    else if scale < 75000 then 3000
    else if scale < 100000 then 4000
    else if scale < 150000 then 8000
    else if scale < 250000 then 12000
    else 20000
  }

  /** Reference reading of a step table: the first row whose threshold lies
      strictly above `scale`, or `last` when there is none. */
  function Lookup(steps: seq<Step>, scale: int, last: int): int
  {
    if steps == [] then last
    else if scale < steps[0].below then steps[0].size
    else Lookup(steps[1..], scale, last)
  }

  /** Thresholds strictly ascending and sizes non-decreasing from row to
      row, `last` the largest size. */
  ghost predicate Ascending(steps: seq<Step>, last: int)
  {
    (forall i :: 0 <= i < |steps| - 1 ==> steps[i].below < steps[i + 1].below && steps[i].size <= steps[i + 1].size) &&
    (forall i :: 0 <= i < |steps| ==> steps[i].size <= last)
  }

  /** In an ascending table no lookup falls below the first row's size. */
  lemma {:induction false} LookupAtLeastFirst(steps: seq<Step>, scale: int, last: int)
    requires steps != [] && Ascending(steps, last)
    ensures steps[0].size <= Lookup(steps, scale, last)
  {
    if scale >= steps[0].below {
      if |steps| == 1 {
        assert Lookup(steps[1..], scale, last) == last;
      } else {
        assert Ascending(steps[1..], last);
        LookupAtLeastFirst(steps[1..], scale, last);
        assert steps[0].size <= steps[1].size;
      }
    }
  }

  /** Reading an ascending table is monotone in the scale. */
  lemma {:induction false} LookupMonotone(steps: seq<Step>, last: int, a: int, b: int)
    requires Ascending(steps, last) && a <= b
    ensures Lookup(steps, a, last) <= Lookup(steps, b, last)
  {
    if steps != [] {
      if a < steps[0].below {
        LookupAtLeastFirst(steps, b, last);
      } else {
        assert Ascending(steps[1..], last);
        LookupMonotone(steps[1..], last, a, b);
      }
    }
  }

  lemma StepsAscending()
    ensures Ascending(Steps, Coarsest)
  {
    var s := Steps;
    assert s[0] == Step(500, 20) && s[1] == Step(1000, 50) && s[2] == Step(2000, 100);
    assert s[3] == Step(5000, 200) && s[4] == Step(25000, 1000) && s[5] == Step(50000, 2000);
    assert s[6] == Step(75000, 3000) && s[7] == Step(100000, 4000);
    assert s[8] == Step(150000, 8000) && s[9] == Step(250000, 12000);
  }

  /** The if-chain is exactly the table read row by row. */
  lemma GridSizeIsTableLookup(scale: int)
    ensures GridSize(scale) == Lookup(Steps, scale, Coarsest)
  {
    var s := Steps;
    assert s[1..] == Steps[1..];
    assert Lookup(s, scale, Coarsest) == if scale < 500 then 20 else Lookup(s[1..], scale, Coarsest);
    assert Lookup(s[1..], scale, Coarsest) == if scale < 1000 then 50 else Lookup(s[2..], scale, Coarsest);
    assert Lookup(s[2..], scale, Coarsest) == if scale < 2000 then 100 else Lookup(s[3..], scale, Coarsest);
    assert Lookup(s[3..], scale, Coarsest) == if scale < 5000 then 200 else Lookup(s[4..], scale, Coarsest);
    assert Lookup(s[4..], scale, Coarsest) == if scale < 25000 then 1000 else Lookup(s[5..], scale, Coarsest);
    assert Lookup(s[5..], scale, Coarsest) == if scale < 50000 then 2000 else Lookup(s[6..], scale, Coarsest);
    assert Lookup(s[6..], scale, Coarsest) == if scale < 75000 then 3000 else Lookup(s[7..], scale, Coarsest);
    assert Lookup(s[7..], scale, Coarsest) == if scale < 100000 then 4000 else Lookup(s[8..], scale, Coarsest);
    assert Lookup(s[8..], scale, Coarsest) == if scale < 150000 then 8000 else Lookup(s[9..], scale, Coarsest);
    assert Lookup(s[9..], scale, Coarsest) == if scale < 250000 then 12000 else Lookup(s[10..], scale, Coarsest);
    assert s[10..] == [];
  }

  /** A coarser map (larger scale denominator) never gets a finer grid. */
  lemma GridSizeMonotone(a: int, b: int)
    requires a <= b
    ensures GridSize(a) <= GridSize(b)
  {
    GridSizeIsTableLookup(a);
    GridSizeIsTableLookup(b);
    StepsAscending();
    LookupMonotone(Steps, Coarsest, a, b);
  }

  /** Boundary cases: every threshold belongs to the next row. */
  lemma GridSizeBoundaries()
    ensures GridSize(499) == 20 && GridSize(500) == 50
    ensures GridSize(99999) == 4000 && GridSize(100000) == 8000
    ensures GridSize(249999) == 12000 && GridSize(250000) == 20000
    ensures GridSize(300000) == 20000 && GridSize(-1) == 20
  {
  }
}
