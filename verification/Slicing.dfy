/** The slicing loop of the epoch generator: what intervals it produces, for every
    range and granularity. */
module Slicing {
  import opened Grid
  import opened Granularity
  import WrappedHours

  /** The half-open interval [start, end). */
  datatype Slice = Slice(start: int, end: int)

  /** The intervals the loop yields from `current` on. */
  function Slices(current: int, end: int, g: EpochGranularity): seq<Slice>
    requires Advances(g)
    decreases if current < end then end - current else 0
  {
    if current >= end then []
    else
      AddMovesForward(current, g);
      var next := AddGranularity(current, g);
      [Slice(current, next)] + Slices(next, end, g)
  }

  lemma SlicesStep(current: int, end: int, g: EpochGranularity)
    requires Advances(g) && current < end
    ensures var next := AddGranularity(current, g);
            Slices(current, end, g) == [Slice(current, next)] + Slices(next, end, g)
  {
    hide AddGranularity, Advances;
  }

  lemma SlicesEnd(current: int, end: int, g: EpochGranularity)
    requires Advances(g) && current >= end
    ensures Slices(current, end, g) == []
  {
    hide Advances;
  }

  function SliceRange(start: int, end: int, g: EpochGranularity): seq<Slice>
    requires Advances(g)
  {
    Slices(TruncateToGranularity(start, g.unit), end, g)
  }

  // ---------------------------------------------------------------- termination

  function Iterate(t: int, g: EpochGranularity, n: nat): int {
    if n == 0 then t else AddGranularity(Iterate(t, g, n - 1), g)
  }

  /** When Advances fails the loop guard `current < end` never becomes false: the
      condition is exact for termination. */
  lemma {:induction false} StuckLoopNeverEnds(start: int, end: int, g: EpochGranularity, n: nat)
    requires start < end && !Advances(g)
    ensures Iterate(TruncateToGranularity(start, g.unit), g, n) < end
  {
    hide AddGranularity, TruncateToGranularity, IsBoundary, Advances;
    var t := TruncateToGranularity(start, g.unit);
    TruncateIsGreatestBoundary(start, g.unit, t);
    if n > 0 {
      StuckLoopNeverEnds(start, end, g, n - 1);
      AddMovesForward(Iterate(t, g, n - 1), g);
    }
  }

  // ---------------------------------------------------------------- tiling

  /** Non-empty, contiguous, strictly ordered intervals that start at `from`; only the
      last one reaches `end`. */
  ghost predicate Tiles(ss: seq<Slice>, from: int, end: int) {
    && |ss| > 0
    && ss[0].start == from
    && (forall k :: 0 <= k < |ss| ==> ss[k].start < ss[k].end)
    && (forall k :: 0 <= k < |ss| - 1 ==> ss[k].end == ss[k + 1].start)
    && ss[|ss| - 1].start < end <= ss[|ss| - 1].end
  }

  lemma {:induction false} SlicesTile(current: int, end: int, g: EpochGranularity)
    requires Advances(g) && current < end
    ensures Tiles(Slices(current, end, g), current, end)
    decreases end - current
  {
    hide AddGranularity, Advances;
    AddMovesForward(current, g);
    var next := AddGranularity(current, g);
    var rest := Slices(next, end, g);
    if next < end {
      SlicesTile(next, end, g);
      var ss := Slices(current, end, g);
      assert forall k :: 1 <= k < |ss| ==> ss[k] == rest[k - 1];
    }
  }

  /** A tiling covers: every instant from the first start up to `end` lies in exactly
      one interval. */
  lemma {:induction false} TilingCovers(ss: seq<Slice>, from: int, end: int, t: int) returns (k: nat)
    requires Tiles(ss, from, end) && from <= t < end
    ensures k < |ss| && ss[k].start <= t < ss[k].end
    ensures forall j :: 0 <= j < |ss| && ss[j].start <= t < ss[j].end ==> j == k
  {
    k := 0;
    while t >= ss[k].end
      invariant k < |ss| && ss[k].start <= t
      decreases |ss| - k
    {
      k := k + 1;
    }
    forall j | 0 <= j < |ss| && ss[j].start <= t < ss[j].end ensures j == k {
      if j < k { TilingOrdered(ss, from, end, j, k); }
      if k < j { TilingOrdered(ss, from, end, k, j); }
    }
  }

  lemma {:induction false} TilingOrdered(ss: seq<Slice>, from: int, end: int, j: nat, k: nat)
    requires Tiles(ss, from, end) && j < k < |ss|
    ensures ss[j].end <= ss[k].start
    decreases k
  {
    if j < k - 1 { TilingOrdered(ss, from, end, j, k - 1); }
  }

  /** Enlarging the end only appends. */
  lemma {:induction false} LargerEndAppends(current: int, end: int, end': int, g: EpochGranularity)
    requires Advances(g) && end <= end'
    ensures Slices(current, end, g) <= Slices(current, end', g)
    decreases if current < end then end - current else 0
  {
    hide AddGranularity, Advances;
    if current < end {
      AddMovesForward(current, g);
      LargerEndAppends(AddGranularity(current, g), end, end', g);
    }
  }

  // ---------------------------------------------------------------- closed form

  /** Interval k of a run that starts at boundary i. */
  function GridSlice(g: EpochGranularity, i: int): Slice {
    Slice(Boundary(g.unit, i), Boundary(g.unit, i + g.value))
  }

  /** How many intervals a run from boundary i needs to reach `end`. */
  function Count(g: EpochGranularity, i: int, end: int): nat
    requires g.value >= 1
  {
    var last := Cell(g.unit, end - 1);
    if last < i then 0 else (last - i) / g.value + 1
  }

  /** Boundary i lies before `end` exactly when its cell is not after the last cell. */
  lemma BoundaryBeforeEnd(unit: Unit, i: int, end: int)
    ensures Boundary(unit, i) < end <==> i <= Cell(unit, end - 1)
  {
    hide Boundary, Cell;
    CellContains(unit, end - 1);
    BoundariesFormGrid(unit);
    CellOrder(Boundaries(unit), Cell(unit, end - 1), end - 1, i);
  }

  lemma CountStep(d: int, v: int)
    requires v >= 1 && d >= 0
    ensures d / v == if d < v then 0 else (d - v) / v + 1
  {
    if d >= v { FloorDiv(d, v, (d - v) / v + 1, (d - v) % v); } else { FloorDiv(d, v, 0, d); }
  }

  lemma SaneAdvances(g: EpochGranularity)
    requires Sane(g)
    ensures Advances(g)
  {
    HourProductFits(g.value);
  }

  /** For sane granularities the run is a closed form: every boundary is a calendar
      boundary, interval k spans `value` cells from cell i + k * value. */
  lemma {:induction false} SlicesClosedForm(g: EpochGranularity, i: int, end: int)
    requires Sane(g)
    ensures Advances(g)
    ensures Slices(Boundary(g.unit, i), end, g)
            == seq(Count(g, i, end), k requires k >= 0 => GridSlice(g, i + k * g.value))
    decreases Count(g, i, end)
  {
    hide Boundary, Cell, AddGranularity, Advances, Wrap64;
    SaneAdvances(g);
    BoundaryBeforeEnd(g.unit, i, end);
    var n := Count(g, i, end);
    if n > 0 {
      StepOnGrid(g, i);
      CountStep(Cell(g.unit, end - 1) - i, g.value);
      assert Count(g, i + g.value, end) == n - 1;
      SlicesClosedForm(g, i + g.value, end);
      var rest := Slices(Boundary(g.unit, i + g.value), end, g);
      assert Slices(Boundary(g.unit, i), end, g) == [GridSlice(g, i)] + rest;
      forall k | 1 <= k < n ensures rest[k - 1] == GridSlice(g, i + k * g.value) {
        assert i + g.value + (k - 1) * g.value == i + k * g.value;
      }
    }
  }

  /** A whole range: it runs from the cell of start, its first interval contains start,
      and the number of intervals is decided by the cells of start and of end - 1. */
  lemma RangeClosedForm(start: int, end: int, g: EpochGranularity)
    requires Sane(g) && start < end
    ensures Advances(g)
    ensures var i := Cell(g.unit, start);
            && Count(g, i, end) == (Cell(g.unit, end - 1) - i) / g.value + 1
            && SliceRange(start, end, g) == seq(Count(g, i, end), k requires k >= 0 => GridSlice(g, i + k * g.value))
            && GridSlice(g, i).start <= start < GridSlice(g, i).end
  {
    hide Boundary, Cell, AddGranularity, Advances, TruncateToGranularity;
    var i := Cell(g.unit, start);
    TruncateToCell(start, g.unit);
    SlicesClosedForm(g, i, end);
    CellContains(g.unit, start);
    BoundaryBeforeEnd(g.unit, i, end);
    BoundaryOrder(g.unit, i + g.value, i + 1);
  }

  /** Width of one step in nanoseconds, for the units that have one. */
  function StepWidth(g: EpochGranularity): int
    requires !g.unit.Month?
  {
    match g.unit
    case Hour => Wrap64(g.value * HOUR)
    case Day => g.value * DAY
    case Week => g.value * 7 * DAY
  }

  lemma StepHasWidth(t: int, g: EpochGranularity)
    requires !g.unit.Month?
    ensures AddGranularity(t, g) == t + StepWidth(g)
  {
    hide AddDate;
    match g.unit
    case Hour =>
    case Day => AddDays(t, g.value);
    case Week => AddDays(t, g.value * 7);
  }

  /** Interval k starts k widths after the first. */
  lemma {:induction false} UniformSlices(current: int, end: int, g: EpochGranularity, k: nat)
    requires Advances(g) && !g.unit.Month? && k < |Slices(current, end, g)|
    ensures Slices(current, end, g)[k].start == current + k * StepWidth(g)
    ensures Slices(current, end, g)[k].end == current + (k + 1) * StepWidth(g)
    decreases k
  {
    hide AddGranularity, Advances, StepWidth;
    var w := StepWidth(g);
    StepHasWidth(current, g);
    assert (k + 1) * w == k * w + w;
    if k > 0 {
      UniformSlices(current + w, end, g, k - 1);
      assert k * w == (k - 1) * w + w;
    }
  }

  /** For hours, days and weeks the count is ceil((end - truncated start) / step), for
      every granularity with which the loop ends. */
  lemma CountIsCeiling(start: int, end: int, g: EpochGranularity)
    requires Advances(g) && !g.unit.Month? && start < end
    ensures var n := |SliceRange(start, end, g)|;
            var span := end - TruncateToGranularity(start, g.unit);
            (n - 1) * StepWidth(g) < span <= n * StepWidth(g)
  {
    hide StepWidth, IsBoundary, Advances, TruncateToGranularity, Slices;
    var from := TruncateToGranularity(start, g.unit);
    TruncateIsGreatestBoundary(start, g.unit, start);
    SlicesTile(from, end, g);
    UniformSlices(from, end, g, |Slices(from, end, g)| - 1);
  }

  // ---------------------------------------------------------------- overlap

  /** Two intervals are identical or disjoint. */
  predicate Compatible(a: Slice, b: Slice) {
    a == b || a.end <= b.start || b.end <= a.start
  }

  ghost predicate AllCompatible(ss: seq<Slice>, ts: seq<Slice>) {
    forall j, k :: 0 <= j < |ss| && 0 <= k < |ts| ==> Compatible(ss[j], ts[k])
  }

  /** Steps of the same granularity whose first cells agree modulo the value never
      partially overlap. */
  lemma SameResidueCompatible(g: EpochGranularity, i: int, j: int)
    requires g.value >= 1 && i % g.value == j % g.value
    ensures Compatible(GridSlice(g, i), GridSlice(g, j))
  {
    hide Boundary;
    CongruentApart(i, j, g.value);
    if i > j {
      BoundaryOrder(g.unit, i, j + g.value);
    } else if i < j {
      BoundaryOrder(g.unit, j, i + g.value);
    }
  }

  /** Different numbers with one residue are at least the modulus apart. */
  lemma CongruentApart(i: int, j: int, v: int)
    requires v >= 1 && i % v == j % v
    ensures i > j ==> i >= j + v
    ensures i < j ==> j >= i + v
  {
    var q, p := i / v, j / v;
    var r := i % v;
    assert i == v * q + r && j == v * p + r;
    if q > p { MultiplesApart(v, p, q); } else if q < p { MultiplesApart(v, q, p); }
  }

  lemma MultiplesApart(v: int, p: int, q: int)
    requires v >= 1 && p < q
    ensures v * q >= v * p + v
  {
    var d := q - p - 1;
    assert v * q == v * p + v + v * d;
    assert v * d >= 0;
  }

  lemma ShiftKeepsResidue(i: int, k: int, v: int)
    requires v >= 1
    ensures (i + k * v) % v == i % v
  {
    FloorDiv(i + k * v, v, i / v + k, i % v);
  }

  /** Two ranges sliced alike from congruent cells fit together. */
  lemma CongruentRangesCompatible(g: EpochGranularity, s1: int, e1: int, s2: int, e2: int)
    requires Sane(g) && s1 < e1 && s2 < e2
    requires Cell(g.unit, s1) % g.value == Cell(g.unit, s2) % g.value
    ensures Advances(g) && AllCompatible(SliceRange(s1, e1, g), SliceRange(s2, e2, g))
  {
    hide Boundary, Cell, Advances, SliceRange;
    RangeClosedForm(s1, e1, g);
    RangeClosedForm(s2, e2, g);
    var i1, i2 := Cell(g.unit, s1), Cell(g.unit, s2);
    forall j, k | 0 <= j < |SliceRange(s1, e1, g)| && 0 <= k < |SliceRange(s2, e2, g)|
      ensures Compatible(SliceRange(s1, e1, g)[j], SliceRange(s2, e2, g)[k])
    {
      ShiftKeepsResidue(i1, j, g.value);
      ShiftKeepsResidue(i2, k, g.value);
      SameResidueCompatible(g, i1 + j * g.value, i2 + k * g.value);
    }
  }

  /** Whatever two ranges are asked for, their slices never partially overlap. */
  ghost predicate NeverPartiallyOverlaps(g: EpochGranularity)
    requires Advances(g)
  {
    forall s1, e1, s2, e2 :: s1 < e1 && s2 < e2 ==> AllCompatible(SliceRange(s1, e1, g), SliceRange(s2, e2, g))
  }

  /** Exactly the granularities with value 1 have that property, among all with which the
      loop ends: larger steps started one cell apart overlap, and a wrapped hour product never
      divides an hour. */
  lemma NeverOverlapsIffValueOne(g: EpochGranularity)
    requires Advances(g)
    ensures NeverPartiallyOverlaps(g) <==> g.value == 1
  {
    hide Boundary, Cell, SliceRange, Wrap64, AllCompatible;
    if g.value == 1 {
      forall s1, e1, s2, e2 | s1 < e1 && s2 < e2
        ensures AllCompatible(SliceRange(s1, e1, g), SliceRange(s2, e2, g))
      {
        CongruentRangesCompatible(g, s1, e1, s2, e2);
      }
    } else if g.unit.Hour? {
      HourStepsOverlap(g);
    } else {
      StepsOneCellApart(g);
    }
  }

  /** A step that does not divide an hour cuts through the start of the next one. */
  lemma HourStepsOverlap(g: EpochGranularity)
    requires Advances(g) && g.unit.Hour? && g.value != 1
    ensures !NeverPartiallyOverlaps(g)
  {
    hide IsBoundary, Slices, TruncateToGranularity, Wrap64;
    var w := StepWidth(g);
    WrappedHours.StepDividesHourIffOne(g.value);
    TruncateIsGreatestBoundary(0, Hour, 0);
    TruncateIsGreatestBoundary(HOUR, Hour, HOUR);
    assert TruncateToGranularity(0, Hour) == 0 && TruncateToGranularity(HOUR, Hour) == HOUR by { HourStarts(); }
    var a, b := SliceRange(0, HOUR + 1, g), SliceRange(HOUR, HOUR + 1, g);
    SlicesTile(0, HOUR + 1, g);
    SlicesTile(HOUR, HOUR + 1, g);
    var k := TilingCovers(a, 0, HOUR + 1, HOUR);
    UniformSlices(0, HOUR + 1, g, k);
    UniformSlices(HOUR, HOUR + 1, g, 0);
    if k * w == HOUR { FloorDiv(HOUR, w, k, 0); }
    assert (k + 1) * w == k * w + w;
    assert !Compatible(a[k], b[0]);
    assert !AllCompatible(a, b);
  }

  lemma HourStarts()
    ensures TruncateToGranularity(0, Hour) == 0 && TruncateToGranularity(HOUR, Hour) == HOUR
  {
  }

  lemma StepsOneCellApart(g: EpochGranularity)
    requires Sane(g) && g.value >= 2
    ensures Advances(g) && !NeverPartiallyOverlaps(g)
  {
    hide Boundary, IsBoundary, Cell, Advances, SliceRange;
    BoundaryIsBoundary(g.unit, 0);
    BoundaryIsBoundary(g.unit, 1);
    var s1, s2 := Boundary(g.unit, 0), Boundary(g.unit, 1);
    RangeClosedForm(s1, s1 + 1, g);
    RangeClosedForm(s2, s2 + 1, g);
    var a, b := SliceRange(s1, s1 + 1, g), SliceRange(s2, s2 + 1, g);
    assert a[0] == GridSlice(g, 0) && b[0] == GridSlice(g, 1);
    BoundaryOrder(g.unit, 0, 1);
    BoundaryOrder(g.unit, 1, g.value);
    BoundaryOrder(g.unit, 0, g.value + 1);
    assert !Compatible(a[0], b[0]);
    assert !AllCompatible(a, b);
  }

  /** With value 1 the slices of a range are exactly the calendar cells that meet it. */
  lemma SlicesAreCellsMet(unit: Unit, start: int, end: int, j: int)
    requires start < end
    ensures var g := EpochGranularity(1, unit);
            Advances(g) && (GridSlice(g, j) in SliceRange(start, end, g)
                            <==> Boundary(unit, j) < end && start < Boundary(unit, j + 1))
  {
    hide Boundary, Cell, Advances, SliceRange;
    var g := EpochGranularity(1, unit);
    RangeClosedForm(start, end, g);
    var i := Cell(unit, start);
    var ss := SliceRange(start, end, g);
    BoundaryBeforeEnd(unit, j, end);
    CellContains(unit, start);
    BoundariesFormGrid(unit);
    CellOrder(Boundaries(unit), i, start, j + 1);
    if i <= j <= Cell(unit, end - 1) {
      assert ss[j - i] == GridSlice(g, j);
    }
    forall k | 0 <= k < |ss| && ss[k] == GridSlice(g, j) ensures j == i + k {
      BoundaryOrder(unit, j, i + k);
    }
  }
}
