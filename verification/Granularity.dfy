/** truncateToGranularity and addGranularity of the epoch generator, on instants
    given as nanoseconds UTC since 1970-01-01T00:00:00Z. */
module Granularity {
  import opened Grid
  import opened Calendar

  type int32 = x: int | -0x8000_0000 <= x < 0x8000_0000

  datatype Unit = Hour | Day | Week | Month
  datatype EpochGranularity = EpochGranularity(value: int32, unit: Unit)

  const HOUR: int := 3_600_000_000_000
  const DAY: int := 86_400_000_000_000

  /** time.Duration is a signed 64-bit count: products wrap around. */
  function Wrap64(x: int): int {
    (x + 0x8000_0000_0000_0000) % 0x1_0000_0000_0000_0000 - 0x8000_0000_0000_0000
  }

  function DayOf(t: int): int { t / DAY }

  /** Time.Weekday: Sunday is 0, and 1970-01-01 was a Thursday. */
  function Weekday(t: int): int { (DayOf(t) + 4) % 7 }

  /** time.Date(y, m, d, 0, 0, 0, nanos, UTC). */
  function Date(y: int, m: int, d: int, nanos: int): int {
    DateDay(y, m, d) * DAY + nanos
  }

  /** Time.AddDate: add to the date's fields, keep the clock, normalise. */
  function AddDate(t: int, years: int, months: int, days: int): int {
    var c := CivilOf(DayOf(t));
    Date(c.year + years, c.month + months, c.day + days, t % DAY)
  }

  /** Time.Truncate(time.Hour) rounds down to whole hours since 0001-01-01. */
  function TruncateToHour(t: int): int {
    t - (t + UNIX_DAY * DAY) % HOUR
  }

  function TruncateToDay(t: int): int {
    var c := CivilOf(DayOf(t));
    Date(c.year, c.month, c.day, 0)
  }

  function TruncateToGranularity(t: int, unit: Unit): int {
    match unit
    case Hour => TruncateToHour(t)
    case Day => TruncateToDay(t)
    case Week =>
      var weekday := if Weekday(t) == 0 then 7 else Weekday(t);
      TruncateToDay(AddDate(t, 0, 0, -(weekday - 1)))
    case Month =>
      var c := CivilOf(DayOf(t));
      Date(c.year, c.month, 1, 0)
  }

  function AddGranularity(t: int, g: EpochGranularity): int {
    match g.unit
    case Hour => t + Wrap64(g.value * HOUR)
    case Day => AddDate(t, 0, 0, g.value)
    case Week => AddDate(t, 0, 0, g.value * 7)
    case Month => AddDate(t, 0, g.value, 0)
  }

  // ---------------------------------------------------------------- calendar cells

  /** A calendar boundary of a unit: a whole hour, a midnight, a Monday midnight
      (section 3.2.2 of ISO 8601:2004) or a first-of-month midnight. */
  predicate IsBoundary(unit: Unit, t: int) {
    match unit
    case Hour => t % HOUR == 0
    case Day => t % DAY == 0
    case Week => t % DAY == 0 && Weekday(t) == 1
    case Month => t % DAY == 0 && CivilOf(DayOf(t)).day == 1
  }

  /** The boundaries of a unit, numbered: the grid of its calendar cells. */
  function Boundary(unit: Unit, i: int): int {
    match unit
    case Hour => i * HOUR
    case Day => i * DAY
    case Week => (7 * i + 4) * DAY
    case Month => MonthStart(i) * DAY
  }

  function Boundaries(unit: Unit): int -> int {
    i => Boundary(unit, i)
  }

  /** The number of the calendar cell an instant falls in. */
  function Cell(unit: Unit, t: int): int {
    match unit
    case Hour => t / HOUR
    case Day => DayOf(t)
    case Week => (DayOf(t) - 4) / 7
    case Month => MonthIndex(CivilOf(DayOf(t)))
  }

  lemma BoundariesFormGrid(unit: Unit)
    ensures IsGrid(Boundaries(unit))
  {
    hide MonthStart;
    if unit.Month? { MonthsFormGrid(); }
  }

  lemma BoundaryOrder(unit: Unit, i: int, j: int)
    ensures i < j <==> Boundary(unit, i) < Boundary(unit, j)
    ensures i == j <==> Boundary(unit, i) == Boundary(unit, j)
  {
    hide Boundary;
    BoundariesFormGrid(unit);
    Order(Boundaries(unit), i, j);
  }

  lemma InMonth(t: int)
    ensures var i := MonthIndex(CivilOf(DayOf(t)));
            MonthStart(i) * DAY <= t < MonthStart(i + 1) * DAY
  {
    hide MonthStart, CivilOf;
    CivilOfDay(DayOf(t));
  }

  lemma CellContains(unit: Unit, t: int)
    ensures InCell(Boundaries(unit), Cell(unit, t), t)
  {
    hide MonthStart, CivilOf;
    match unit
    case Hour =>
    case Day =>
    case Week =>
      var i := (DayOf(t) - 4) / 7;
      assert 7 * i + 4 <= DayOf(t) < 7 * (i + 1) + 4;
    case Month => InMonth(t);
  }

  /** A date at midnight is that day's midnight. */
  lemma MidnightOf(t: int)
    ensures TruncateToDay(t) == DayOf(t) * DAY
  {
    hide MonthStart, CivilOf;
    CivilOfDay(DayOf(t));
  }

  /** Adding days keeps the clock and shifts by whole days, whatever months they cross. */
  lemma AddDays(t: int, days: int)
    ensures AddDate(t, 0, 0, days) == t + days * DAY
  {
    hide MonthStart, CivilOf;
    CivilOfDay(DayOf(t));
  }

  lemma DayShift(t: int, k: int)
    ensures DayOf(t + k * DAY) == DayOf(t) + k && (t + k * DAY) % DAY == t % DAY
  {
    FloorDiv(t + k * DAY, DAY, DayOf(t) + k, t % DAY);
  }

  lemma DayOfMidnight(n: int)
    ensures DayOf(n * DAY) == n && (n * DAY) % DAY == 0
  {
  }

  /** The numbered boundaries are boundaries in the calendar's own terms, and boundary
      i opens cell i. For months: month i starts on the first of a month. */
  lemma BoundaryIsBoundary(unit: Unit, i: int)
    ensures IsBoundary(unit, Boundary(unit, i))
    ensures Cell(unit, Boundary(unit, i)) == i
  {
    match unit
    case Hour =>
    case Day => DayOfMidnight(i);
    case Week =>
      DayOfMidnight(7 * i + 4);
      FloorDiv(7 * i + 8, 7, i + 1, 1);
    case Month =>
      DayOfMidnight(MonthStart(i));
      var c := Civil(i / 12, i % 12 + 1, 1);
      assert MonthIndex(c) == i;
      CivilRoundTrip(c);
  }

  /** Every calendar boundary is a numbered one. */
  lemma BoundaryIsNumbered(unit: Unit, t: int)
    requires IsBoundary(unit, t)
    ensures t == Boundary(unit, Cell(unit, t))
  {
    hide MonthStart, CivilOf;
    match unit
    case Hour =>
    case Day =>
    case Week => FloorDiv(DayOf(t) - 4, 7, (DayOf(t) - 4) / 7, 0);
    case Month => CivilOfDay(DayOf(t));
  }

  // ---------------------------------------------------------------- truncation

  lemma TruncateToHourFloor(t: int)
    ensures TruncateToHour(t) == t / HOUR * HOUR
  {
    var k := UNIX_DAY * 24;
    assert UNIX_DAY * DAY == k * HOUR;
    FloorDiv(t + k * HOUR, HOUR, t / HOUR + k, t % HOUR);
  }

  /** Stepping back to Monday: weekday - 1 days, counting Sunday as day 7. */
  lemma BackToMonday(t: int)
    ensures var weekday := if Weekday(t) == 0 then 7 else Weekday(t);
            DayOf(t) - (weekday - 1) == 7 * Cell(Week, t) + 4
  {
    var n := DayOf(t);
    var i := (n - 4) / 7;
    var r := (n - 4) % 7;
    FloorDiv(n + 4, 7, if r == 6 then i + 2 else i + 1, if r == 6 then 0 else r + 1);
  }

  lemma TruncateToWeek(t: int)
    ensures TruncateToGranularity(t, Week) == Boundary(Week, Cell(Week, t))
  {
    hide AddDate, TruncateToDay;
    var back := (if Weekday(t) == 0 then 7 else Weekday(t)) - 1;
    assert TruncateToGranularity(t, Week) == TruncateToDay(AddDate(t, 0, 0, -back));
    AddDays(t, -back);
    var u := t + -back * DAY;
    MidnightOf(u);
    assert DayOf(u) == 7 * Cell(Week, t) + 4 by {
      BackToMonday(t);
      DayShift(t, -back);
    }
  }

  /** Truncation goes to the start of the instant's calendar cell. */
  lemma TruncateToCell(t: int, unit: Unit)
    ensures TruncateToGranularity(t, unit) == Boundary(unit, Cell(unit, t))
  {
    hide TruncateToHour, TruncateToDay;
    match unit
    case Hour => TruncateToHourFloor(t);
    case Day => MidnightOf(t);
    case Week => TruncateToWeek(t);
    case Month =>
  }

  /** Truncation yields the greatest calendar boundary not after t. */
  lemma TruncateIsGreatestBoundary(t: int, unit: Unit, b: int)
    ensures IsBoundary(unit, TruncateToGranularity(t, unit))
    ensures TruncateToGranularity(t, unit) <= t
    ensures IsBoundary(unit, b) && b <= t ==> b <= TruncateToGranularity(t, unit)
  {
    hide Boundary, IsBoundary, Cell, TruncateToGranularity;
    TruncateToCell(t, unit);
    BoundaryIsBoundary(unit, Cell(unit, t));
    CellContains(unit, t);
    if IsBoundary(unit, b) {
      BoundariesFormGrid(unit);
      BoundaryIsNumbered(unit, b);
      CellOrder(Boundaries(unit), Cell(unit, t), t, Cell(unit, b));
      BoundaryOrder(unit, Cell(unit, t), Cell(unit, b));
    }
  }

  // ---------------------------------------------------------------- stepping

  /** The step of one iteration moves forward. For hours this is decided by the
      wrapped 64-bit product, not by the sign of the value. */
  predicate Advances(g: EpochGranularity) {
    if g.unit.Hour? then Wrap64(g.value * HOUR) > 0 else g.value >= 1
  }

  /** The values the proto comment allows (> 0) whose hour product does not overflow. */
  predicate Sane(g: EpochGranularity) {
    g.value >= 1 && (g.unit.Hour? ==> g.value <= 2_562_047)
  }

  lemma MonthStepBy(t: int, k: int)
    ensures var c := CivilOf(DayOf(t));
            AddDate(t, 0, k, 0) - t == (MonthStart(MonthIndex(c) + k) - MonthStart(MonthIndex(c))) * DAY
  {
    hide MonthStart, CivilOf;
    CivilOfDay(DayOf(t));
  }

  lemma AddMonthsForward(t: int, k: int)
    ensures AddDate(t, 0, k, 0) > t <==> k >= 1
  {
    hide MonthStart, CivilOf, AddDate;
    var i := MonthIndex(CivilOf(DayOf(t)));
    MonthStepBy(t, k);
    MonthOrder(i, i + k);
  }

  /** One addGranularity moves every instant forward when Advances holds and moves no
      instant forward when it does not. */
  lemma AddMovesForward(t: int, g: EpochGranularity)
    ensures AddGranularity(t, g) > t <==> Advances(g)
  {
    match g.unit
    case Hour =>
    case Day => AddDays(t, g.value);
    case Week => AddDays(t, g.value * 7);
    case Month => AddMonthsForward(t, g.value);
  }

  lemma HourProductFits(v: int32)
    ensures 1 <= v <= 2_562_047 ==> Wrap64(v * HOUR) == v * HOUR
  {
  }

  /** From boundary i a sane step goes to boundary i + value. In particular adding months
      to a first of month never overflows the target month's days. */
  lemma StepOnGrid(g: EpochGranularity, i: int)
    requires Sane(g)
    ensures AddGranularity(Boundary(g.unit, i), g) == Boundary(g.unit, i + g.value)
  {
    hide MonthStart, CivilOf, AddDate;
    var t := Boundary(g.unit, i);
    match g.unit
    case Hour => HourProductFits(g.value);
    case Day => AddDays(t, g.value);
    case Week => AddDays(t, g.value * 7);
    case Month =>
      BoundaryIsBoundary(Month, i);
      MonthStepBy(t, g.value);
  }

  /** A 64-bit product that wrapped is no longer a whole number of hours: 2^64 shares
      with an hour only the factor 2^13, and the rest of the hour, 439453125, would have
      to divide the number of wraps. */
  lemma WrappedHourMisaligned(w: int, j: int)
    requires w * 0x1_0000_0000_0000_0000 == j * HOUR
    ensures w % 439_453_125 == 0
  {
    assert w * 0x8_0000_0000_0000 == j * 439_453_125;
    // 51-bit shift is invertible modulo 439453125
    var u, v := 156297437, 800883005476595;
    assert u * 0x8_0000_0000_0000 == v * 439_453_125 + 1;
    calc {
      w;
      w * (u * 0x8_0000_0000_0000 - v * 439_453_125);
      (w * 0x8_0000_0000_0000) * u - w * v * 439_453_125;
      (u * j - w * v) * 439_453_125;
    }
    FloorDiv(w, 439_453_125, u * j - w * v, 0);
  }

  /** An iteration starting on a boundary advances to another boundary exactly for the
      sane granularities. */
  lemma StepAlignedIffSane(g: EpochGranularity, i: int)
    ensures var b := Boundary(g.unit, i);
            AddGranularity(b, g) > b && IsBoundary(g.unit, AddGranularity(b, g)) <==> Sane(g)
  {
    if Sane(g) { SaneStepAligned(g, i); } else { InsaneStep(g, i); }
  }

  lemma SaneStepAligned(g: EpochGranularity, i: int)
    requires Sane(g)
    ensures AddGranularity(Boundary(g.unit, i), g) > Boundary(g.unit, i)
    ensures IsBoundary(g.unit, AddGranularity(Boundary(g.unit, i), g))
  {
    hide AddGranularity, Boundary, IsBoundary, Cell;
    StepOnGrid(g, i);
    BoundaryIsBoundary(g.unit, i + g.value);
    BoundaryOrder(g.unit, i, i + g.value);
  }

  lemma InsaneStep(g: EpochGranularity, i: int)
    requires !Sane(g)
    ensures AddGranularity(Boundary(g.unit, i), g) <= Boundary(g.unit, i)
            || !IsBoundary(g.unit, AddGranularity(Boundary(g.unit, i), g))
  {
    hide AddGranularity, Boundary, IsBoundary, Wrap64;
    if Advances(g) {
      assert g.unit.Hour?;
      WrappedStepMisaligned(g, i);
    } else {
      AddMovesForward(Boundary(g.unit, i), g);
    }
  }

  lemma WrappedStepMisaligned(g: EpochGranularity, i: int)
    requires g.unit.Hour? && Advances(g) && !Sane(g)
    ensures !IsBoundary(Hour, AddGranularity(Boundary(Hour, i), g))
  {
    var p := g.value * HOUR;
    var w := (p + 0x8000_0000_0000_0000) / 0x1_0000_0000_0000_0000;
    assert Wrap64(p) == p - w * 0x1_0000_0000_0000_0000;
    assert -1000 < w < 1000 && w != 0;
    if IsBoundary(Hour, AddGranularity(Boundary(Hour, i), g)) {
      var j := (i + g.value) - (i * HOUR + Wrap64(p)) / HOUR;
      assert w * 0x1_0000_0000_0000_0000 == j * HOUR;
      WrappedHourMisaligned(w, j);
    }
  }
}
