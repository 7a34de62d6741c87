/** The proleptic Gregorian calendar (section 3.2.1 of ISO 8601:2004) in UTC,
    and the two calendar operations of the Go time package the epoch generator
    calls: time.Date with its normalisation, and Time.AddDate.

    Days are counted from 1970-01-01, which is day 0. */
module Calendar {
  import opened Grid

  datatype Civil = Civil(year: int, month: int, day: int)

  predicate IsLeap(y: int) {
    y % 4 == 0 && (y % 100 != 0 || y % 400 == 0)
  }

  function DaysInMonth(y: int, m: int): (n: int)
    requires 1 <= m <= 12
    ensures 28 <= n <= 31
  {
    if m == 2 then (if IsLeap(y) then 29 else 28)
    else if m == 4 || m == 6 || m == 9 || m == 11 then 30
    else 31
  }

  predicate ValidDate(c: Civil) {
    1 <= c.month <= 12 && 1 <= c.day <= DaysInMonth(c.year, c.month)
  }

  /** The date after c, by the calendar's own rule. */
  function NextDay(c: Civil): Civil
    requires ValidDate(c)
  {
    if c.day < DaysInMonth(c.year, c.month) then c.(day := c.day + 1)
    else if c.month < 12 then Civil(c.year, c.month + 1, 1)
    else Civil(c.year + 1, 1, 1)
  }

  // ---------------------------------------------------------------- day numbers

  function MonthIndex(c: Civil): int {
    12 * c.year + c.month - 1
  }

  /** Length of the month with index i, counting months from January of year 0. */
  function MonthDays(i: int): (n: int)
    ensures 28 <= n <= 31
  {
    DaysInMonth(i / 12, i % 12 + 1)
  }

  /** January 1970. */
  const UNIX_MONTH: int := 23640

  /** First day of month i: the month lengths added up from January 1970. */
  function MonthStart(i: int): int
    decreases if i >= UNIX_MONTH then i - UNIX_MONTH else UNIX_MONTH - i
  {
    if i == UNIX_MONTH then 0
    else if i > UNIX_MONTH then MonthStart(i - 1) + MonthDays(i - 1)
    else MonthStart(i + 1) - MonthDays(i)
  }

  /** The day time.Date denotes for any integers: an overflowing month carries
      into the year, an overflowing day runs on into the following months. */
  function DateDay(year: int, month: int, day: int): int {
    MonthStart(12 * year + month - 1) + day - 1
  }

  function DayNumber(c: Civil): int {
    DateDay(c.year, c.month, c.day)
  }

  lemma MonthLength(i: int)
    ensures MonthStart(i + 1) == MonthStart(i) + MonthDays(i)
  {
  }

  lemma MonthDaysOf(c: Civil)
    requires 1 <= c.month <= 12
    ensures MonthDays(MonthIndex(c)) == DaysInMonth(c.year, c.month)
  {
    FloorDiv(MonthIndex(c), 12, c.year, c.month - 1);
  }

  lemma MonthsFormGrid()
    ensures IsGrid(MonthStart)
  {
    forall i ensures MonthStart(i) < MonthStart(i + 1) { MonthLength(i); }
    ClimbsIsGrid(MonthStart);
  }

  lemma MonthOrder(i: int, j: int)
    ensures i < j <==> MonthStart(i) < MonthStart(j)
  {
    MonthsFormGrid();
    Order(MonthStart, i, j);
  }

  lemma DayInMonth(c: Civil)
    requires ValidDate(c)
    ensures InCell(MonthStart, MonthIndex(c), DayNumber(c))
  {
    MonthLength(MonthIndex(c));
    MonthDaysOf(c);
  }

  /** DayNumber counts days: it is 0 on 1970-01-01 and grows by one from each date
      to the next. These two facts determine it. */
  lemma DayNumberCounts(c: Civil)
    requires ValidDate(c)
    ensures DayNumber(Civil(1970, 1, 1)) == 0
    ensures ValidDate(NextDay(c)) && DayNumber(NextDay(c)) == DayNumber(c) + 1
  {
    hide DaysInMonth;
    assert DateDay(1970, 1, 1) == MonthStart(UNIX_MONTH);
    if c.day == DaysInMonth(c.year, c.month) {
      MonthLength(MonthIndex(c));
      MonthDaysOf(c);
      assert MonthIndex(NextDay(c)) == MonthIndex(c) + 1;
    }
  }

  // ---------------------------------------------------------------- dates of days

  /** The date of day n: what Time.Date() yields. */
  function CivilOf(n: int): Civil {
    MonthsFormGrid();
    var i := CellOf(MonthStart, n, UNIX_MONTH);
    Civil(i / 12, i % 12 + 1, n - MonthStart(i) + 1)
  }

  /** Every day has a valid date, and that date numbers back to the day. */
  lemma CivilOfDay(n: int)
    ensures ValidDate(CivilOf(n)) && DayNumber(CivilOf(n)) == n
    ensures InCell(MonthStart, MonthIndex(CivilOf(n)), n)
  {
    hide MonthStart, DaysInMonth;
    MonthsFormGrid();
    var i := CellOf(MonthStart, n, UNIX_MONTH);
    assert MonthIndex(CivilOf(n)) == i;
    MonthLength(i);
  }

  lemma MonthIndexInjective(a: Civil, b: Civil)
    requires 1 <= a.month <= 12 && 1 <= b.month <= 12 && MonthIndex(a) == MonthIndex(b)
    ensures a.year == b.year && a.month == b.month
  {
  }

  lemma DateUnique(a: Civil, b: Civil)
    requires ValidDate(a) && ValidDate(b) && DayNumber(a) == DayNumber(b)
    ensures a == b
  {
    hide MonthStart, DaysInMonth;
    DayInMonth(a);
    DayInMonth(b);
    MonthsFormGrid();
    CellOrder(MonthStart, MonthIndex(a), DayNumber(a), MonthIndex(b));
    MonthIndexInjective(a, b);
  }

  /** The inverse direction: a valid date is the date of its own day number. */
  lemma CivilRoundTrip(c: Civil)
    requires ValidDate(c)
    ensures CivilOf(DayNumber(c)) == c
  {
    CivilOfDay(DayNumber(c));
    DateUnique(c, CivilOf(DayNumber(c)));
  }

  // ---------------------------------------------------------------- closed form

  /** Days from 0001-01-01 to the first day of year y. */
  function DaysBeforeYear(y: int): int {
    var p := y - 1;
    365 * p + p / 4 - p / 100 + p / 400
  }

  function DaysBeforeMonth(y: int, m: int): int
    requires 1 <= m <= 13
    decreases m
  {
    if m == 1 then 0 else DaysBeforeMonth(y, m - 1) + DaysInMonth(y, m - 1)
  }

  /** 0001-01-01 to 1970-01-01 in days. */
  const UNIX_DAY: int := 719162

  lemma LeapTerm(y: int, d: int)
    requires d > 1
    ensures y / d - (y - 1) / d == if y % d == 0 then 1 else 0
  {
    if y % d == 0 { FloorDiv(y - 1, d, y / d - 1, d - 1); } else { FloorDiv(y - 1, d, y / d, y % d - 1); }
  }

  lemma YearLength(y: int)
    ensures DaysBeforeYear(y + 1) == DaysBeforeYear(y) + (if IsLeap(y) then 366 else 365)
  {
    LeapTerm(y, 4);
    LeapTerm(y, 100);
    LeapTerm(y, 400);
    LeapDivisors(y);
  }

  lemma LeapDivisors(y: int)
    ensures y % 400 == 0 ==> y % 100 == 0
    ensures y % 100 == 0 ==> y % 4 == 0
  {
    if y % 400 == 0 { FloorDiv(y, 100, 4 * (y / 400), 0); }
    if y % 100 == 0 { FloorDiv(y, 4, 25 * (y / 100), 0); }
  }

  lemma MonthsOfYear(y: int)
    ensures DaysBeforeMonth(y, 13) == if IsLeap(y) then 366 else 365
    ensures forall m :: 1 <= m <= 12 ==> DaysBeforeMonth(y, m + 1) == DaysBeforeMonth(y, m) + DaysInMonth(y, m)
  {
    assert DaysBeforeMonth(y, 2) == 31;
    var f := DaysInMonth(y, 2);
    assert DaysBeforeMonth(y, 4) == 62 + f;
    assert DaysBeforeMonth(y, 6) == 123 + f;
    assert DaysBeforeMonth(y, 8) == 184 + f;
    assert DaysBeforeMonth(y, 10) == 245 + f;
    assert DaysBeforeMonth(y, 12) == 306 + f;
  }

  /** Adding up month lengths from 1970 gives the closed form with its leap-year terms. */
  lemma MonthStartOf(y: int, m: int)
    requires 1 <= m <= 12
    ensures MonthStart(12 * y + m - 1) == DaysBeforeYear(y) + DaysBeforeMonth(y, m) - UNIX_DAY
  {
    if y >= 1970 { MonthStartAfter(y, m); } else { MonthStartBefore(y, m); }
  }

  /** The same without any month table: (367 m - 362) / 12 counts the days before month m in
      a year whose February has 30 days. This fixes the length of every month. */
  lemma MonthStartClosedForm(y: int, m: int)
    requires 1 <= m <= 12
    ensures MonthStart(12 * y + m - 1)
            == DaysBeforeYear(y) + (367 * m - 362) / 12
               - (if m <= 2 then 0 else if IsLeap(y) then 1 else 2) - UNIX_DAY
  {
    hide MonthStart, DaysBeforeYear, IsLeap;
    MonthStartOf(y, m);
    DaysBeforeMonthClosedForm(y, m);
  }

  lemma {:induction false} DaysBeforeMonthClosedForm(y: int, m: int)
    requires 1 <= m <= 12
    ensures DaysBeforeMonth(y, m) == (367 * m - 362) / 12 - if m <= 2 then 0 else if IsLeap(y) then 1 else 2
    decreases m
  {
    hide IsLeap;
    if m > 1 { DaysBeforeMonthClosedForm(y, m - 1); }
  }

  lemma UnixMonthStart(y: int)
    requires y == 1970
    ensures MonthStart(12 * y) == 0 && DaysBeforeYear(y) == UNIX_DAY
  {
  }

  lemma {:induction false} MonthStartAfter(y: int, m: int)
    requires 1970 <= y && 1 <= m <= 12
    ensures MonthStart(12 * y + m - 1) == DaysBeforeYear(y) + DaysBeforeMonth(y, m) - UNIX_DAY
    decreases y, m
  {
    hide MonthStart, DaysBeforeYear, DaysInMonth;
    if m > 1 {
      MonthStartAfter(y, m - 1);
      MonthStep(y, m - 1);
    } else if y == 1970 {
      UnixMonthStart(y);
    } else {
      MonthStartAfter(y - 1, 12);
      MonthStep(y - 1, 12);
    }
  }

  lemma {:induction false} MonthStartBefore(y: int, m: int)
    requires y < 1970 && 1 <= m <= 12
    ensures MonthStart(12 * y + m - 1) == DaysBeforeYear(y) + DaysBeforeMonth(y, m) - UNIX_DAY
    decreases 1970 - y, 12 - m
  {
    hide MonthStart, DaysBeforeYear, DaysInMonth;
    MonthStep(y, m);
    if m < 12 {
      MonthStartBefore(y, m + 1);
    } else if y == 1969 {
      MonthStartAfter(1970, 1);
    } else {
      MonthStartBefore(y + 1, 1);
    }
  }

  /** One month further, in both forms. */
  lemma MonthStep(y: int, m: int)
    requires 1 <= m <= 12
    ensures MonthStart(12 * y + m) == MonthStart(12 * y + m - 1) + DaysInMonth(y, m)
    ensures m < 12 ==> DaysBeforeMonth(y, m + 1) == DaysBeforeMonth(y, m) + DaysInMonth(y, m)
    ensures m == 12 ==> DaysBeforeYear(y + 1) == DaysBeforeYear(y) + DaysBeforeMonth(y, 12) + DaysInMonth(y, 12)
  {
    hide MonthStart, DaysBeforeYear, DaysBeforeMonth, DaysInMonth, IsLeap;
    MonthLength(12 * y + m - 1);
    MonthDaysOf(Civil(y, m, 1));
    YearLength(y);
    MonthsOfYear(y);
  }

  // ---------------------------------------------------------------- years by cycles

  /** A day count split into whole 400-, 100-, 4- and 1-year cycles and a day of year. */
  datatype Cycles = Cycles(q: int, c: int, k: int, y: int, yday: int)

  function CyclesOf(d: int): (r: Cycles)
    ensures d == 146097 * r.q + 36524 * r.c + 1461 * r.k + 365 * r.y + r.yday
    ensures 0 <= r.c <= 3 && 0 <= r.k <= 24 && 0 <= r.y <= 3
    ensures 0 <= r.yday < if r.y == 3 && (r.k == 24 ==> r.c == 3) then 366 else 365
  {
    var r400 := d % 146097;
    var c := if r400 / 36524 == 4 then 3 else r400 / 36524;
    var r100 := r400 - 36524 * c;
    var r4 := r100 % 1461;
    var y := if r4 / 365 == 4 then 3 else r4 / 365;
    Cycles(d / 146097, c, r100 / 1461, y, r4 - 365 * y)
  }

  function CycleYear(r: Cycles): int {
    400 * r.q + 100 * r.c + 4 * r.k + r.y + 1
  }

  function YearOf(n: int): int {
    CycleYear(CyclesOf(n + UNIX_DAY))
  }

  lemma YearOfCorrect(n: int)
    ensures DaysBeforeYear(YearOf(n)) <= n + UNIX_DAY < DaysBeforeYear(YearOf(n) + 1)
  {
    var r := CyclesOf(n + UNIX_DAY);
    CycleDays(r.q, r.c, r.k, r.y);
    CycleLeap(r.q, r.c, r.k, r.y);
    YearLength(CycleYear(r));
  }

  /** Year number 400q + 100c + 4k + y + 1 starts after its whole cycles. */
  lemma CycleDays(q: int, c: int, k: int, y: int)
    requires 0 <= c <= 3 && 0 <= k <= 24 && 0 <= y <= 3
    ensures DaysBeforeYear(400 * q + 100 * c + 4 * k + y + 1) == 146097 * q + 36524 * c + 1461 * k + 365 * y
  {
    var p := 400 * q + 100 * c + 4 * k + y;
    FloorDiv(p, 4, 100 * q + 25 * c + k, y);
    FloorDiv(p, 100, 4 * q + c, 4 * k + y);
    FloorDiv(p, 400, q, 100 * c + 4 * k + y);
  }

  /** That year is leap exactly when it closes a 4-year cycle that does not close a
      common century. */
  lemma CycleLeap(q: int, c: int, k: int, y: int)
    requires 0 <= c <= 3 && 0 <= k <= 24 && 0 <= y <= 3
    ensures IsLeap(400 * q + 100 * c + 4 * k + y + 1) <==> y == 3 && (k == 24 ==> c == 3)
  {
    var p := 400 * q + 100 * c + 4 * k + y + 1;
    if y < 3 {
      FloorDiv(p, 4, 100 * q + 25 * c + k, y + 1);
    } else {
      FloorDiv(p, 4, 100 * q + 25 * c + k + 1, 0);
      if k < 24 {
        FloorDiv(p, 100, 4 * q + c, 4 * k + 4);
      } else {
        FloorDiv(p, 100, 4 * q + c + 1, 0);
        if c < 3 { FloorDiv(p, 400, q, 100 * c + 100); } else { FloorDiv(p, 400, q + 1, 0); }
      }
    }
  }

  /** Counting whole cycles gives the same year as walking month by month. */
  lemma YearOfIsCivilYear(n: int)
    ensures YearOf(n) == CivilOf(n).year
  {
    hide MonthStart, CivilOf, YearOf, DaysBeforeYear;
    var y, i := YearOf(n), MonthIndex(CivilOf(n));
    YearOfCorrect(n);
    MonthStartOf(y, 1);
    MonthStartOf(y + 1, 1);
    CivilOfDay(n);
    MonthsFormGrid();
    CellOrder(MonthStart, i, n, 12 * y);
    CellOrder(MonthStart, i, n, 12 * y + 12);
  }
}
