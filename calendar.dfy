/** The month calendar of the working-hours screens: the month length,
    the grid of weeks, and moving between months. pages/WorkingHours.js and
    FixedWorkingHours.js hold identical copies of these helpers. Dates are
    reduced to what the grid needs: the month, the year and the weekday of
    the first of the month (`getDay()`, 0 for Sunday). */
module Calendar {

  predicate IsLeapYear(y: int) {
    (y % 4 == 0 && y % 100 != 0) || y % 400 == 0
  }

  /** The `Date` constructor reads a two-digit year 0..99 as 1900 + year. */
  function FullYear(year: int): int {
    if 0 <= year <= 99 then 1900 + year else year
  }

  function GregorianMonthLength(m: int, y: int): int
    requires 0 <= m <= 11
  {
    if m == 1 then (if IsLeapYear(y) then 29 else 28)
    else if m == 3 || m == 5 || m == 8 || m == 10 then 30
    else 31
  }

  /** `getDaysInMonth`: `new Date(year, month + 1, 0).getDate()`, the last
      day of the month. The `Date` constructor carries a month outside 0..11
      into the year. */
  function DaysInMonth(month: int, year: int): (n: int)
    ensures 28 <= n <= 31
    ensures 0 <= month <= 11 ==> n == GregorianMonthLength(month, FullYear(year))
  {
    GregorianMonthLength(month % 12, FullYear(year) + month / 12)
  }

  function YearLength(year: int): int {
    DaysInMonth(0, year) + DaysInMonth(1, year) + DaysInMonth(2, year) + DaysInMonth(3, year)
    + DaysInMonth(4, year) + DaysInMonth(5, year) + DaysInMonth(6, year) + DaysInMonth(7, year)
    + DaysInMonth(8, year) + DaysInMonth(9, year) + DaysInMonth(10, year) + DaysInMonth(11, year)
  }

  /** The twelve month lengths add up to the Gregorian year. */
  lemma MonthsMakeAYear(year: int)
    ensures YearLength(year) == if IsLeapYear(FullYear(year)) then 366 else 365
  {
  }

  /** February has 29 days exactly in a leap year. */
  lemma FebruaryLeapRule(year: int)
    requires year < 0 || year > 99
    ensures DaysInMonth(1, year) == 29 <==> IsLeapYear(year)
  {
  }

  /** A cell of the grid: padding (`null`) or a day of the month. */
  datatype Cell = Blank | Day(day: nat)

  /** The cell at position `i` of the grid read row by row: `first` blanks,
      the days 1..n, then blanks. */
  function CellAt(first: nat, n: nat, i: int): Cell {
    if first <= i < first + n then Day(i - first + 1) else Blank
  }

  /** `generateCalendarData`: weeks of seven cells, `firstDayOfMonth` blank
      cells, the days of the month in order, and blanks to fill the last week. */
  method GenerateCalendarData(month: int, year: int, firstDayOfMonth: nat)
    returns (calendar: seq<seq<Cell>>)
    requires firstDayOfMonth < 7
    ensures forall w :: w in calendar ==> |w| == 7
    ensures |calendar| == (firstDayOfMonth + DaysInMonth(month, year) + 6) / 7
    ensures forall r, c :: 0 <= r < |calendar| && 0 <= c < 7 ==>
      calendar[r][c] == CellAt(firstDayOfMonth, DaysInMonth(month, year), 7 * r + c)
  {
    var daysInMonth := DaysInMonth(month, year);
    var f := firstDayOfMonth;
    calendar := [];
    var week: seq<Cell> := [];
    for i := 0 to f
      invariant |week| == i
      invariant forall c :: 0 <= c < |week| ==> week[c] == CellAt(f, daysInMonth, c)
    {
      week := week + [Blank];
    }
    for day := 1 to daysInMonth + 1
      invariant |week| < 7
      invariant 7 * |calendar| + |week| == f + day - 1
      invariant forall w :: w in calendar ==> |w| == 7
      invariant forall r, c :: 0 <= r < |calendar| && 0 <= c < 7 ==>
        calendar[r][c] == CellAt(f, daysInMonth, 7 * r + c)
      invariant forall c :: 0 <= c < |week| ==> week[c] == CellAt(f, daysInMonth, 7 * |calendar| + c)
    {
      week := week + [Day(day)];
      if |week| == 7 {
        calendar := calendar + [week];
        week := [];
      }
    }
    if |week| > 0 {
      while |week| < 7
        invariant 0 < |week| <= 7
        invariant 7 * |calendar| < f + daysInMonth
        invariant forall c :: 0 <= c < |week| ==> week[c] == CellAt(f, daysInMonth, 7 * |calendar| + c)
      {
        week := week + [Blank];
      }
      calendar := calendar + [week];
    }
  }

  datatype MonthYear = MonthYear(month: int, year: int)

  /** `changeMonth`: step the month by `increment`, wrapping to December or
      January. The month always ends up in 0..11; a step of one month moves
      the (year, month) pair by exactly one month. */
  function ChangeMonth(month: int, year: int, increment: int): (r: MonthYear)
    ensures 0 <= r.month <= 11
    ensures r.year - year in {-1, 0, 1}
    ensures 0 <= month <= 11 && (increment == 1 || increment == -1) ==>
      12 * r.year + r.month == 12 * year + month + increment
  {
    var newMonth := month + increment;
    if newMonth < 0 then MonthYear(11, year - 1)
    else if newMonth > 11 then MonthYear(0, year + 1)
    else MonthYear(newMonth, year)
  }
}
