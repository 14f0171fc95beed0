/** Dates of the Gregorian calendar, and a month or a year later
    (backend/autora/company/memberships.py:85-92). */
module Calendar {
  datatype Date = Date(year: int, month: int, day: int)

  datatype Interval = Month | Year

  predicate Leap(year: int) {
    year % 4 == 0 && (year % 100 != 0 || year % 400 == 0)
  }

  function MonthLength(year: int, month: int): (r: int)
    ensures 28 <= r <= 31
  {
    if month == 2 then (if Leap(year) then 29 else 28)
    else if month == 4 || month == 6 || month == 9 || month == 11 then 30 else 31
  }

  predicate Valid(d: Date) {
    1 <= d.month <= 12 && 1 <= d.day <= MonthLength(d.year, d.month)
  }

  /** Days of the year before the month. */
  function Before(year: int, month: int): int
    requires 1 <= month <= 12
    decreases month
  {
    if month == 1 then 0 else Before(year, month - 1) + MonthLength(year, month - 1)
  }

  /** Days before the year. */
  function BeforeYear(year: int): int {
    365 * (year - 1) + (year - 1) / 4 - (year - 1) / 100 + (year - 1) / 400
  }

  /** The number of the day, as the calendar counts days. */
  function DayNumber(d: Date): int
    requires Valid(d)
  {
    BeforeYear(d.year) + Before(d.year, d.month) + d.day
  }

  function Min(a: int, b: int): int { if a <= b then a else b }

  /** The same day that many months later, or the last day of that month. */
  function AddMonths(d: Date, months: nat): (r: Date)
    requires Valid(d)
    ensures Valid(r)
  {
    var total := d.month - 1 + months;
    var year, month := d.year + total / 12, total % 12 + 1;
    Date(year, month, Min(d.day, MonthLength(year, month)))
  }

  function AddInterval(d: Date, interval: Interval): (r: Date)
    requires Valid(d)
    ensures Valid(r)
  {
    AddMonths(d, if interval == Year then 12 else 1)
  }

  // ---- the count of days is a calendar -----------------------------------------------------------

  lemma BeforeGrows(year: int, m: int, n: int)
    requires 1 <= m < n <= 12
    ensures Before(year, m) + MonthLength(year, m) <= Before(year, n)
    decreases n
  {
    if n - 1 > m { BeforeGrows(year, m, n - 1); }
  }

  lemma YearTotal(year: int)
    ensures Before(year, 12) + 31 == if Leap(year) then 366 else 365
  {
    assert Before(year, 2) == 31;
    assert Before(year, 4) == 59 + (if Leap(year) then 1 else 0) + 31;
    assert Before(year, 6) == Before(year, 4) + 61;
    assert Before(year, 8) == Before(year, 6) + 61;
    assert Before(year, 10) == Before(year, 8) + 61;
    assert Before(year, 12) == Before(year, 10) + 61;
  }

  lemma Quarters(n: int)
    ensures n / 4 - (n - 1) / 4 == if n % 4 == 0 then 1 else 0
  {
  }

  lemma Centuries(n: int)
    ensures n / 100 - (n - 1) / 100 == if n % 100 == 0 then 1 else 0
    ensures n % 100 == 0 ==> n % 4 == 0
  {
    if n % 100 == 0 { assert n == 4 * (25 * (n / 100)); }
  }

  lemma FourCenturies(n: int)
    ensures n / 400 - (n - 1) / 400 == if n % 400 == 0 then 1 else 0
    ensures n % 400 == 0 ==> n % 100 == 0
  {
    if n % 400 == 0 { assert n == 100 * (4 * (n / 400)); }
  }

  lemma YearLength(year: int)
    ensures BeforeYear(year + 1) == BeforeYear(year) + if Leap(year) then 366 else 365
  {
    Quarters(year);
    Centuries(year);
    FourCenturies(year);
    YearLengthFrom(year / 4, (year - 1) / 4, year / 100, (year - 1) / 100, year / 400, (year - 1) / 400, year);
  }

  lemma YearLengthFrom(q: int, q': int, c: int, c': int, f: int, f': int, year: int)
    requires q == year / 4 && q' == (year - 1) / 4 && c == year / 100 && c' == (year - 1) / 100 && f == year / 400 && f' == (year - 1) / 400
    ensures BeforeYear(year + 1) == 365 * year + q - c + f && BeforeYear(year) == 365 * (year - 1) + q' - c' + f'
  {
    assert year + 1 - 1 == year;
  }

  lemma YearsGrow(a: int, b: int)
    requires a < b
    ensures BeforeYear(a) + (if Leap(a) then 366 else 365) <= BeforeYear(b)
    decreases b - a
  {
    YearLength(a);
    if a + 1 < b { YearsGrow(a + 1, b); }
  }

  lemma WithinYear(d: Date)
    requires Valid(d)
    ensures BeforeYear(d.year) < DayNumber(d) <= BeforeYear(d.year) + if Leap(d.year) then 366 else 365
  {
    YearTotal(d.year);
    if d.month < 12 { BeforeGrows(d.year, d.month, 12); }
    if 1 < d.month { BeforeGrows(d.year, 1, d.month); }
  }

  predicate Earlier(a: Date, b: Date) {
    a.year < b.year || (a.year == b.year && (a.month < b.month || (a.month == b.month && a.day < b.day)))
  }

  lemma EarlierCounts(a: Date, b: Date)
    requires Valid(a) && Valid(b) && Earlier(a, b)
    ensures DayNumber(a) < DayNumber(b)
  {
    if a.year < b.year {
      YearsGrow(a.year, b.year);
      WithinYear(a);
      WithinYear(b);
    } else if a.month < b.month {
      BeforeGrows(a.year, a.month, b.month);
    }
  }

  /** Day numbers order dates as year, month and day do. */
  lemma DayNumbersAreOrdered(a: Date, b: Date)
    requires Valid(a) && Valid(b)
    ensures DayNumber(a) < DayNumber(b) <==> Earlier(a, b)
    ensures DayNumber(a) == DayNumber(b) <==> a == b
  {
    if Earlier(a, b) { EarlierCounts(a, b); } else if Earlier(b, a) { EarlierCounts(b, a); }
  }

  /** The day numbers have no gap: from one day to the next is one. */
  lemma NextDayIsNext(d: Date)
    requires Valid(d)
    ensures var next := if d.day < MonthLength(d.year, d.month) then d.(day := d.day + 1)
                        else if d.month < 12 then Date(d.year, d.month + 1, 1) else Date(d.year + 1, 1, 1);
            Valid(next) && DayNumber(next) == DayNumber(d) + 1
  {
    if d.month == 12 {
      YearTotal(d.year);
      YearLength(d.year);
    }
  }

  // ---- a month, a year ---------------------------------------------------------------------------

  /** From a month's first day to the next month's. */
  lemma MonthStart(year: int, month: int)
    requires 1 <= month <= 12
    ensures var next := AddMonths(Date(year, month, 1), 1);
            Valid(next) && DayNumber(next) == DayNumber(Date(year, month, 1)) + MonthLength(year, month)
  {
    if month == 12 {
      YearTotal(year);
      YearLength(year);
    }
    FirstAfter(year, month);
  }

  lemma FirstAfter(year: int, month: int)
    requires 1 <= month <= 12
    ensures AddMonths(Date(year, month, 1), 1) == if month == 12 then Date(year + 1, 1, 1) else Date(year, month + 1, 1)
  {
  }

  /** A month is 28 to 31 days. */
  lemma MonthIsAMonth(d: Date)
    requires Valid(d)
    ensures 28 <= DayNumber(AddInterval(d, Month)) - DayNumber(d) <= 31
  {
    var first := Date(d.year, d.month, 1);
    MonthStart(d.year, d.month);
    var next := AddInterval(d, Month);
    assert next.year == AddMonths(first, 1).year && next.month == AddMonths(first, 1).month;
    assert DayNumber(next) == DayNumber(AddMonths(first, 1)) + next.day - 1;
    assert DayNumber(d) == DayNumber(first) + d.day - 1;
  }

  lemma BeforeIn(a: int, b: int, month: int)
    requires 1 <= month <= 12
    ensures Before(b, month) - Before(a, month) == if month <= 2 then 0 else (if Leap(b) then 1 else 0) - (if Leap(a) then 1 else 0)
    decreases month
  {
    if month > 1 { BeforeIn(a, b, month - 1); }
  }

  /** A year is 365 or 366 days. */
  lemma YearIsAYear(d: Date)
    requires Valid(d)
    ensures 365 <= DayNumber(AddInterval(d, Year)) - DayNumber(d) <= 366
  {
    YearLength(d.year);
    BeforeIn(d.year, d.year + 1, d.month);
    var next := AddInterval(d, Year);
    assert next.year == d.year + 1 && next.month == d.month;
  }

  lemma MonthKeepsOrder(a: Date, b: Date)
    requires Valid(a) && Valid(b) && !Earlier(b, a)
    ensures !Earlier(AddMonths(b, 1), AddMonths(a, 1))
  {
    FirstAfter(a.year, a.month);
    FirstAfter(b.year, b.month);
  }

  lemma YearKeepsOrder(a: Date, b: Date)
    requires Valid(a) && Valid(b) && !Earlier(b, a)
    ensures !Earlier(AddMonths(b, 12), AddMonths(a, 12))
  {
    var x, y := AddMonths(a, 12), AddMonths(b, 12);
    assert x.year == a.year + 1 && x.month == a.month && y.year == b.year + 1 && y.month == b.month;
  }

  lemma NotBefore(a: Date, b: Date)
    requires Valid(a) && Valid(b) && DayNumber(a) <= DayNumber(b)
    ensures !Earlier(b, a)
  {
    DayNumbersAreOrdered(b, a);
  }

  lemma NumbersFollow(a: Date, b: Date)
    requires Valid(a) && Valid(b) && !Earlier(b, a)
    ensures DayNumber(a) <= DayNumber(b)
  {
    DayNumbersAreOrdered(b, a);
  }

  lemma MonthIsMonotone(a: Date, b: Date)
    requires Valid(a) && Valid(b) && DayNumber(a) <= DayNumber(b)
    ensures DayNumber(AddMonths(a, 1)) <= DayNumber(AddMonths(b, 1))
  {
    NotBefore(a, b);
    MonthKeepsOrder(a, b);
    NumbersFollow(AddMonths(a, 1), AddMonths(b, 1));
  }

  lemma YearIsMonotone(a: Date, b: Date)
    requires Valid(a) && Valid(b) && DayNumber(a) <= DayNumber(b)
    ensures DayNumber(AddMonths(a, 12)) <= DayNumber(AddMonths(b, 12))
  {
    NotBefore(a, b);
    YearKeepsOrder(a, b);
    NumbersFollow(AddMonths(a, 12), AddMonths(b, 12));
  }

  /** A later date does not come to an earlier one. */
  lemma AddIntervalIsMonotone(a: Date, b: Date, interval: Interval)
    requires Valid(a) && Valid(b) && DayNumber(a) <= DayNumber(b)
    ensures DayNumber(AddInterval(a, interval)) <= DayNumber(AddInterval(b, interval))
  {
    if interval == Month { MonthIsMonotone(a, b); } else { YearIsMonotone(a, b); }
  }

  // ---- twelve months and a year ------------------------------------------------------------------

  /** Renewed month by month. */
  function Renewed(d: Date, times: nat): (r: Date)
    requires Valid(d)
    ensures Valid(r)
  {
    if times == 0 then d else AddInterval(Renewed(d, times - 1), Month)
  }

  lemma {:induction false} RenewedIs(d: Date, times: nat)
    requires Valid(d)
    ensures var r, a := Renewed(d, times), AddMonths(d, times);
            r.year == a.year && r.month == a.month && r.day <= a.day && Min(d.day, 28) <= r.day
  {
    if times > 0 {
      RenewedIs(d, times - 1);
    }
  }

  /** Twelve months end when a year does, or up to three days before. */
  lemma TwelveMonthsAreAYear(d: Date)
    requires Valid(d)
    ensures 0 <= DayNumber(AddInterval(d, Year)) - DayNumber(Renewed(d, 12)) <= 3
  {
    RenewedIs(d, 12);
  }

  // ---- moments -----------------------------------------------------------------------------------

  const DAY := 86_400_000_000

  /** A date and the microseconds of its day. */
  datatype Moment = Moment(date: Date, time: int)

  predicate ValidMoment(m: Moment) {
    Valid(m.date) && 0 <= m.time < DAY
  }

  /** The moment as microseconds. */
  function At(m: Moment): int
    requires ValidMoment(m)
  {
    DayNumber(m.date) * DAY + m.time
  }

  /** The time of day is kept. */
  function Later(m: Moment, interval: Interval): (r: Moment)
    requires ValidMoment(m)
    ensures ValidMoment(r)
  {
    Moment(AddInterval(m.date, interval), m.time)
  }

  /** Access that is paid for lasts at least 28 days. */
  lemma LaterIsLater(m: Moment, interval: Interval)
    requires ValidMoment(m)
    ensures At(m) + 28 * DAY <= At(Later(m, interval)) <= At(m) + 366 * DAY
  {
    MonthIsAMonth(m.date);
    YearIsAYear(m.date);
  }

  /** Two days of one month that come to the same day, since the month they come to is too short for both. */
  predicate CutTogether(a: Date, b: Date, interval: Interval)
    requires Valid(a) && Valid(b)
  {
    var total := a.month - 1 + if interval == Year then 12 else 1;
    a.year == b.year && a.month == b.month && MonthLength(a.year + total / 12, total % 12 + 1) <= a.day < b.day
  }

  lemma CutMeans(a: Date, b: Date, interval: Interval)
    requires Valid(a) && Valid(b) && !Earlier(b, a)
    ensures AddInterval(a, interval) == AddInterval(b, interval) <==> a == b || CutTogether(a, b, interval)
  {
    if interval == Month { MonthCut(a, b); } else { YearCut(a, b); }
  }

  lemma MonthCut(a: Date, b: Date)
    requires Valid(a) && Valid(b) && !Earlier(b, a)
    ensures AddInterval(a, Month) == AddInterval(b, Month) <==> a == b || CutTogether(a, b, Month)
  {
    NextMonth(a.month);
    NextMonth(b.month);
    assert a.month != b.month && a.month < 12 && b.month < 12 ==> a.month + 1 != b.month + 1;
  }

  lemma NextMonth(month: int)
    requires 1 <= month <= 12
    ensures month / 12 == (if month == 12 then 1 else 0) && month % 12 + 1 == if month == 12 then 1 else month + 1
  {
  }

  lemma YearCut(a: Date, b: Date)
    requires Valid(a) && Valid(b) && !Earlier(b, a)
    ensures AddInterval(a, Year) == AddInterval(b, Year) <==> a == b || CutTogether(a, b, Year)
  {
    var x, y := AddInterval(a, Year), AddInterval(b, Year);
    assert x.year == a.year + 1 && x.month == a.month && y.year == b.year + 1 && y.month == b.month;
  }

  /** Moments keep their order unless both days are cut to the same day and the earlier one is later
      in its day. */
  lemma LaterKeepsOrderIff(a: Moment, b: Moment, interval: Interval)
    requires ValidMoment(a) && ValidMoment(b) && At(a) <= At(b)
    ensures At(Later(a, interval)) <= At(Later(b, interval)) <==> !(CutTogether(a.date, b.date, interval) && b.time < a.time)
  {
    DayNumbersAreOrdered(a.date, b.date);
    DayNumbersAreOrdered(b.date, a.date);
    CutMeans(a.date, b.date, interval);
    var x, y := Later(a, interval).date, Later(b, interval).date;
    DayNumbersAreOrdered(x, y);
    AddIntervalIsMonotone(a.date, b.date, interval);
  }

  /** 30 January, late in the day, and 31 January, early, change places. */
  lemma OrderMayTurn()
    ensures var a, b := Moment(Date(2025, 1, 30), 2), Moment(Date(2025, 1, 31), 1);
            ValidMoment(a) && ValidMoment(b) && At(a) < At(b) && At(Later(b, Month)) < At(Later(a, Month))
  {
    var a, b := Moment(Date(2025, 1, 30), 2), Moment(Date(2025, 1, 31), 1);
    NextDayIsNext(a.date);
    assert 1 / 12 == 0 && 1 % 12 + 1 == 2 && MonthLength(2025, 2) == 28;
    assert CutTogether(a.date, b.date, Month);
    LaterKeepsOrderIff(a, b, Month);
  }

  // ---- moments by their number -------------------------------------------------------------------

  lemma HasPrevious(d: Date) returns (p: Date)
    requires Valid(d)
    ensures Valid(p) && DayNumber(p) == DayNumber(d) - 1
  {
    p := if d.day > 1 then d.(day := d.day - 1)
         else if d.month > 1 then Date(d.year, d.month - 1, MonthLength(d.year, d.month - 1)) else Date(d.year - 1, 12, 31);
    NextDayIsNext(p);
  }

  lemma HasNext(d: Date) returns (p: Date)
    requires Valid(d)
    ensures Valid(p) && DayNumber(p) == DayNumber(d) + 1
  {
    p := if d.day < MonthLength(d.year, d.month) then d.(day := d.day + 1)
         else if d.month < 12 then Date(d.year, d.month + 1, 1) else Date(d.year + 1, 1, 1);
    NextDayIsNext(d);
  }

  /** Every number is some day's. */
  lemma EveryDayIsADate(n: int) returns (d: Date)
    ensures Valid(d) && DayNumber(d) == n
    decreases if n >= 1 then n - 1 else 1 - n
  {
    if n == 1 {
      d := Date(1, 1, 1);
    } else if n > 1 {
      d := EveryDayIsADate(n - 1);
      d := HasNext(d);
    } else {
      d := EveryDayIsADate(n + 1);
      d := HasPrevious(d);
    }
  }

  lemma EveryInstantIsAMoment(t: int)
    ensures exists m :: ValidMoment(m) && At(m) == t
  {
    var d := EveryDayIsADate(t / DAY);
    assert ValidMoment(Moment(d, t % DAY)) && At(Moment(d, t % DAY)) == t;
  }

  ghost function MomentAt(t: int): (m: Moment)
    ensures ValidMoment(m) && At(m) == t
  {
    EveryInstantIsAMoment(t);
    var m :| ValidMoment(m) && At(m) == t;
    m
  }

  /** The interval added to an instant. */
  ghost function Ends(t: int, interval: Interval): int {
    At(Later(MomentAt(t), interval))
  }

  /** What is bought at one moment runs out at a later one, 28 to 366 days on. */
  lemma EndsIsAhead(t: int, interval: Interval)
    ensures t + 28 * DAY <= Ends(t, interval) <= t + 366 * DAY
  {
    LaterIsLater(MomentAt(t), interval);
  }
}
