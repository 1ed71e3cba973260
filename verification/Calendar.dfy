/** The proleptic Gregorian calendar over day numbers; day 0 is 1 January of year 1, a Monday. */
module Calendar {
  datatype Date = Date(year: int, month: nat, day: nat)

  predicate IsLeap(year: int) { year % 4 == 0 && (year % 100 != 0 || year % 400 == 0) }

  function YearLength(year: int): nat { if IsLeap(year) then 366 else 365 }

  function MonthLength(leap: bool, month: nat): nat {
    if month == 2 then (if leap then 29 else 28)
    else if month in {4, 6, 9, 11} then 30
    else 31
  }

  /** `from_ymd_opt(year, month, day).is_some()`. */
  predicate IsDate(year: int, month: nat, day: nat) {
    1 <= month <= 12 && 1 <= day <= MonthLength(IsLeap(year), month)
  }

  /** Days before 1 January of `year`. */
  function BeforeYear(year: int): int {
    var y := year - 1;
    365 * y + y / 4 - y / 100 + y / 400
  }

  function BeforeMonth(leap: bool, month: nat): nat {
    if month <= 1 then 0 else BeforeMonth(leap, month - 1) + MonthLength(leap, month - 1)
  }

  function DayNumber(d: Date): int { BeforeYear(d.year) + BeforeMonth(IsLeap(d.year), d.month) + d.day - 1 }

  /** Days from Sunday. */
  function Weekday(day: int): nat { (day + 1) % 7 }

  lemma MultiplesStep(y: int, k: nat)
    requires k in {4, 100, 400}
    ensures y / k - (y - 1) / k == if y % k == 0 then 1 else 0
  {
  }

  lemma YearStep(year: int)
    ensures BeforeYear(year + 1) == BeforeYear(year) + YearLength(year)
  {
    MultiplesStep(year, 4);
    MultiplesStep(year, 100);
    MultiplesStep(year, 400);
    assert year % 400 == 0 ==> year % 100 == 0;
    assert year % 100 == 0 ==> year % 4 == 0;
  }

  lemma {:induction false} YearsAhead(year: int, n: nat)
    ensures 365 * n <= BeforeYear(year + n) - BeforeYear(year) <= 366 * n
  {
    if n > 0 {
      YearsAhead(year, n - 1);
      YearStep(year + n - 1);
    }
  }

  function YearFrom(year: int, day: int): (y: int)
    ensures BeforeYear(y) <= day < BeforeYear(y + 1)
    decreases if day < BeforeYear(year) then BeforeYear(year) - day + 366 else day - BeforeYear(year)
  {
    hide BeforeYear;
    YearStep(year);
    YearStep(year - 1);
    if day < BeforeYear(year) then YearFrom(year - 1, day)
    else if BeforeYear(year + 1) <= day then YearFrom(year + 1, day)
    else year
  }

  function MonthFrom(leap: bool, month: nat, rest: nat): (md: (nat, nat))
    requires 1 <= month <= 12 && BeforeMonth(leap, month) + rest < if leap then 366 else 365
    ensures 1 <= md.0 <= 12 && 1 <= md.1 <= MonthLength(leap, md.0)
    ensures BeforeMonth(leap, md.0) + md.1 - 1 == BeforeMonth(leap, month) + rest
    decreases 12 - month
  {
    MonthTable(leap);
    if rest < MonthLength(leap, month) then (month, rest + 1) else MonthFrom(leap, month + 1, rest - MonthLength(leap, month))
  }

  lemma MonthTable(leap: bool)
    ensures BeforeMonth(leap, 12) + MonthLength(leap, 12) == if leap then 366 else 365
    ensures BeforeMonth(leap, 3) == if leap then 60 else 59
    ensures BeforeMonth(leap, 2) == 31
  {
    assert BeforeMonth(leap, 2) == 31;
    assert BeforeMonth(leap, 3) == 31 + MonthLength(leap, 2);
    assert BeforeMonth(leap, 5) == BeforeMonth(leap, 3) + 61;
    assert BeforeMonth(leap, 7) == BeforeMonth(leap, 5) + 61;
    assert BeforeMonth(leap, 9) == BeforeMonth(leap, 7) + 62;
    assert BeforeMonth(leap, 11) == BeforeMonth(leap, 9) + 61;
    assert BeforeMonth(leap, 12) == BeforeMonth(leap, 11) + 30;
  }

  /** The date of a day number. */
  function DateOf(day: int): (d: Date)
    ensures IsDate(d.year, d.month, d.day) && DayNumber(d) == day
  {
    var year := YearFrom(1970, day);
    YearStep(year);
    var md := MonthFrom(IsLeap(year), 1, day - BeforeYear(year));
    Date(year, md.0, md.1)
  }

  // ---------------------------------------------------------------- dates and day numbers are one

  lemma {:induction false} MonthsAhead(leap: bool, month: nat, later: nat)
    requires 1 <= month < later
    ensures BeforeMonth(leap, month) + MonthLength(leap, month) <= BeforeMonth(leap, later)
  {
    if month + 1 < later {
      MonthsAhead(leap, month, later - 1);
    }
  }

  lemma InItsYear(d: Date)
    requires IsDate(d.year, d.month, d.day)
    ensures BeforeYear(d.year) <= DayNumber(d) < BeforeYear(d.year + 1)
  {
    hide BeforeYear, BeforeMonth;
    YearStep(d.year);
    MonthTable(IsLeap(d.year));
    if d.month < 12 {
      MonthsAhead(IsLeap(d.year), d.month, 12);
    }
  }

  lemma EarlierYear(c: Date, d: Date)
    requires IsDate(c.year, c.month, c.day) && IsDate(d.year, d.month, d.day) && c.year < d.year
    ensures DayNumber(c) < DayNumber(d)
  {
    hide BeforeYear, DayNumber;
    InItsYear(c);
    InItsYear(d);
    YearsAhead(c.year + 1, d.year - c.year - 1);
  }

  lemma EarlierMonth(c: Date, d: Date)
    requires IsDate(c.year, c.month, c.day) && IsDate(d.year, d.month, d.day) && c.year == d.year && c.month < d.month
    ensures DayNumber(c) < DayNumber(d)
  {
    hide BeforeYear, BeforeMonth;
    MonthsAhead(IsLeap(c.year), c.month, d.month);
  }

  /** Every date is the date of its day number: with `DateOf`'s own contract, a bijection. */
  lemma DateRoundTrip(d: Date)
    requires IsDate(d.year, d.month, d.day)
    ensures DateOf(DayNumber(d)) == d
  {
    var e := DateOf(DayNumber(d));
    hide BeforeYear, DateOf;
    if e.year < d.year {
      EarlierYear(e, d);
    } else if d.year < e.year {
      EarlierYear(d, e);
    } else if e.month < d.month {
      EarlierMonth(e, d);
    } else if d.month < e.month {
      EarlierMonth(d, e);
    }
  }

  // ---------------------------------------------------------------- how long any date can be away

  /** Some year among the next eight is leap; only a leap year before a common century waits all eight. */
  lemma NextLeapYear(year: int) returns (leap: int)
    ensures year < leap <= year + 8 && IsLeap(leap)
    ensures leap == year + 8 ==> IsLeap(year) && !IsLeap(year + 4)
  {
    var next := year + 4 - year % 4;
    if IsLeap(next) {
      return next;
    }
    assert next % 100 == 0 && (next + 4) % 100 == 4;
    return next + 4;
  }

  lemma NextYearsDate(day: int, month: nat, d: nat) returns (e: int)
    requires IsDate(DateOf(day).year + 1, month, d)
    ensures day < e <= day + 732 && e == DayNumber(Date(DateOf(day).year + 1, month, d)) && DateOf(e) == Date(DateOf(day).year + 1, month, d)
  {
    var today := DateOf(day);
    var date := Date(today.year + 1, month, d);
    hide BeforeYear, DayNumber, DateOf;
    e := DayNumber(date);
    InItsYear(today);
    InItsYear(date);
    YearsAhead(today.year, 2);
    DateRoundTrip(date);
  }

  lemma LeapDay(year: int)
    requires IsLeap(year)
    ensures DayNumber(Date(year, 2, 29)) == BeforeYear(year) + 59 && DateOf(BeforeYear(year) + 59) == Date(year, 2, 29)
  {
    hide BeforeYear, DateOf;
    MonthTable(true);
    DateRoundTrip(Date(year, 2, 29));
  }

  lemma CommonYears(year: int)
    requires year % 4 == 0
    ensures YearLength(year + 1) == YearLength(year + 2) == YearLength(year + 3) == 365
  {
  }

  /** Eight years around a common century have but one leap day after the first. */
  lemma CommonCentury(year: int)
    requires IsLeap(year) && !IsLeap(year + 4)
    ensures BeforeYear(year + 8) == BeforeYear(year) + 2921
  {
    CommonYears(year);
    CommonYears(year + 4);
    hide BeforeYear, IsLeap;
    YearStep(year);
    YearStep(year + 1);
    YearStep(year + 2);
    YearStep(year + 3);
    YearStep(year + 4);
    YearStep(year + 5);
    YearStep(year + 6);
    YearStep(year + 7);
  }

  lemma LeapDayComes(day: int) returns (e: int)
    ensures day < e <= day + 2921 && DateOf(e).month == 2 && DateOf(e).day == 29
  {
    var year := DateOf(day).year;
    hide BeforeYear, DayNumber, DateOf;
    InItsYear(DateOf(day));
    if IsLeap(year) && day < BeforeYear(year) + 59 {
      LeapDay(year);
      return BeforeYear(year) + 59;
    }
    var leap := NextLeapYear(year);
    LeapDay(leap);
    YearsAhead(year, leap - year);
    YearsAhead(year + 1, leap - year - 1);
    if leap == year + 8 {
      CommonCentury(year);
    }
    return BeforeYear(leap) + 59;
  }

  /** Every date of a leap year comes again within 2921 days. */
  lemma DateComes(day: int, month: nat, d: nat) returns (e: int)
    requires 1 <= month <= 12 && 1 <= d <= MonthLength(true, month)
    ensures day < e <= day + 2921 && DateOf(e).month == month && DateOf(e).day == d
  {
    if month == 2 && d == 29 {
      e := LeapDayComes(day);
    } else {
      e := NextYearsDate(day, month, d);
    }
  }

  lemma WeekdayAhead(day: int, weekday: nat)
    requires weekday < 7
    ensures Weekday(day + (weekday - Weekday(day)) % 7) == weekday
  {
    var w := Weekday(day);
    assert (weekday - w) % 7 == if w <= weekday then weekday - w else weekday - w + 7;
  }

  /** Every weekday comes among the first seven days of any month, within two years. */
  lemma WeekdayComes(day: int, month: nat, weekday: nat) returns (e: int)
    requires 1 <= month <= 12 && weekday < 7
    ensures day < e <= day + 732 && DateOf(e).month == month && 1 <= DateOf(e).day <= 7 && Weekday(e) == weekday
  {
    hide BeforeYear, DateOf, Weekday, BeforeMonth;
    var first := DayNumber(Date(DateOf(day).year + 1, month, 1));
    var ahead := (weekday - Weekday(first)) % 7;
    WeekdayAhead(first, weekday);
    assert DayNumber(Date(DateOf(day).year + 1, month, 1 + ahead)) == first + ahead;
    e := NextYearsDate(day, month, 1 + ahead);
  }
}
