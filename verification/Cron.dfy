/** Cron schedules over minutes: when they fire, which are accepted, and the next and missed starts. */
module Cron {
  import opened Wrappers
  import opened Calendar
  import opened CronText
  import opened Division
  import opened Text

  const MAX_LOOKBACK_DAYS := 7
  const TOO_MANY_MISSED := 100
  const SEARCH_DAYS := 366 * 8

  /** Nanoseconds on the UTC timeline; day 0 is that of the calendar. */
  type Instant = int

  function MinuteOf(t: Instant): int { t / 60_000_000_000 }

  function InstantOf(minute: int): Instant { minute * 60_000_000_000 }

  // ---------------------------------------------------------------- when a schedule fires

  datatype Plan = Plan(
    minutes: set<nat>, hours: set<nat>, days: set<nat>, months: set<nat>, weekdays: set<nat>,
    anyDay: bool, anyWeekday: bool)

  function PlanOf(schedule: string): (p: Option<Plan>)
    ensures p.Some? ==> WellFormed(p.value)
  {
    var fields := Words(schedule);
    if |fields| != 5 then None
    else
      AnyIsAll(fields[2], 1, 31);
      AnyIsAll(fields[4], 0, 7);
      Some(Plan(
        Values(fields[0], 0, 59), Values(fields[1], 0, 23), Values(fields[2], 1, 31),
        Values(fields[3], 1, 12), Values(fields[4], 0, 7), IsAny(fields[2]), IsAny(fields[4])))
  }

  ghost predicate WellFormed(p: Plan) {
    && (forall v | v in p.minutes :: v <= 59) && (forall v | v in p.hours :: v <= 23)
    && (forall v | v in p.days :: 1 <= v <= 31) && (forall v | v in p.months :: 1 <= v <= 12)
    && (forall v | v in p.weekdays :: v <= 7)
    && (p.anyDay ==> forall v: nat | 1 <= v <= 31 :: v in p.days)
    && (p.anyWeekday ==> forall v: nat | v <= 7 :: v in p.weekdays)
  }

  lemma AnyIsAll(field: string, min: nat, max: nat)
    ensures IsAny(field) ==> forall v: nat | min <= v <= max :: v in Values(field, min, max)
  {
    if IsAny(field) {
      assert Split(field, ',') == [field];
      assert RangeOf(field, min, max) == Some(Range(min, max, 1));
      forall v: nat | min <= v <= max ensures Named([field], min, max, v) {
        assert Names([field][0], min, max, v);
      }
    }
  }

  /** Sunday is 0 or 7. */
  predicate WeekdayFires(p: Plan, day: int) {
    Weekday(day) in p.weekdays || (Weekday(day) == 0 && 7 in p.weekdays)
  }

  /** With both day fields restricted, either suffices; otherwise both must hold. */
  predicate DayFires(p: Plan, day: int) {
    var date := DateOf(day);
    && date.month in p.months
    && if !p.anyDay && !p.anyWeekday then date.day in p.days || WeekdayFires(p, day)
       else date.day in p.days && WeekdayFires(p, day)
  }

  /** Whether a plan fires at a minute. */
  predicate Fires(p: Plan, m: int) {
    m % 60 in p.minutes && m % 1440 / 60 in p.hours && DayFires(p, m / 1440)
  }

  predicate Matches(schedule: string, at: Instant) {
    PlanOf(schedule).Some? && Fires(PlanOf(schedule).value, MinuteOf(at))
  }

  // ---------------------------------------------------------------- which schedules are accepted

  datatype Invalid = WrongFieldCount(count: nat) | EmptyField(field: string, value: string) | ImpossibleDate

  /** Some month of the schedule has, in a leap year, some day of it. */
  predicate Possible(days: set<nat>, months: set<nat>) {
    exists m, d :: m in months && d in days && d <= MonthLength(true, m)
  }

  predicate NoneEmpty(p: Plan) {
    p.minutes != {} && p.hours != {} && p.days != {} && p.months != {} && p.weekdays != {}
  }

  predicate Accepted(p: Plan) { NoneEmpty(p) && (!p.anyDay ==> Possible(p.days, p.months)) }

  /** The walk over four years finds a date exactly if there is one at all. */
  method FindDate(days: set<nat>, months: set<nat>) returns (possible: bool)
    requires (forall v | v in days :: 1 <= v <= 31) && (forall v | v in months :: 1 <= v <= 12)
    ensures possible <==> Possible(days, months)
  {
    for year := 2024 to 2028
      invariant year > 2024 ==> forall m, d :: m in months && d in days ==> !IsDate(2024, m, d)
    {
      for m: nat := 1 to 13
        invariant forall n, d :: n in months && d in days && n < m ==> !IsDate(year, n, d)
      {
        if m in months {
          for d: nat := 1 to 32
            invariant forall e :: e in days && e < d ==> !IsDate(year, m, e)
          {
            if d in days && IsDate(year, m, d) {
              return true;
            }
          }
        }
      }
    }
    assert IsLeap(2024);
    assert forall m, d :: m in months && d in days ==> !IsDate(2024, m, d);
    return false;
  }

  const NAMES: seq<string> := ["minute", "hour", "day-of-month", "month", "day-of-week"]
  const LEAST: seq<nat> := [0, 0, 1, 1, 0]
  const MOST: seq<nat> := [59, 23, 31, 12, 7]

  method Validate(schedule: string) returns (r: Result<(), Invalid>)
    ensures r.Ok? <==> PlanOf(schedule).Some? && Accepted(PlanOf(schedule).value)
    ensures r.Err? ==>
      var fields := Words(schedule);
      match r.error
      case WrongFieldCount(n) => n == |fields| != 5
      case EmptyField(field, value) =>
        |fields| == 5 && exists i: nat :: i < 5 && FirstEmpty(fields, i) && field == NAMES[i] && value == fields[i]
      case ImpossibleDate => |fields| == 5 && NoneEmpty(PlanOf(schedule).value) && !PlanOf(schedule).value.anyDay
  {
    var fields := Words(schedule);
    if |fields| != 5 {
      return Err(WrongFieldCount(|fields|));
    }
    var empty := FindEmpty(fields);
    if empty.Some? {
      EmptyIsNotAccepted(schedule, empty.value);
      return Err(EmptyField(NAMES[empty.value], fields[empty.value]));
    }
    FieldsArePlan(schedule);
    hide PlanOf;
    if !IsAny(fields[2]) {
      var days := ParseField(fields[2], 1, 31);
      var months := ParseField(fields[3], 1, 12);
      var possible := FindDate(days, months);
      if !possible {
        return Err(ImpossibleDate);
      }
    }
    return Ok(());
  }

  ghost predicate SomeInEach(fields: seq<string>)
    requires |fields| == 5
  {
    && Values(fields[0], 0, 59) != {} && Values(fields[1], 0, 23) != {} && Values(fields[2], 1, 31) != {}
    && Values(fields[3], 1, 12) != {} && Values(fields[4], 0, 7) != {}
  }

  lemma FieldsArePlan(schedule: string)
    requires |Words(schedule)| == 5
    ensures var fields, p := Words(schedule), PlanOf(schedule);
            && p.Some? && WellFormed(p.value) && p.value.anyDay == IsAny(fields[2])
            && p.value.days == Values(fields[2], 1, 31) && p.value.months == Values(fields[3], 1, 12)
            && (NoneEmpty(p.value) <==> SomeInEach(fields))
  {
    hide WellFormed;
  }

  lemma EmptyIsNone(fields: seq<string>, i: nat)
    requires |fields| == 5 && FirstEmpty(fields, i)
    ensures !SomeInEach(fields)
  {
    assert i == 0 || i == 1 || i == 2 || i == 3 || i == 4;
  }

  lemma EmptyIsNotAccepted(schedule: string, i: nat)
    requires |Words(schedule)| == 5 && FirstEmpty(Words(schedule), i)
    ensures PlanOf(schedule).Some? && !Accepted(PlanOf(schedule).value)
  {
    hide PlanOf;
    FieldsArePlan(schedule);
    EmptyIsNone(Words(schedule), i);
  }

  /** The first field that matches nothing. */
  method FindEmpty(fields: seq<string>) returns (at: Option<nat>)
    requires |fields| == 5
    ensures at.Some? ==> FirstEmpty(fields, at.value)
    ensures at.None? ==> SomeInEach(fields)
  {
    for i: nat := 0 to 5
      invariant forall j: nat | j < i :: Values(fields[j], LEAST[j], MOST[j]) != {}
    {
      var values := ParseField(fields[i], LEAST[i], MOST[i]);
      if values == {} {
        return Some(i);
      }
    }
    assert LEAST[0] == 0 && LEAST[1] == 0 && LEAST[2] == 1 && LEAST[3] == 1 && LEAST[4] == 0;
    return None;
  }

  ghost predicate FirstEmpty(fields: seq<string>, i: nat)
    requires |fields| == 5
  {
    i < 5 && Values(fields[i], LEAST[i], MOST[i]) == {} && forall j: nat | j < i :: Values(fields[j], LEAST[j], MOST[j]) != {}
  }

  // ---------------------------------------------------------------- the Gregorian bound

  /** What it takes for a plan to fire at all. */
  predicate CanFire(p: Plan) {
    && p.minutes != {} && p.hours != {} && p.months != {}
    && if !p.anyDay && !p.anyWeekday then Possible(p.days, p.months) || p.weekdays != {}
       else Possible(p.days, p.months) && p.weekdays != {}
  }

  lemma WeekdayRecurs(p: Plan, day: int) returns (e: int)
    requires WellFormed(p) && p.months != {} && p.weekdays != {}
    ensures day < e <= day + 2921 && DateOf(e).month in p.months && 1 <= DateOf(e).day <= 7 && WeekdayFires(p, e)
  {
    hide DateOf, Weekday;
    var m: nat :| m in p.months;
    var w: nat :| w in p.weekdays;
    e := WeekdayComes(day, m, w % 7);
  }

  lemma DateRecurs(p: Plan, day: int) returns (e: int)
    requires WellFormed(p) && Possible(p.days, p.months)
    ensures day < e <= day + 2921 && DateOf(e).month in p.months && DateOf(e).day in p.days
  {
    hide DateOf;
    var m, d :| m in p.months && d in p.days && d <= MonthLength(true, m);
    e := DateComes(day, m, d);
  }

  /** A plan that can fire has a day within eight years of any other. */
  lemma DayRecurs(p: Plan, day: int) returns (e: int)
    requires WellFormed(p) && CanFire(p)
    ensures day < e <= day + 2921 && DayFires(p, e)
  {
    if p.anyDay || (!p.anyWeekday && !Possible(p.days, p.months)) {
      e := WeekdayRecurs(p, day);
    } else {
      e := DateRecurs(p, day);
    }
  }

  lemma TimeOfDay(day: int, hour: nat, minute: nat)
    requires hour < 24 && minute < 60
    ensures var m := day * 1440 + hour * 60 + minute;
            m / 1440 == day && m % 1440 / 60 == hour && m % 60 == minute
  {
    var m, rest := day * 1440 + hour * 60 + minute, hour * 60 + minute;
    DivIs(m, 1440, day, rest);
    DivIs(rest, 60, hour, minute);
    DivIs(m, 60, day * 24 + hour, minute);
  }

  /** Exactly the plans that can fire do, after any minute, and within 2922 days of it. */
  lemma FiresIffItCan(p: Plan, after: int)
    requires WellFormed(p)
    ensures (exists m :: Fires(p, m)) <==> CanFire(p)
    ensures CanFire(p) ==> exists m :: after < m < after + 2922 * 1440 && Fires(p, m)
  {
    if CanFire(p) {
      hide DateOf, DayFires;
      var day := DayRecurs(p, after / 1440);
      var h: nat :| h in p.hours;
      var mi: nat :| mi in p.minutes;
      TimeOfDay(day, h, mi);
      assert Fires(p, day * 1440 + h * 60 + mi);
    }
    if m :| Fires(p, m) {
      var date := DateOf(m / 1440);
      hide DateOf;
      assert date.day <= MonthLength(true, date.month);
    }
  }

  /** Every accepted schedule fires; of the rejected, exactly these do, all with both day fields restricted. */
  lemma AcceptedFires(p: Plan, after: int)
    requires WellFormed(p)
    ensures Accepted(p) ==> exists m :: after < m < after + 2922 * 1440 && Fires(p, m)
    ensures !Accepted(p) && (exists m :: Fires(p, m)) <==>
            && p.minutes != {} && p.hours != {} && p.months != {} && !p.anyDay && !p.anyWeekday
            && (Possible(p.days, p.months) <==> p.weekdays == {})
  {
    FiresIffItCan(p, after);
    if p.anyDay && p.months != {} {
      var m: nat :| m in p.months;
      assert 1 in p.days && 1 <= MonthLength(true, m);
    }
  }

  /** A field that is one number. */
  lemma NumberField(field: string, n: nat, min: nat, max: nat)
    requires IsNumber(field, n) && min <= n <= max
    ensures Values(field, min, max) == {n}
  {
    PlainField(field);
    assert RangeOf(field, min, max) == Some(Range(n, n, 1));
    forall v: nat ensures Named([field], min, max, v) <==> v == n {
      if v == n {
        assert Names([field][0], min, max, v);
      }
    }
  }

  lemma PlainField(field: string)
    requires field != "" && (forall c | c in field :: IsDigit(c))
    ensures Split(field, ',') == [field] && SplitOnce(field, '/') == None && SplitOnce(field, '-') == None
    ensures !IsAny(field) && field[0] != '+'
  {
    assert IsDigit(field[0]) && field + "" == field;
    IndexAfter(field, "", ',');
    IndexAfter(field, "", '/');
    IndexAfter(field, "", '-');
  }

  predicate IsNumber(field: string, n: nat) {
    field != "" && (forall c | c in field :: IsDigit(c)) && Digits(field) == n <= U32_MAX
  }

  /** Five numbers in range are read as themselves. */
  lemma NumberFields(fields: seq<string>, minute: nat, hour: nat, day: nat, month: nat, weekday: nat)
    requires |fields| == 5 && minute <= 59 && hour <= 23 && 1 <= day <= 31 && 1 <= month <= 12 && weekday <= 7
    requires IsNumber(fields[0], minute) && IsNumber(fields[1], hour) && IsNumber(fields[2], day)
    requires IsNumber(fields[3], month) && IsNumber(fields[4], weekday)
    ensures PlanOf(Spaced(fields)) == Some(Plan({minute}, {hour}, {day}, {month}, {weekday}, false, false))
  {
    forall i | 0 <= i < |fields| ensures Solid(fields[i]) {
      forall j | 0 <= j < |fields[i]| ensures !IsSpace(fields[i][j]) {
        assert fields[i][j] in fields[i];
      }
    }
    SpacedWords(fields);
    NumberField(fields[0], minute, 0, 59);
    NumberField(fields[1], hour, 0, 23);
    NumberField(fields[2], day, 1, 31);
    NumberField(fields[3], month, 1, 12);
    NumberField(fields[4], weekday, 0, 7);
    PlainField(fields[2]);
    PlainField(fields[4]);
  }

  const EXAMPLE := Plan({0}, {0}, {30}, {2}, {1}, false, false)

  lemma ExamplePlan()
    ensures PlanOf(Spaced(["0", "0", "30", "2", "1"])) == Some(EXAMPLE)
  {
    assert "30"[..1] == "3" && Digits("3") == 3;
    assert IsNumber("0", 0) && IsNumber("1", 1) && IsNumber("2", 2) && IsNumber("30", 30);
    hide PlanOf, IsNumber;
    NumberFields(["0", "0", "30", "2", "1"], 0, 0, 30, 2, 1);
  }

  /** The thirtieth of February or any Monday in it: rejected, though every Monday in February fires. */
  lemma RejectedYetFires()
    ensures PlanOf(Spaced(["0", "0", "30", "2", "1"])) == Some(EXAMPLE) && !Accepted(EXAMPLE) && exists m :: Fires(EXAMPLE, m)
  {
    ExamplePlan();
    hide Fires;
    assert 2 in EXAMPLE.months && 1 in EXAMPLE.weekdays && 0 in EXAMPLE.minutes && 0 in EXAMPLE.hours;
    AcceptedFires(EXAMPLE, 0);
  }

  // ---------------------------------------------------------------- the next start

  /** The least firing minute after `after`. */
  ghost predicate IsNextMinute(p: Plan, after: int, m: int) {
    after < m && Fires(p, m) && forall x | after < x < m :: !Fires(p, x)
  }

  ghost predicate Ascends(s: seq<nat>, values: set<nat>) {
    && (forall v :: v in s <==> v in values)
    && (forall i, j | 0 <= i < j < |s| :: s[i] < s[j])
  }

  method Ascending(values: set<nat>, bound: nat) returns (s: seq<nat>)
    requires forall v | v in values :: v < bound
    ensures Ascends(s, values)
  {
    s := [];
    for v: nat := 0 to bound
      invariant forall w: nat :: w in s <==> w in values && w < v
      invariant forall i, j | 0 <= i < j < |s| :: s[i] < s[j]
    {
      assert forall i | 0 <= i < |s| :: s[i] in s;
      if v in values {
        s := s + [v];
      }
    }
  }

  /** A minute by its day, hour and minute. */
  function At(day: int, hour: nat, minute: nat): int { day * 1440 + hour * 60 + minute }

  /** No minute of `day` in (after, before) fires. */
  ghost predicate QuietDay(p: Plan, day: int, after: int, before: int) {
    forall x | x / 1440 == day && after < x < before :: !Fires(p, x)
  }

  /** The first `i` hours, and in the next one the first `j` minutes, are not after `after`. */
  ghost predicate Passed(day: int, hours: seq<nat>, minutes: seq<nat>, i: nat, j: nat, after: int)
    requires i <= |hours| && j <= |minutes|
  {
    && (forall a, b | 0 <= a < i && 0 <= b < |minutes| :: At(day, hours[a], minutes[b]) <= after)
    && (i < |hours| ==> forall b | 0 <= b < j :: At(day, hours[i], minutes[b]) <= after)
  }

  lemma PassedIsQuiet(p: Plan, day: int, hours: seq<nat>, minutes: seq<nat>, i: nat, j: nat, after: int, before: int)
    requires WellFormed(p) && Ascends(hours, p.hours) && Ascends(minutes, p.minutes)
    requires i <= |hours| && j <= |minutes| && Passed(day, hours, minutes, i, j, after)
    requires i < |hours| ==> j < |minutes| && before == At(day, hours[i], minutes[j])
    ensures QuietDay(p, day, after, before)
  {
    forall x | x / 1440 == day && Fires(p, x) ensures x <= after || (i < |hours| && before <= x) {
      MinuteParts(x);
      assert x % 1440 / 60 in hours && x % 60 in minutes;
      var a :| 0 <= a < |hours| && hours[a] == x % 1440 / 60;
      var b :| 0 <= b < |minutes| && minutes[b] == x % 60;
      assert At(day, hours[a], minutes[b]) == x;
      if i < |hours| && i < a {
        assert hours[i] < hours[a] && minutes[j] in p.minutes;
      }
    }
  }

  lemma MinuteParts(x: int)
    ensures x == At(x / 1440, x % 1440 / 60, x % 60) && x % 1440 / 60 <= 23
  {
    var rest := x % 1440;
    assert x == 1440 * (x / 1440) + rest;
    DivIs(x, 60, x / 1440 * 24 + rest / 60, rest % 60);
  }

  method SearchDay(p: Plan, day: int, hours: seq<nat>, minutes: seq<nat>, after: int) returns (found: Option<int>)
    requires WellFormed(p) && Ascends(hours, p.hours) && Ascends(minutes, p.minutes) && DayFires(p, day)
    ensures found.Some? ==> found.value / 1440 == day && after < found.value && Fires(p, found.value) && QuietDay(p, day, after, found.value)
    ensures found.None? ==> forall before :: QuietDay(p, day, after, before)
  {
    hide DayFires;
    for i: nat := 0 to |hours|
      invariant Passed(day, hours, minutes, i, 0, after)
    {
      for j: nat := 0 to |minutes|
        invariant Passed(day, hours, minutes, i, j, after)
      {
        var at := At(day, hours[i], minutes[j]);
        assert hours[i] in p.hours && minutes[j] in p.minutes;
        TimeOfDay(day, hours[i], minutes[j]);
        if after < at {
          PassedIsQuiet(p, day, hours, minutes, i, j, after, at);
          return Some(at);
        }
      }
    }
    forall before ensures QuietDay(p, day, after, before) {
      PassedIsQuiet(p, day, hours, minutes, |hours|, 0, after, before);
    }
    return None;
  }

  /** The next start: a whole minute strictly after `after`, firing, with no firing instant between. */
  ghost predicate IsNext(p: Plan, after: Instant, at: Instant) {
    && after < at && at == InstantOf(MinuteOf(at)) && Fires(p, MinuteOf(at))
    && forall t | after < t < at && t == InstantOf(MinuteOf(t)) :: !Fires(p, MinuteOf(t))
  }

  lemma WholeMinutes(m: int, t: Instant)
    ensures MinuteOf(InstantOf(m)) == m
    ensures InstantOf(m) > t <==> m > MinuteOf(t)
    ensures InstantOf(m) <= t <==> m <= MinuteOf(t)
  {
    DivIs(InstantOf(m), 60_000_000_000, m, 0);
  }

  lemma NextMinuteIsNext(p: Plan, after: Instant, m: int)
    requires IsNextMinute(p, MinuteOf(after), m)
    ensures IsNext(p, after, InstantOf(m))
  {
    hide Fires;
    WholeMinutes(m, after);
    forall t | after < t < InstantOf(m) && t == InstantOf(MinuteOf(t)) ensures !Fires(p, MinuteOf(t)) {
      WholeMinutes(MinuteOf(t), after);
    }
  }

  /**
   * Searches days before hours and minutes. It answers for exactly the accepted schedules: the
   * error after the search is unreachable.
   */
  method NextStart(schedule: string, after: Instant) returns (r: Result<Instant, Invalid>)
    ensures r.Ok? <==> PlanOf(schedule).Some? && Accepted(PlanOf(schedule).value)
    ensures r.Ok? ==> IsNext(PlanOf(schedule).value, after, r.value)
  {
    var valid := Validate(schedule);
    if valid.Err? {
      return Err(valid.error);
    }
    var fields := Words(schedule);
    var minuteSet := ParseField(fields[0], 0, 59);
    var hourSet := ParseField(fields[1], 0, 23);
    var days := ParseField(fields[2], 1, 31);
    var months := ParseField(fields[3], 1, 12);
    var weekdays := ParseField(fields[4], 0, 7);
    var p := Plan(minuteSet, hourSet, days, months, weekdays, IsAny(fields[2]), IsAny(fields[4]));
    assert p == PlanOf(schedule).value;
    var found := Search(p, MinuteOf(after));
    NextMinuteIsNext(PlanOf(schedule).value, after, found);
    return Ok(InstantOf(found));
  }

  /** No minute after `after` and before `day` fires. */
  ghost predicate QuietUntil(p: Plan, after: int, day: int) {
    forall x | after < x && x / 1440 < day :: !Fires(p, x)
  }

  method Search(p: Plan, after: int) returns (found: int)
    requires WellFormed(p) && Accepted(p)
    ensures IsNextMinute(p, after, found)
  {
    AcceptedFires(p, after);
    ghost var sure :| after < sure < after + 2922 * 1440 && Fires(p, sure);
    hide Fires, DayFires, Accepted;
    var minutes := Ascending(p.minutes, 60);
    var hours := Ascending(p.hours, 24);
    var today := after / 1440;
    for offset := 0 to SEARCH_DAYS + 1
      invariant QuietUntil(p, after, today + offset)
    {
      var day := today + offset;
      if DayFires(p, day) {
        var at := SearchDay(p, day, hours, minutes, after);
        if at.Some? {
          return at.value;
        }
      }
      DayIsQuiet(p, after, day);
    }
    assert false;
  }

  lemma DayIsQuiet(p: Plan, after: int, day: int)
    requires QuietUntil(p, after, day) && (!DayFires(p, day) || forall before :: QuietDay(p, day, after, before))
    ensures QuietUntil(p, after, day + 1)
  {
    forall x | after < x && x / 1440 < day + 1 ensures !Fires(p, x) {
      assert x / 1440 == day && DayFires(p, day) ==> QuietDay(p, day, after, x + 1);
    }
  }

  // ---------------------------------------------------------------- missed starts

  datatype MissedError = TooMany(count: nat) | TooFarBehind

  const LOOKBACK: int := MAX_LOOKBACK_DAYS * 86_400 * 1_000_000_000

  /** A whole minute in (since, now] at which the schedule fires. */
  predicate IsStart(schedule: string, since: Instant, now: Instant, t: Instant) {
    since < t <= now && t == InstantOf(MinuteOf(t)) && Matches(schedule, t)
  }

  /** Exactly the starts in (since, now], oldest first. */
  ghost predicate AllStarts(schedule: string, since: Instant, now: Instant, out: seq<Instant>) {
    && (forall t :: t in out <==> IsStart(schedule, since, now, t))
    && (forall i, j | 0 <= i < j < |out| :: out[i] < out[j])
  }

  lemma StartsGrow(schedule: string, since: Instant, m: int, out: seq<Instant>)
    requires AllStarts(schedule, since, InstantOf(m - 1), out) && MinuteOf(since) < m
    ensures AllStarts(schedule, since, InstantOf(m), if Matches(schedule, InstantOf(m)) then out + [InstantOf(m)] else out)
  {
    WholeMinutes(m, since);
    var at := InstantOf(m);
    hide Matches;
    forall t ensures IsStart(schedule, since, at, t) <==>
                     IsStart(schedule, since, InstantOf(m - 1), t) || (t == at && Matches(schedule, at)) {
      WholeMinutes(m - 1, t);
      WholeMinutes(m, t);
      WholeMinutes(MinuteOf(t), at);
    }
    assert forall i | 0 <= i < |out| :: out[i] in out;
  }

  lemma StartsUntil(schedule: string, since: Instant, now: Instant, out: seq<Instant>)
    requires AllStarts(schedule, since, InstantOf(MinuteOf(now)), out)
    ensures AllStarts(schedule, since, now, out)
  {
    hide Matches;
    forall t ensures IsStart(schedule, since, now, t) <==> IsStart(schedule, since, InstantOf(MinuteOf(now)), t) {
      WholeMinutes(MinuteOf(t), now);
      WholeMinutes(MinuteOf(t), InstantOf(MinuteOf(now)));
      WholeMinutes(MinuteOf(now), now);
    }
  }

  /** More starts than are caught up on, by `now` at the latest. */
  ghost predicate ManyStarts(schedule: string, since: Instant, now: Instant) {
    exists until, out :: until <= now && AllStarts(schedule, since, until, out) && |out| > TOO_MANY_MISSED
  }

  lemma SomeMany(schedule: string, since: Instant, until: Instant, now: Instant, out: seq<Instant>)
    requires until <= now && AllStarts(schedule, since, until, out) && |out| > TOO_MANY_MISSED
    ensures ManyStarts(schedule, since, now)
  {
  }

  lemma {:induction false} RisingIsDistinct(s: seq<Instant>)
    requires forall i, j | 0 <= i < j < |s| :: s[i] < s[j]
    ensures |set t | t in s| == |s|
  {
    if s != [] {
      var n := |s| - 1;
      var front := s[..n];
      RisingIsDistinct(front);
      assert s == front + [s[n]];
      assert (set t | t in s) == (set t | t in front) + {s[n]};
      assert s[n] !in front;
    }
  }

  lemma SubsetIsSmaller(a: set<Instant>, b: set<Instant>)
    requires a <= b
    ensures |a| <= |b|
  {
    assert b == a + (b - a);
  }

  /** No earlier part of the starts is longer than all of them. */
  lemma FewStarts(schedule: string, since: Instant, now: Instant, out: seq<Instant>)
    requires AllStarts(schedule, since, now, out) && |out| <= TOO_MANY_MISSED
    ensures !ManyStarts(schedule, since, now)
  {
    hide IsStart;
    forall until, part | until <= now && AllStarts(schedule, since, until, part) ensures |part| <= TOO_MANY_MISSED {
      RisingIsDistinct(out);
      RisingIsDistinct(part);
      StartsRemain(schedule, since, until, now);
      SubsetIsSmaller(set t | t in part, set t | t in out);
    }
  }

  lemma StartsRemain(schedule: string, since: Instant, until: Instant, now: Instant)
    requires until <= now
    ensures forall t | IsStart(schedule, since, until, t) :: IsStart(schedule, since, now, t)
  {
    hide Matches;
  }

  method MissedStarts(schedule: string, since: Instant, now: Instant) returns (r: Result<seq<Instant>, MissedError>)
    ensures r == Err(TooFarBehind) <==> now - since > LOOKBACK
    ensures r.Ok? ==> AllStarts(schedule, since, now, r.value) && |r.value| <= TOO_MANY_MISSED
    ensures r.Err? && r.error.TooMany? <==> now - since <= LOOKBACK && ManyStarts(schedule, since, now)
    ensures r.Err? && r.error.TooMany? ==> r.error.count == TOO_MANY_MISSED + 1
  {
    hide Matches, ManyStarts;
    if now < since {
      FewStarts(schedule, since, now, []);
      return Ok([]);
    }
    if now - since > LOOKBACK {
      return Err(TooFarBehind);
    }
    var out: seq<Instant> := [];
    var m, end := MinuteOf(since) + 1, MinuteOf(now);
    WholeMinutes(m - 1, since);
    while m <= end
      invariant MinuteOf(since) < m <= MinuteOf(now) + 1
      invariant AllStarts(schedule, since, InstantOf(m - 1), out) && |out| <= TOO_MANY_MISSED
    {
      StartsGrow(schedule, since, m, out);
      if Matches(schedule, InstantOf(m)) {
        out := out + [InstantOf(m)];
        if |out| > TOO_MANY_MISSED {
          WholeMinutes(m, now);
          assert ManyStarts(schedule, since, now) by { SomeMany(schedule, since, InstantOf(m), now, out); }
          return Err(TooMany(|out|));
        }
      }
      m := m + 1;
    }
    StartsUntil(schedule, since, now, out);
    FewStarts(schedule, since, now, out);
    return Ok(out);
  }

  /** Where the walk from start to start is before step `i`. */
  function Before(since: Instant, out: seq<Instant>, i: nat): Instant
    requires i <= |out|
  {
    if i == 0 then since else out[i - 1]
  }

  /**
   * The minute-by-minute scan and the calendar search agree: each missed start is the next start
   * after the one before, and the next after the last is still to come.
   */
  lemma ScanAgreesWithSearch(schedule: string, since: Instant, now: Instant, out: seq<Instant>, i: nat, at: Instant)
    requires PlanOf(schedule).Some? && AllStarts(schedule, since, now, out) && i <= |out|
    requires IsNext(PlanOf(schedule).value, Before(since, out, i), at)
    ensures if i < |out| then at == out[i] else now < at
  {
    hide Fires, PlanOf;
    WalkAgrees(t => t == InstantOf(MinuteOf(t)) && Matches(schedule, t), since, now, out, i, at);
  }

  /** The same of any set of instants, listed in order or walked from one to the next. */
  lemma WalkAgrees(fires: Instant -> bool, since: Instant, now: Instant, out: seq<Instant>, i: nat, at: Instant)
    requires forall t :: t in out <==> since < t <= now && fires(t)
    requires (forall k, l | 0 <= k < l < |out| :: out[k] < out[l]) && i <= |out|
    requires Before(since, out, i) < at && fires(at) && forall t | Before(since, out, i) < t < at :: !fires(t)
    ensures if i < |out| then at == out[i] else now < at
  {
    var from := Before(since, out, i);
    assert forall k | 0 <= k < |out| :: out[k] in out;
    assert since <= from && forall k | 0 <= k < i :: out[k] <= from;
    if i < |out| {
      assert at <= out[i];
    } else {
      assert at !in out;
    }
  }

  /** The latest start in the window, bounded by the starting deadline if there is one. */
  method StartToRun(schedule: string, last: Option<Instant>, created: Instant, now: Instant, deadline: Option<int>)
    returns (r: Result<Option<Instant>, MissedError>)
    ensures var since := Since(last, created, now, deadline);
            && (r == Err(TooFarBehind) <==> now - since > LOOKBACK)
            && (r.Ok? && r.value.None? ==> forall t :: !IsStart(schedule, since, now, t))
            && (r.Ok? && r.value.Some? ==> IsLatestStart(schedule, since, now, r.value.value))
            && (r.Err? && r.error.TooMany? <==> now - since <= LOOKBACK && ManyStarts(schedule, since, now))
            && (r.Err? && r.error.TooMany? ==> r.error.count == TOO_MANY_MISSED + 1)
  {
    hide Matches;
    var since := if last.Some? then last.value else created;
    if deadline.Some? {
      var earliest := now - deadline.value * 1_000_000_000;
      if earliest > since {
        since := earliest;
      }
    }
    var starts := MissedStarts(schedule, since, now);
    if starts.Err? {
      return Err(starts.error);
    }
    if starts.value == [] {
      return Ok(None);
    }
    assert starts.value[|starts.value| - 1] in starts.value;
    return Ok(Some(starts.value[|starts.value| - 1]));
  }

  ghost predicate IsLatestStart(schedule: string, since: Instant, now: Instant, t: Instant) {
    IsStart(schedule, since, now, t) && forall u | IsStart(schedule, since, now, u) :: u <= t
  }

  function Since(last: Option<Instant>, created: Instant, now: Instant, deadline: Option<int>): Instant {
    var since := if last.Some? then last.value else created;
    if deadline.Some? && since < now - deadline.value * 1_000_000_000 then now - deadline.value * 1_000_000_000 else since
  }
}
