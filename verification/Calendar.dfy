/** Day counts and Gregorian dates (section 3.2.1 of ISO 8601:2004), as the vesting schedule computes them. */
module Calendar {
  import opened Base
  import opened Floors

  datatype Date = Date(y: int, m: int, d: int)

  predicate Leap(y: int)
  {
    y % 4 == 0 && (y % 100 != 0 || y % 400 == 0)
  }

  function DaysInMonth(y: int, m: int): int
  {
    if m == 2 then (if Leap(y) then 29 else 28)
    else if m == 4 || m == 6 || m == 9 || m == 11 then 30
    else 31
  }

  predicate ValidDate(t: Date)
  {
    1 <= t.m <= 12 && 1 <= t.d <= DaysInMonth(t.y, t.m)
  }

  /** The calendar rule the two conversions are measured against: the day after a date. */
  function NextDay(t: Date): Date
  {
    if t.d < DaysInMonth(t.y, t.m) then Date(t.y, t.m, t.d + 1)
    else if t.m < 12 then Date(t.y, t.m + 1, 1)
    else Date(t.y + 1, 1, 1)
  }

  /** Division that truncates toward zero. */
  function TruncDiv(a: int, b: int): int
    requires 0 < b
  {
    if 0 <= a then a / b else -((-a) / b)
  }

  function YearOfEra(doe: int): int
  {
    (doe - doe / 1460 + doe / 36524 - doe / 146096) / 365
  }

  function CivilFromDays(days: int): Date
  {
    var z := days + 719468;
    var era := TruncDiv(if 0 <= z then z else z - 146096, 146097);
    var doe := z - era * 146097;
    var yoe := YearOfEra(doe);
    var doy := doe - (365 * yoe + yoe / 4 - yoe / 100);
    var mp := (5 * doy + 2) / 153;
    var d := doy - (153 * mp + 2) / 5 + 1;
    var m := mp + if mp < 10 then 3 else -9;
    Date(yoe + era * 400 + (if m <= 2 then 1 else 0), m, d)
  }

  function DaysFromCivil(t: Date): int
  {
    var y := if t.m <= 2 then t.y - 1 else t.y;
    var era := TruncDiv(if 0 <= y then y else y - 399, 400);
    var yoe := y - era * 400;
    var doy := (153 * (t.m + if 2 < t.m then -3 else 9) + 2) / 5 + t.d - 1;
    era * 146097 + yoe * 365 + yoe / 4 - yoe / 100 + doy - 719468
  }

  /** Both `era` computations are floor divisions, for negative arguments too. */
  lemma EraIsFloor(z: int, n: int)
    requires 0 < n
    ensures TruncDiv(if 0 <= z then z else z - (n - 1), n) == z / n
  {
    if z < 0 {
      var q := z / n;
      assert q * n <= z < q * n + n;
      var k := (-(z - (n - 1))) / n;
      assert k * n <= -z + n - 1 < k * n + n;
      assert (-k) * n == -(k * n);
      Between(q, -k, n, z);
    }
  }

  lemma Between(q: int, p: int, n: int, z: int)
    requires 0 < n && q * n <= z < q * n + n && p * n <= z < p * n + n
    ensures q == p
  {
    if q < p {
      MulLe(q + 1, p, n);
    } else if p < q {
      MulLe(p + 1, q, n);
    }
  }

  /** First day of a March-based year within its 400-year era. */
  function YearStart(yoe: int): int
  {
    365 * yoe + yoe / 4 - yoe / 100
  }

  /** A position in an era: century, four-year group, year in the group, day in the March-based year. */
  ghost predicate Decomposed(doe: int, c: int, q: int, r: int, doy: int)
  {
    && 0 <= c <= 3 && 0 <= q <= 24 && 0 <= r <= 3 && 0 <= doy <= 365
    && doe == 36524 * c + 1461 * q + 365 * r + doy
    && (doy == 365 ==> r == 3 && (q < 24 || c == 3))
  }

  lemma Decompose(doe: int) returns (c: int, q: int, r: int, doy: int)
    requires 0 <= doe < 146097
    ensures Decomposed(doe, c, q, r, doy)
  {
    c := if doe == 146096 then 3 else doe / 36524;
    var inCentury := doe - 36524 * c;
    q := inCentury / 1461;
    var inGroup := inCentury - 1461 * q;
    r := if inGroup == 1460 then 3 else inGroup / 365;
    doy := inGroup - 365 * r;
  }

  lemma YearOf(c: int, q: int, r: int)
    requires 0 <= c <= 3 && 0 <= q <= 24 && 0 <= r <= 3
    ensures var yoe := 100 * c + 4 * q + r; yoe / 4 == 25 * c + q && yoe / 100 == c
    ensures YearStart(100 * c + 4 * q + r) == 36524 * c + 1461 * q + 365 * r
  {
  }

  /** The year formula of `CivilFromDays` finds the year the day lies in. */
  lemma YearFormula(doe: int, c: int, q: int, r: int, doy: int)
    requires Decomposed(doe, c, q, r, doy)
    ensures YearOfEra(doe) == 100 * c + 4 * q + r
  {
    var tail := 24 * c + q + 365 * r + doy;
    assert doe == 1460 * (25 * c + q) + tail;
    var e := if tail < 1460 then 0 else 1;
    assert doe / 1460 == 25 * c + q + e;
    var last := if doe == 146096 then 1 else 0;
    assert doe / 36524 == c + last && doe / 146096 == last;
    assert doe - doe / 1460 + doe / 36524 - doe / 146096 == 365 * (100 * c + 4 * q + r) + (doy - e);
  }

  /** The date of day `doy` of the year that starts on the first of March of year `y`. */
  function FromYearDay(y: int, doy: int): Date
  {
    var mp := (5 * doy + 2) / 153;
    var m := mp + if mp < 10 then 3 else -9;
    Date(y + (if m <= 2 then 1 else 0), m, doy - (153 * mp + 2) / 5 + 1)
  }

  /** The March-based year of a date, and the day within it. */
  function MarchYear(t: Date): int { if t.m <= 2 then t.y - 1 else t.y }

  function YearDay(t: Date): int { (153 * (t.m + if 2 < t.m then -3 else 9) + 2) / 5 + t.d - 1 }

  /** A day that the March-based year has: the 366th only if that year ends with a leap February. */
  predicate ValidYearDay(y: int, doy: int)
  {
    0 <= doy <= 365 && (doy == 365 ==> Leap(y + 1))
  }

  lemma MonthTable(mp: int)
    requires 0 <= mp <= 12
    ensures (153 * mp + 2) / 5 ==
      [0, 31, 61, 92, 122, 153, 184, 214, 245, 275, 306, 337, 367][mp]
  {
  }

  lemma YearDayRoundTrip(y: int, doy: int)
    requires ValidYearDay(y, doy)
    ensures var t := FromYearDay(y, doy); ValidDate(t) && MarchYear(t) == y && YearDay(t) == doy
  {
    var mp := (5 * doy + 2) / 153;
    assert 0 <= mp <= 11;
    MonthTable(mp);
    MonthTable(mp + 1);
  }

  lemma DateRoundTrip(t: Date)
    requires ValidDate(t)
    ensures ValidYearDay(MarchYear(t), YearDay(t)) && FromYearDay(MarchYear(t), YearDay(t)) == t
  {
    var mp := t.m + if 2 < t.m then -3 else 9;
    MonthTable(mp);
    MonthTable(mp + 1);
    assert (5 * YearDay(t) + 2) / 153 == mp;
  }

  lemma FromDecomposed(days: int, era: int, c: int, q: int, r: int, doy: int)
    requires Decomposed(days + 719468 - 146097 * era, c, q, r, doy)
    ensures CivilFromDays(days) == FromYearDay(400 * era + 100 * c + 4 * q + r, doy)
    ensures ValidYearDay(400 * era + 100 * c + 4 * q + r, doy)
  {
    hide *;
    EraStart(days + 719468, era, c, q, r, doy);
    CivilOfYear(days, era, 100 * c + 4 * q + r, doy);
    LastDayExists(days + 719468 - 146097 * era, era, c, q, r, doy);
  }

  lemma EraStart(z: int, era: int, c: int, q: int, r: int, doy: int)
    requires Decomposed(z - 146097 * era, c, q, r, doy)
    ensures TruncDiv(if 0 <= z then z else z - 146096, 146097) == era
    ensures YearOfEra(z - 146097 * era) == 100 * c + 4 * q + r
    ensures z - 146097 * era == YearStart(100 * c + 4 * q + r) + doy
  {
    hide TruncDiv, YearOfEra, YearStart;
    EraOf(z, era);
    YearFormula(z - 146097 * era, c, q, r, doy);
    YearOf(c, q, r);
  }

  lemma LastDayExists(doe: int, era: int, c: int, q: int, r: int, doy: int)
    requires Decomposed(doe, c, q, r, doy)
    ensures ValidYearDay(400 * era + 100 * c + 4 * q + r, doy)
  {
    hide Leap;
    EndsLeap(era, c, q, r);
  }

  /** The conversion once its era and its year of the era are known. */
  lemma CivilOfYear(days: int, era: int, yoe: int, doy: int)
    requires var z := days + 719468;
      && TruncDiv(if 0 <= z then z else z - 146096, 146097) == era
      && YearOfEra(z - 146097 * era) == yoe && z - 146097 * era == YearStart(yoe) + doy
    ensures CivilFromDays(days) == FromYearDay(400 * era + yoe, doy)
  {
    hide TruncDiv, YearOfEra;
    assert days + 719468 - era * 146097 == YearStart(yoe) + doy;
  }

  lemma EraOf(z: int, era: int)
    requires 0 <= z - 146097 * era < 146097
    ensures TruncDiv(if 0 <= z then z else z - 146096, 146097) == era
  {
    EraIsFloor(z, 146097);
  }

  /** The 366th day exists exactly in the years that end with a leap February. */
  lemma EndsLeap(era: int, c: int, q: int, r: int)
    requires 0 <= c <= 3 && 0 <= q <= 24 && 0 <= r <= 3
    ensures r == 3 && (q < 24 || c == 3) <==> Leap(400 * era + 100 * c + 4 * q + r + 1)
  {
    var y := 400 * era + 100 * c + 4 * q + r + 1;
    Remainder(y, 4, 100 * era + 25 * c + q + (if r == 3 then 1 else 0), if r == 3 then 0 else r + 1);
    if r == 3 {
      var full := q == 24;
      Remainder(y, 100, 4 * era + c + (if full then 1 else 0), if full then 0 else 4 * q + 4);
      if full {
        Remainder(y, 400, era + (if c == 3 then 1 else 0), if c == 3 then 0 else 100 * c + 100);
      }
    }
  }

  lemma Remainder(y: int, n: int, k: int, m: int)
    requires 0 <= m < n && y == n * k + m
    ensures y % n == m
  {
    Between(y / n, k, n, y);
  }

  lemma ToDecomposed(t: Date) returns (era: int, c: int, q: int, r: int)
    requires ValidDate(t)
    ensures MarchYear(t) == 400 * era + 100 * c + 4 * q + r
    ensures Decomposed(DaysFromCivil(t) + 719468 - 146097 * era, c, q, r, YearDay(t))
  {
    hide Leap, TruncDiv;
    var y := MarchYear(t);
    EraIsFloor(y, 400);
    era := y / 400;
    var yoe := y - 400 * era;
    c := yoe / 100;
    q := (yoe - 100 * c) / 4;
    r := yoe - 100 * c - 4 * q;
    YearOf(c, q, r);
    DateRoundTrip(t);
    EndsLeap(era, c, q, r);
  }

  /** Every day number, before or after 1970, converts to a valid date and back to itself. */
  lemma DaysRoundTrip(days: int)
    ensures ValidDate(CivilFromDays(days))
    ensures DaysFromCivil(CivilFromDays(days)) == days
  {
    hide CivilFromDays, DaysFromCivil, ValidYearDay, Leap;
    var z := days + 719468;
    var era := z / 146097;
    var c, q, r, doy := Decompose(z - 146097 * era);
    FromDecomposed(days, era, c, q, r, doy);
    var y := 400 * era + 100 * c + 4 * q + r;
    YearDayRoundTrip(y, doy);
    var t := CivilFromDays(days);
    var era', c', q', r' := ToDecomposed(t);
    SameYear(era, c, q, r, era', c', q', r');
  }

  lemma SameYear(era: int, c: int, q: int, r: int, era': int, c': int, q': int, r': int)
    requires 0 <= c <= 3 && 0 <= q <= 24 && 0 <= r <= 3
    requires 0 <= c' <= 3 && 0 <= q' <= 24 && 0 <= r' <= 3
    requires 400 * era + 100 * c + 4 * q + r == 400 * era' + 100 * c' + 4 * q' + r'
    ensures era == era' && c == c' && q == q' && r == r'
  {
  }

  /** Every valid date converts to a day number and back to itself. */
  lemma CivilRoundTrip(t: Date)
    requires ValidDate(t)
    ensures CivilFromDays(DaysFromCivil(t)) == t
  {
    var era, c, q, r := ToDecomposed(t);
    FromDecomposed(DaysFromCivil(t), era, c, q, r, YearDay(t));
    DateRoundTrip(t);
  }

  lemma YearStartStep(y: int)
    ensures DaysFromCivil(Date(y + 1, 3, 1)) == DaysFromCivil(Date(y, 3, 1)) + 365 + if Leap(y + 1) then 1 else 0
  {
    hide DaysFromCivil, Leap;
    var era, c, q, r := ToDecomposed(Date(y, 3, 1));
    var era', c', q', r' := ToDecomposed(Date(y + 1, 3, 1));
    EndsLeap(era, c, q, r);
    if r < 3 {
      SameYear(era, c, q, r + 1, era', c', q', r');
    } else if q < 24 {
      SameYear(era, c, q + 1, 0, era', c', q', r');
    } else if c < 3 {
      SameYear(era, c + 1, 0, 0, era', c', q', r');
    } else {
      SameYear(era + 1, 0, 0, 0, era', c', q', r');
    }
  }

  /** A date is its day in the March-based year, counted from that first of March. */
  lemma FromMarch(t: Date)
    requires 1 <= t.m <= 12
    ensures DaysFromCivil(t) == DaysFromCivil(Date(MarchYear(t), 3, 1)) + YearDay(t)
  {
  }

  /** The first of the next month is as many days later as the month has. */
  lemma MonthStep(y: int, m: int)
    requires 1 <= m <= 12
    ensures DaysFromCivil(if m < 12 then Date(y, m + 1, 1) else Date(y + 1, 1, 1))
         == DaysFromCivil(Date(y, m, 1)) + DaysInMonth(y, m)
  {
    hide DaysFromCivil, Leap;
    var mp := m + if 2 < m then -3 else 9;
    MonthTable(mp);
    MonthTable(mp + 1);
    FromMarch(Date(y, m, 1));
    if m == 2 {
      YearStartStep(y - 1);
    } else {
      FromMarch(if m < 12 then Date(y, m + 1, 1) else Date(y + 1, 1, 1));
    }
  }

  lemma DayOffset(t: Date)
    ensures DaysFromCivil(t) == DaysFromCivil(Date(t.y, t.m, 1)) + t.d - 1
  {
  }

  lemma Epoch()
    ensures DaysFromCivil(Date(1970, 1, 1)) == 0 && CivilFromDays(0) == Date(1970, 1, 1)
  {
    hide CivilFromDays;
    CivilRoundTrip(Date(1970, 1, 1));
  }

  /** Day numbers count calendar days: the next date has the next number. */
  lemma DaysCountCalendarDays(t: Date)
    requires ValidDate(t)
    ensures ValidDate(NextDay(t)) && DaysFromCivil(NextDay(t)) == DaysFromCivil(t) + 1
  {
    hide DaysFromCivil, Leap;
    MonthStep(t.y, t.m);
    DayOffset(t);
    DayOffset(NextDay(t));
  }

  /** Conversely the date of the next day number is the next date, starting from 1 January 1970. */
  lemma CivilFollowsCalendar(days: int)
    ensures CivilFromDays(0) == Date(1970, 1, 1)
    ensures CivilFromDays(days + 1) == NextDay(CivilFromDays(days))
  {
    hide *;
    Epoch();
    DaysRoundTrip(days);
    DaysCountCalendarDays(CivilFromDays(days));
    CivilRoundTrip(NextDay(CivilFromDays(days)));
  }

  // ---------- three calendar months ----------

  const DAY: int := 86400

  /** `n` months after the first of the month of `t`. */
  function MonthsLater(t: Date, n: int): (first: Date)
    requires 1 <= t.m <= 12
    ensures 1 <= first.m <= 12 && first.d == 1 && 12 * first.y + first.m == 12 * t.y + t.m + n
  {
    var months := t.y * 12 + (t.m - 1) + n;
    Date(months / 12, months % 12 + 1, 1)
  }

  /** Three months on: the day of the month is kept, or cut to how many days the new month has. */
  function ThreeMonthsLater(t: Date): Date
    requires 1 <= t.m <= 12
  {
    var first := MonthsLater(t, 3);
    first.(d := Min(t.d, DaysInMonth(first.y, first.m)))
  }

  /** `three_month_end`: refused before 1970 and when the result does not fit a signed 64-bit time. */
  function ThreeMonthEnd(start: int): (end: Outcome<int>)
    ensures end.Done? ==> 0 <= start < end.state <= I64_MAX
  {
    if start < 0 then Refused(Custom(30))
    else
      DaysRoundTrip(start / DAY);
      ThreeMonthsSpan(CivilFromDays(start / DAY));
      var end := DaysFromCivil(ThreeMonthsLater(CivilFromDays(start / DAY))) * DAY + start % DAY;
      if I64_MAX < end then Refused(Custom(10)) else Done(end)
  }

  lemma MonthsLaterStep(t: Date, n: int)
    requires 1 <= t.m <= 12
    ensures var a := MonthsLater(t, n);
      DaysFromCivil(MonthsLater(t, n + 1)) == DaysFromCivil(a) + DaysInMonth(a.y, a.m)
  {
    var a, b := MonthsLater(t, n), MonthsLater(t, n + 1);
    MonthStep(a.y, a.m);
    assert b == if a.m < 12 then Date(a.y, a.m + 1, 1) else Date(a.y + 1, 1, 1);
  }

  /** Three consecutive months and a clamped last day: 89 to 92 days. */
  lemma ThreeMonthsSpan(t: Date)
    requires ValidDate(t)
    ensures ValidDate(ThreeMonthsLater(t))
    ensures 89 <= DaysFromCivil(ThreeMonthsLater(t)) - DaysFromCivil(t) <= 92
  {
    hide DaysFromCivil, Leap;
    MonthsLaterStep(t, 0);
    MonthsLaterStep(t, 1);
    MonthsLaterStep(t, 2);
    DayOffset(t);
    DayOffset(ThreeMonthsLater(t));
    assert MonthsLater(t, 0) == Date(t.y, t.m, 1);
    assert MonthsLater(t, 1) == if t.m < 12 then Date(t.y, t.m + 1, 1) else Date(t.y + 1, 1, 1);
    assert MonthsLater(t, 2) == if t.m < 11 then Date(t.y, t.m + 2, 1) else Date(t.y + 1, t.m - 10, 1);
    assert MonthsLater(t, 3) == if t.m < 10 then Date(t.y, t.m + 3, 1) else Date(t.y + 1, t.m - 9, 1);
  }

  /** The end of vesting keeps the time of day, falls on the same day three months later or on that month's last day,
      and lies 89 to 92 days after the start. It is refused only before 1970 or when it overflows. */
  lemma ThreeMonthEndIsCalendar(start: int)
    requires 0 <= start
    ensures var t, later := CivilFromDays(start / DAY), ThreeMonthEnd(start);
      && ValidDate(t)
      && (later.Done? <==> DaysFromCivil(ThreeMonthsLater(t)) * DAY + start % DAY <= I64_MAX)
      && (later.Done? ==>
           && later.state % DAY == start % DAY
           && CivilFromDays(later.state / DAY) == ThreeMonthsLater(t)
           && start + 89 * DAY <= later.state <= start + 92 * DAY)
  {
    hide DaysFromCivil, CivilFromDays, ThreeMonthsLater;
    var t := CivilFromDays(start / DAY);
    DaysRoundTrip(start / DAY);
    ThreeMonthsSpan(t);
    CivilRoundTrip(ThreeMonthsLater(t));
    DayTime(DaysFromCivil(ThreeMonthsLater(t)), start % DAY);
  }

  lemma DayTime(days: int, time: int)
    requires 0 <= time < DAY
    ensures (days * DAY + time) % DAY == time && (days * DAY + time) / DAY == days
  {
  }

  /** The same in plain terms: vesting ends three calendar months later, on the day of the month it started or, where
      that month is too short, on its last day, at the same second of the day. */
  lemma VestingEndsSameDay(start: int)
    requires ThreeMonthEnd(start).Done?
    ensures var end := ThreeMonthEnd(start).state;
      var t, u := CivilFromDays(start / 86400), CivilFromDays(end / 86400);
      && 1 <= u.m <= 12 && 12 * u.y + u.m == 12 * t.y + t.m + 3
      && u.d == (if t.d <= DaysInMonth(u.y, u.m) then t.d else DaysInMonth(u.y, u.m))
      && end % 86400 == start % 86400
  {
    hide DaysFromCivil, CivilFromDays, DaysInMonth, ThreeMonthEnd;
    ThreeMonthEndIsCalendar(start);
  }
}
