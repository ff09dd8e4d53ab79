/** The civil calendar: the server computes dates from day counts twice, in two
    different ways. Both are inverse to the Gregorian day count. */
module Calendar {

  datatype Date = Date(y: int, m: int, d: int)

  // ------------------------------------------------------ the calendar itself

  predicate Leap(y: int) {
    y % 4 == 0 && (y % 100 != 0 || y % 400 == 0)
  }

  function YearLength(y: int): int {
    if Leap(y) then 366 else 365
  }

  function MonthLength(y: int, m: int): int {
    if m == 2 then (if Leap(y) then 29 else 28)
    else if m == 4 || m == 6 || m == 9 || m == 11 then 30
    else 31
  }

  predicate Valid(c: Date) {
    1 <= c.m <= 12 && 1 <= c.d <= MonthLength(c.y, c.m)
  }

  /** Days from 1 January 1970 to 1 January of year y, counted year by year. */
  function YearStart(y: int): int
    decreases if y >= 1970 then y - 1970 else 1970 - y
  {
    if y == 1970 then 0
    else if y > 1970 then YearStart(y - 1) + YearLength(y - 1)
    else YearStart(y + 1) - YearLength(y)
  }

  /** Days from 1 January to the first of month m, counted month by month. */
  function MonthStart(y: int, m: int): int
    requires 1 <= m <= 13
  {
    if m == 1 then 0 else MonthStart(y, m - 1) + MonthLength(y, m - 1)
  }

  function DayCount(c: Date): int
    requires Valid(c)
  {
    YearStart(c.y) + MonthStart(c.y, c.m) + c.d - 1
  }

  function NextDay(c: Date): Date {
    if c.d < MonthLength(c.y, c.m) then Date(c.y, c.m, c.d + 1)
    else if c.m < 12 then Date(c.y, c.m + 1, 1)
    else Date(c.y + 1, 1, 1)
  }

  // ------------------------------------------------------ the implementations

  /** Rust's `/` on signed integers. */
  function TruncDiv(a: int, b: int): int
    requires b > 0
  {
    if a >= 0 then a / b else -((-a) / b)
  }

  function YearOfEra(doe: int): int {
    (doe - doe / 1460 + doe / 36524 - doe / 146096) / 365
  }

  function DayOfYear(doe: int, yoe: int): int {
    doe - (365 * yoe + yoe / 4 - yoe / 100)
  }

  /** Day `doy` of the year that begins on 1 March of year y. */
  function InMarchYear(y: int, doy: int): Date {
    var mp := (5 * doy + 2) / 153;
    var d := doy - (153 * mp + 2) / 5 + 1;
    var m := if mp < 10 then mp + 3 else mp - 9;
    Date(if m <= 2 then y + 1 else y, m, d)
  }

  function DateInEra(era: int, doe: int): Date {
    InMarchYear(YearOfEra(doe) + era * 400, DayOfYear(doe, YearOfEra(doe)))
  }

  /** `civil_from_days`, with Euclidean division. */
  function CivilFromDays(days: int): Date {
    DateInEra((days + 719468) / 146097, (days + 719468) % 146097)
  }

  function YearByTruncation(doe: int): int {
    TruncDiv(doe - TruncDiv(doe, 1460) + TruncDiv(doe, 36524) - TruncDiv(doe, 146096), 365)
  }

  function DayByTruncation(doe: int, yoe: int): int {
    doe - (365 * yoe + TruncDiv(yoe, 4) - TruncDiv(yoe, 100))
  }

  function MonthByTruncation(y: int, doy: int): Date {
    var mp := TruncDiv(5 * doy + 2, 153);
    var d := doy - TruncDiv(153 * mp + 2, 5) + 1;
    var m := if mp < 10 then mp + 3 else mp - 9;
    Date(if m <= 2 then y + 1 else y, m, d)
  }

  function EraDateByTruncation(era: int, doe: int): Date {
    MonthByTruncation(YearByTruncation(doe) + era * 400, DayByTruncation(doe, YearByTruncation(doe)))
  }

  /** The date part of `format_unix_utc`, where every division truncates. */
  function CivilByTruncation(days: int): Date {
    var z := days + 719468;
    var era := TruncDiv(if z >= 0 then z else z - 146096, 146097);
    EraDateByTruncation(era, z - era * 146097)
  }

  // ------------------------------------------------------- years within an era

  /** A day of a 400-year era, split by century, four-year cycle, year and day;
      years begin in March, so a leap day ends its year. */
  predicate Splits(doe: int, c: int, b: int, a: int, r: int) {
    && 0 <= c <= 3 && 0 <= b <= 24 && 0 <= a <= 3 && 0 <= r <= 365
    && doe == 36524 * c + 1461 * b + 365 * a + r
    && (r == 365 ==> a == 3 && (b < 24 || c == 3))
  }

  lemma SplitEra(doe: int) returns (c: int, b: int, a: int, r: int)
    requires 0 <= doe < 146097
    ensures Splits(doe, c, b, a, r)
  {
    c := if doe / 36524 < 3 then doe / 36524 else 3;
    var inCentury := doe - 36524 * c;
    assert 0 <= inCentury <= 36524 && (inCentury == 36524 ==> c == 3);
    b := inCentury / 1461;
    assert b <= 24;
    var inCycle := inCentury - 1461 * b;
    assert b == 24 && c < 3 ==> inCycle < 1460;
    a := if inCycle / 365 < 3 then inCycle / 365 else 3;
    r := inCycle - 365 * a;
  }

  /** The correction terms pick exactly the right year. */
  lemma {:induction false} YearOfEraIsRight(doe: int, c: int, b: int, a: int, r: int)
    requires Splits(doe, c, b, a, r)
    ensures YearOfEra(doe) == 100 * c + 4 * b + a
    ensures DayOfYear(doe, YearOfEra(doe)) == r
  {
    assert (100 * c + 4 * b + a) / 4 == 25 * c + b && (100 * c + 4 * b + a) / 100 == c;
    var over := 24 * c + b + 365 * a + r;
    assert doe == 1460 * (25 * c + b) + over && 0 <= over < 2920;
    var carry := if over >= 1460 then 1 else 0;
    assert doe / 1460 == 25 * c + b + carry;
    if doe == 146096 {
      assert c == 3 && b == 24 && a == 3 && r == 365;
    } else {
      assert doe / 146096 == 0;
      assert doe / 36524 == c;
      assert doe - doe / 1460 + doe / 36524 == 365 * (100 * c + 4 * b + a) + (r - carry);
      assert 0 <= r - carry <= 364;
    }
  }

  // ------------------------------------------------------------- counting years

  lemma Floors(y: int, n: int)
    requires n == 4 || n == 100 || n == 400
    ensures y / n == (y - 1) / n + if y % n == 0 then 1 else 0
  {
  }

  lemma LeapsCount(y: int)
    ensures y / 4 - y / 100 + y / 400 == (y - 1) / 4 - (y - 1) / 100 + (y - 1) / 400 + if Leap(y) then 1 else 0
  {
    Floors(y, 4);
    Floors(y, 100);
    Floors(y, 400);
  }

  /** The year starts in closed form. */
  lemma {:induction false} YearStartClosed(y: int)
    ensures YearStart(y) == 365 * (y - 1970) + (y - 1) / 4 - (y - 1) / 100 + (y - 1) / 400 - 477
    decreases if y >= 1970 then y - 1970 else 1970 - y
  {
    if y > 1970 {
      YearStartClosed(y - 1);
      LeapsCount(y - 1);
    } else if y < 1970 {
      YearStartClosed(y + 1);
      LeapsCount(y);
    }
  }

  /** Days from 1 January 1970 to 1 March of year y. */
  function MarchStart(y: int): int {
    YearStart(y) + 59 + if Leap(y) then 1 else 0
  }

  lemma MarchStartInEra(era: int, c: int, b: int, a: int)
    requires 0 <= c <= 3 && 0 <= b <= 24 && 0 <= a <= 3
    ensures var yoe := 100 * c + 4 * b + a;
            MarchStart(400 * era + yoe) == 146097 * era + 36524 * c + 1461 * b + 365 * a - 719468
  {
    var y := 400 * era + 100 * c + 4 * b + a;
    YearStartClosed(y);
    LeapsCount(y);
    assert y / 4 == 100 * era + 25 * c + b;
    assert y / 100 == 4 * era + c;
    assert y / 400 == era;
  }

  lemma LeapInEra(era: int, c: int, b: int, a: int)
    requires 0 <= c <= 3 && 0 <= b <= 24 && 0 <= a <= 3
    ensures Leap(400 * era + 100 * c + 4 * b + a + 1) <==> a == 3 && (b < 24 || c == 3)
  {
    var y := 400 * era + 100 * c + 4 * b + a + 1;
    assert y == 4 * (100 * era + 25 * c + b) + (a + 1);
    assert y == 100 * (4 * era + c) + (4 * b + a + 1);
    assert y == 400 * era + (100 * c + 4 * b + a + 1);
  }

  lemma MonthStarts(y: int)
    ensures MonthStart(y, 1) == 0 && MonthStart(y, 2) == 31
    ensures var l := if Leap(y) then 1 else 0;
            && MonthStart(y, 3) == 59 + l && MonthStart(y, 4) == 90 + l && MonthStart(y, 5) == 120 + l
            && MonthStart(y, 6) == 151 + l && MonthStart(y, 7) == 181 + l && MonthStart(y, 8) == 212 + l
            && MonthStart(y, 9) == 243 + l && MonthStart(y, 10) == 273 + l && MonthStart(y, 11) == 304 + l
            && MonthStart(y, 12) == 334 + l && MonthStart(y, 13) == 365 + l
  {
    var l := if Leap(y) then 1 else 0;
    assert MonthStart(y, 2) == 31;
    assert MonthStart(y, 3) == 59 + l;
    assert MonthStart(y, 5) == 120 + l;
    assert MonthStart(y, 7) == 181 + l;
    assert MonthStart(y, 9) == 243 + l;
    assert MonthStart(y, 11) == 304 + l;
  }

  /** The month arithmetic is right on every day of such a year. */
  lemma MarchYearIsRight(y: int, doy: int)
    requires 0 <= doy <= 364 || (doy == 365 && Leap(y + 1))
    ensures Valid(InMarchYear(y, doy)) && DayCount(InMarchYear(y, doy)) == MarchStart(y) + doy
  {
    MonthStarts(y);
    MonthStarts(y + 1);
    YearStartClosed(y);
    YearStartClosed(y + 1);
    LeapsCount(y);
    var mp := (5 * doy + 2) / 153;
    if mp <= 5 {
      assert mp == 0 || mp == 1 || mp == 2 || mp == 3 || mp == 4 || mp == 5;
    } else {
      assert mp == 6 || mp == 7 || mp == 8 || mp == 9 || mp == 10 || mp == 11;
    }
  }

  // ------------------------------------------------------------- main results

  lemma DateInEraIs(era: int, doe: int, c: int, b: int, a: int, r: int)
    requires Splits(doe, c, b, a, r)
    ensures DateInEra(era, doe) == InMarchYear(400 * era + 100 * c + 4 * b + a, r)
  {
    YearOfEraIsRight(doe, c, b, a, r);
  }

  /** Within its era, the computed date is valid and its day count is right. */
  lemma EraDateCountsBack(era: int, doe: int, c: int, b: int, a: int, r: int)
    requires Splits(doe, c, b, a, r)
    ensures Valid(DateInEra(era, doe)) && DayCount(DateInEra(era, doe)) == 146097 * era + doe - 719468
  {
    var y := 400 * era + 100 * c + 4 * b + a;
    DateInEraIs(era, doe, c, b, a, r);
    LeapInEra(era, c, b, a);
    MarchStartInEra(era, c, b, a);
    MarchYearIsRight(y, r);
  }

  /** For every integer the computed date is valid and its day count is that
      integer. */
  lemma CivilCountsBack(days: int)
    ensures Valid(CivilFromDays(days)) && DayCount(CivilFromDays(days)) == days
  {
    var era, doe := (days + 719468) / 146097, (days + 719468) % 146097;
    var c, b, a, r := SplitEra(doe);
    EraDateCountsBack(era, doe, c, b, a, r);
  }

  predicate Before(a: Date, b: Date) {
    a.y < b.y || (a.y == b.y && (a.m < b.m || (a.m == b.m && a.d < b.d)))
  }

  lemma {:induction false} YearsAdvance(a: int, b: int)
    requires a < b
    ensures YearStart(a) + YearLength(a) <= YearStart(b)
  {
    YearStartClosed(a);
    YearStartClosed(a + 1);
    LeapsCount(a);
    YearStartClosed(b);
  }

  lemma {:induction false} MonthsAdvance(y: int, a: int, b: int)
    requires 1 <= a < b <= 13
    ensures MonthStart(y, a) + MonthLength(y, a) <= MonthStart(y, b)
  {
    if a + 1 < b { MonthsAdvance(y, a, b - 1); }
  }

  lemma EarlierCountsLess(a: Date, b: Date)
    requires Valid(a) && Valid(b) && Before(a, b)
    ensures DayCount(a) < DayCount(b)
  {
    MonthStarts(a.y);
    if a.y < b.y {
      YearsAdvance(a.y, b.y);
      if a.m < 12 { MonthsAdvance(a.y, a.m, 13); }
      if b.m > 1 { MonthsAdvance(b.y, 1, b.m); }
    } else if a.m < b.m {
      MonthsAdvance(a.y, a.m, b.m);
    }
  }

  /** The day count orders dates as the calendar does. */
  lemma LaterCountsMore(a: Date, b: Date)
    requires Valid(a) && Valid(b)
    ensures Before(a, b) <==> DayCount(a) < DayCount(b)
  {
    if Before(a, b) {
      EarlierCountsLess(a, b);
    } else if a != b {
      EarlierCountsLess(b, a);
    }
  }

  /** And back: the date computed from a valid date's day count is that date. */
  lemma CountsBackToCivil(c: Date)
    requires Valid(c)
    ensures CivilFromDays(DayCount(c)) == c
  {
    var back := CivilFromDays(DayCount(c));
    CivilCountsBack(DayCount(c));
    LaterCountsMore(back, c);
    LaterCountsMore(c, back);
  }

  lemma NextDayCountsOne(c: Date)
    requires Valid(c)
    ensures Valid(NextDay(c)) && DayCount(NextDay(c)) == DayCount(c) + 1
  {
    if c.m == 12 && c.d == 31 {
      MonthStarts(c.y);
      YearStartClosed(c.y);
      YearStartClosed(c.y + 1);
      LeapsCount(c.y);
    }
  }

  /** Successive integers are successive days of the calendar. */
  lemma NextIsNextDay(days: int)
    ensures CivilFromDays(days + 1) == NextDay(CivilFromDays(days))
  {
    CivilCountsBack(days);
    NextDayCountsOne(CivilFromDays(days));
    CountsBackToCivil(NextDay(CivilFromDays(days)));
  }

  lemma TruncatedEraIsFloored(z: int)
    ensures TruncDiv(if z >= 0 then z else z - 146096, 146097) == z / 146097
  {
    if z < 0 {
      assert -(z - 146096) == 146097 * -(z / 146097) + (146096 - z % 146097);
    }
  }

  lemma TruncatedDate(era: int, doe: int)
    requires 0 <= doe < 146097
    ensures EraDateByTruncation(era, doe) == DateInEra(era, doe)
  {
    var c, b, a, r := SplitEra(doe);
    YearOfEraIsRight(doe, c, b, a, r);
  }

  /** The two implementations agree on every integer. */
  lemma ImplementationsAgree(days: int)
    ensures CivilByTruncation(days) == CivilFromDays(days)
  {
    TruncatedEraIsFloored(days + 719468);
    TruncatedDate((days + 719468) / 146097, (days + 719468) % 146097);
  }
}
