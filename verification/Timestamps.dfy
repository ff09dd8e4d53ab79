/** The timestamps the server prints and the database compares as text. */
module Timestamps {
  import opened Common
  import opened Calendar
  import opened Text

  const DAY: int := 86400

  const WIDTHS: seq<nat> := [4, 2, 2, 2, 2, 2]
  const SEPARATORS: string := "--T::Z"

  function Fields(y: nat, m: nat, d: nat, tod: nat): seq<nat> {
    [y, m, d, tod / 3600, tod % 3600 / 60, tod % 60]
  }

  /** Rust's `{y:04}-{m:02}-{d:02}T{h:02}:{m:02}:{s:02}Z`; a sign counts towards
      the width of the year. */
  function DateText(c: Date, tod: nat): string
    requires Valid(c)
  {
    if c.y >= 0 then Render(Fields(c.y, c.m, c.d, tod), WIDTHS, SEPARATORS)
    else "-" + Render(Fields(-c.y, c.m, c.d, tod), WIDTHS[0 := 3], SEPARATORS)
  }

  /** `now_iso8601` of the webhook queue, for any second before or after 1970. */
  function Stamp(secs: int): string {
    CivilCountsBack(secs / DAY);
    DateText(CivilFromDays(secs / DAY), secs % DAY)
  }

  /** `format_unix_utc` of the receipt code. */
  function FormatUnixUtc(secs: u64): string {
    ImplementationsAgree(secs / DAY);
    CivilCountsBack(secs / DAY);
    DateText(CivilByTruncation(secs / DAY), secs % DAY)
  }

  /** The two printers agree on every instant a `u64` can hold. */
  lemma PrintersAgree(secs: u64)
    ensures FormatUnixUtc(secs) == Stamp(secs)
  {
    ImplementationsAgree(secs / DAY);
  }

  /** The instants of the years 0 to 9999, which print with four digits. */
  predicate FourDigits(secs: int) {
    -719528 * DAY <= secs < 2932897 * DAY
  }

  lemma YearsOfDays(c: Date, first: int, end: int)
    requires Valid(c) && -719528 <= DayCount(c) < 2932897 && first == 0 && end == 10000
    ensures first <= c.y < end
  {
    YearStartClosed(first);
    YearStartClosed(end);
    LaterCountsMore(c, Date(first, 1, 1));
    LaterCountsMore(c, Date(end, 1, 1));
  }

  lemma FourDigitYears(secs: int)
    requires FourDigits(secs)
    ensures Valid(CivilFromDays(secs / DAY)) && 0 <= CivilFromDays(secs / DAY).y <= 9999
  {
    CivilCountsBack(secs / DAY);
    YearsOfDays(CivilFromDays(secs / DAY), 0, 10000);
  }

  lemma StampFits(c: Date, tod: nat)
    requires Valid(c) && 0 <= c.y <= 9999 && tod < DAY
    ensures Fits(Fields(c.y, c.m, c.d, tod), WIDTHS)
  {
    assert Pow10(2) == 100 && Pow10(4) == 10000;
  }

  lemma FieldsLessUnfolds(a: seq<nat>, b: seq<nat>)
    requires |a| == |b| == 6
    ensures FieldsLess(a, b) <==>
            Before(Date(a[0], a[1], a[2]), Date(b[0], b[1], b[2])) ||
            (a[..3] == b[..3] && (a[3] < b[3] || (a[3] == b[3] && (a[4] < b[4] || (a[4] == b[4] && a[5] < b[5])))))
  {
    assert FieldsLess(a[5..], b[5..]) <==> a[5] < b[5];
    assert a[4..][1..] == a[5..] && b[4..][1..] == b[5..];
    assert a[3..][1..] == a[4..] && b[3..][1..] == b[4..];
    assert a[2..][1..] == a[3..] && b[2..][1..] == b[3..];
    assert a[1..][1..] == a[2..] && b[1..][1..] == b[2..];
    assert FieldsLess(a[3..], b[3..]) <==> a[3] < b[3] || (a[3] == b[3] && FieldsLess(a[4..], b[4..]));
    assert FieldsLess(a[1..], b[1..]) <==> a[1] < b[1] || (a[1] == b[1] && FieldsLess(a[2..], b[2..]));
    assert a[..3] == [a[0], a[1], a[2]] && b[..3] == [b[0], b[1], b[2]];
  }

  lemma SixtyDrops(q: nat, r: nat)
    ensures (60 * q + r) % 60 == r % 60
  {
    assert 60 * q + r == 60 * (q + r / 60) + r % 60;
  }

  lemma ClockFields(a: nat)
    ensures a == 3600 * (a / 3600) + 60 * (a % 3600 / 60) + a % 60
  {
    var r := a % 3600;
    assert a == 60 * (60 * (a / 3600)) + r;
    SixtyDrops(60 * (a / 3600), r);
  }

  lemma ClockOrder(h: nat, m: nat, s: nat, h': nat, m': nat, s': nat)
    requires m < 60 && s < 60 && m' < 60 && s' < 60
    ensures 3600 * h + 60 * m + s < 3600 * h' + 60 * m' + s' <==> h < h' || (h == h' && (m < m' || (m == m' && s < s')))
  {
  }

  /** Calendar fields order as the day count, then the second of the day. */
  lemma FieldsOrder(c: Date, t: nat, e: Date, u: nat)
    requires Valid(c) && c.y >= 0 && Valid(e) && e.y >= 0
    ensures FieldsLess(Fields(c.y, c.m, c.d, t), Fields(e.y, e.m, e.d, u)) <==>
            DayCount(c) < DayCount(e) || (c == e && t < u)
    ensures Fields(c.y, c.m, c.d, t) == Fields(e.y, e.m, e.d, u) <==> c == e && t == u
  {
    var f, g := Fields(c.y, c.m, c.d, t), Fields(e.y, e.m, e.d, u);
    LaterCountsMore(c, e);
    FieldsLessUnfolds(f, g);
    assert f[..3] == [c.y, c.m, c.d] && g[..3] == [e.y, e.m, e.d];
    assert f[..3] == g[..3] <==> c == e by {
      if f[..3] == g[..3] {
        assert f[..3][0] == g[..3][0] && f[..3][1] == g[..3][1] && f[..3][2] == g[..3][2];
      }
    }
    ClockFields(t);
    ClockFields(u);
    ClockOrder(f[3], f[4], f[5], g[3], g[4], g[5]);
    assert f == f[..3] + f[3..] && g == g[..3] + g[3..];
    assert f[3..] == [f[3], f[4], f[5]] && g[3..] == [g[3], g[4], g[5]];
  }

  lemma DaysThenSeconds(a: int, b: int)
    ensures a < b <==> a / DAY < b / DAY || (a / DAY == b / DAY && a % DAY < b % DAY)
  {
  }

  /** A printed text reads back: its fields, four and then two digits wide and set
      apart as they should be, are a valid date and a time of day, and together they
      are the instant. */
  lemma StampReadsBack(secs: int)
    requires FourDigits(secs)
    ensures var f := ReadFields(Stamp(secs), [4, 2, 2, 2, 2, 2]);
            && |f| == 6 && ReadSeparators(Stamp(secs), [4, 2, 2, 2, 2, 2]) == "--T::Z"
            && Valid(Date(f[0], f[1], f[2])) && 0 <= f[3] < 24 && 0 <= f[4] < 60 && 0 <= f[5] < 60
            && 86400 * DayCount(Date(f[0], f[1], f[2])) + 3600 * f[3] + 60 * f[4] + f[5] == secs
  {
    var c, tod := CivilFromDays(secs / DAY), secs % DAY;
    FourDigitYears(secs);
    CivilCountsBack(secs / DAY);
    StampFits(c, tod);
    ReadUndoesRender(Fields(c.y, c.m, c.d, tod), WIDTHS, SEPARATORS);
    ClockFields(tod);
  }

  /** So does the text of an earlier year, down to 999 before year 0: a sign, and the
      year in three digits. */
  lemma EarlierYearsReadBack(c: Date, tod: nat)
    requires Valid(c) && -999 <= c.y < 0 && tod < DAY
    ensures var s := DateText(c, tod);
            && s != "" && s[0] == '-' && ReadSeparators(s[1..], [3, 2, 2, 2, 2, 2]) == "--T::Z"
            && ReadFields(s[1..], [3, 2, 2, 2, 2, 2]) == [-c.y, c.m, c.d, tod / 3600, tod % 3600 / 60, tod % 60]
  {
    var fields := Fields(-c.y, c.m, c.d, tod);
    assert Pow10(2) == 100 && Pow10(3) == 1000;
    ReadUndoesRender(fields, WIDTHS[0 := 3], SEPARATORS);
    assert DateText(c, tod)[1..] == Render(fields, WIDTHS[0 := 3], SEPARATORS);
  }

  /** The printed texts of two instants compare as the instants do. */
  predicate OrderedAlike(a: int, b: int) {
    && (LexLess(Stamp(a), Stamp(b)) <==> a < b)
    && (Stamp(a) == Stamp(b) <==> a == b)
  }

  /** So it is in the years 0 to 9999, which is what lets the database compare
      expiries as text. */
  lemma TextOrderIsTimeOrder(a: int, b: int)
    requires FourDigits(a) && FourDigits(b)
    ensures OrderedAlike(a, b)
  {
    var c, e := CivilFromDays(a / DAY), CivilFromDays(b / DAY);
    FourDigitYears(a);
    FourDigitYears(b);
    CivilCountsBack(a / DAY);
    CivilCountsBack(b / DAY);
    StampFits(c, a % DAY);
    StampFits(e, b % DAY);
    RenderOrder(Fields(c.y, c.m, c.d, a % DAY), Fields(e.y, e.m, e.d, b % DAY), WIDTHS, SEPARATORS);
    FieldsOrder(c, a % DAY, e, b % DAY);
    DaysThenSeconds(a, b);
  }
}
