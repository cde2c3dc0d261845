/**
 MusicBrainz release dates: strings YYYY, YYYY-MM or YYYY-MM-DD, sorted as
 strings and parsed by parseMBDate (mbrels.go and samelabel.go).
 */
module ReleaseDates {
  import opened Basics
  import opened Sorting

  // ── the calendar ──

  datatype Date = Date(year: nat, month: nat, day: nat)

  predicate Leap(y: nat) {
    y % 4 == 0 && (y % 100 != 0 || y % 400 == 0)
  }

  function DaysIn(y: nat, m: nat): nat {
    if m == 2 then (if Leap(y) then 29 else 28)
    else if m == 4 || m == 6 || m == 9 || m == 11 then 30
    else 31
  }

  predicate Exists(d: Date) {
    1 <= d.month <= 12 && 1 <= d.day <= DaysIn(d.year, d.month)
  }

  function DaysBeforeMonth(y: nat, m: nat): nat {
    if m <= 1 then 0 else DaysBeforeMonth(y, m - 1) + DaysIn(y, m - 1)
  }

  function DaysInYear(y: nat): nat {
    DaysBeforeMonth(y, 13)
  }

  function DaysBeforeYear(y: nat): nat {
    if y == 0 then 0 else DaysBeforeYear(y - 1) + DaysInYear(y - 1)
  }

  /** Days since the first of January of year 0. */
  function DayNumber(d: Date): int {
    DaysBeforeYear(d.year) + DaysBeforeMonth(d.year, d.month) + d.day - 1
  }

  predicate Earlier(a: Date, b: Date) {
    a.year < b.year || (a.year == b.year && (a.month < b.month || (a.month == b.month && a.day < b.day)))
  }

  lemma {:induction false} MonthsGrow(y: nat, m: nat, n: nat)
    requires 1 <= m < n
    ensures DaysBeforeMonth(y, m) + DaysIn(y, m) <= DaysBeforeMonth(y, n)
  {
    if m < n - 1 {
      MonthsGrow(y, m, n - 1);
    }
  }

  lemma {:induction false} YearsGrow(y: nat, z: nat)
    requires y < z
    ensures DaysBeforeYear(y) + DaysInYear(y) <= DaysBeforeYear(z)
  {
    if y < z - 1 {
      YearsGrow(y, z - 1);
    }
  }

  /** Day numbers follow the calendar. */
  lemma DayNumberOrders(a: Date, b: Date)
    requires Exists(a) && Exists(b)
    ensures Earlier(a, b) <==> DayNumber(a) < DayNumber(b)
    ensures a == b <==> DayNumber(a) == DayNumber(b)
  {
    if Earlier(a, b) {
      EarlierIsLess(a, b);
    } else if Earlier(b, a) {
      EarlierIsLess(b, a);
    }
  }

  lemma EarlierIsLess(a: Date, b: Date)
    requires Exists(a) && Exists(b) && Earlier(a, b)
    ensures DayNumber(a) < DayNumber(b)
  {
    if a.year < b.year {
      MonthsGrow(a.year, a.month, 13);
      YearsGrow(a.year, b.year);
    } else if a.month < b.month {
      MonthsGrow(a.year, a.month, b.month);
    }
  }

  /** The calendar: a February of 29 days, and a year of 366, every fourth year but three
      centuries of four. */
  lemma YearLength(y: nat)
    ensures DaysBeforeYear(y + 1) - DaysBeforeYear(y)
         == if y % 4 == 0 && (y % 100 != 0 || y % 400 == 0) then 366 else 365
    ensures Exists(Date(y, 2, 29)) <==> y % 4 == 0 && (y % 100 != 0 || y % 400 == 0)
  {
    MonthSum(y, 13);
  }

  lemma MonthSum(y: nat, m: nat)
    requires m == 13
    ensures DaysInYear(y) == 337 + DaysIn(y, 2)
  {
    var n := m - 1;
    assert DaysBeforeMonth(y, m) == DaysBeforeMonth(y, n) + 31;
    assert DaysBeforeMonth(y, n) == DaysBeforeMonth(y, n - 1) + 30;
    assert DaysBeforeMonth(y, n - 1) == DaysBeforeMonth(y, n - 2) + 31;
    assert DaysBeforeMonth(y, n - 2) == DaysBeforeMonth(y, n - 3) + 30;
    assert DaysBeforeMonth(y, n - 3) == DaysBeforeMonth(y, n - 4) + 31;
    assert DaysBeforeMonth(y, n - 4) == DaysBeforeMonth(y, n - 5) + 31;
    assert DaysBeforeMonth(y, n - 5) == DaysBeforeMonth(y, n - 6) + 30;
    assert DaysBeforeMonth(y, n - 6) == DaysBeforeMonth(y, n - 7) + 31;
    assert DaysBeforeMonth(y, n - 7) == DaysBeforeMonth(y, n - 8) + 30;
    assert DaysBeforeMonth(y, n - 8) == DaysBeforeMonth(y, n - 9) + 31;
    assert DaysBeforeMonth(y, n - 9) == DaysBeforeMonth(y, n - 10) + DaysIn(y, 2);
    assert DaysBeforeMonth(y, n - 10) == DaysBeforeMonth(y, n - 11) + 31;
  }

  // ── parseMBDate ──

  predicate IsDigit(c: char) {
    '0' <= c <= '9'
  }

  function Digit(c: char): nat
    requires IsDigit(c)
  {
    c as nat - '0' as nat
  }

  predicate YearShape(s: string) {
    |s| >= 4 && IsDigit(s[0]) && IsDigit(s[1]) && IsDigit(s[2]) && IsDigit(s[3])
  }

  predicate MonthShape(s: string) {
    |s| >= 7 && YearShape(s) && s[4] == '-' && IsDigit(s[5]) && IsDigit(s[6])
  }

  predicate DayShape(s: string) {
    |s| >= 10 && MonthShape(s) && s[7] == '-' && IsDigit(s[8]) && IsDigit(s[9])
  }

  function YearOf(s: string): nat
    requires YearShape(s)
  {
    1000 * Digit(s[0]) + 100 * Digit(s[1]) + 10 * Digit(s[2]) + Digit(s[3])
  }

  function MonthOf(s: string): nat
    requires MonthShape(s)
  {
    10 * Digit(s[5]) + Digit(s[6])
  }

  function DayOf(s: string): nat
    requires DayShape(s)
  {
    10 * Digit(s[8]) + Digit(s[9])
  }

  /** time.Parse with the layouts 2006-01-02, 2006-01 and 2006, in that order. */
  function ParseDate(s: string): (r: Option<Date>)
    ensures r.Some? ==> Exists(r.value)
  {
    if |s| == 10 && DayShape(s) && Exists(Date(YearOf(s), MonthOf(s), DayOf(s)))
    then Some(Date(YearOf(s), MonthOf(s), DayOf(s)))
    else if |s| == 7 && MonthShape(s) && 1 <= MonthOf(s) <= 12 then Some(Date(YearOf(s), MonthOf(s), 1))
    else if |s| == 4 && YearShape(s) then Some(Date(YearOf(s), 1, 1))
    else None
  }

  function DigitChar(n: nat): char
    requires n < 10
  {
    '0' + n as char
  }

  function TwoDigits(n: nat): string
    requires n < 100
  {
    [DigitChar(n / 10), DigitChar(n % 10)]
  }

  function FourDigits(n: nat): string
    requires n < 10000
  {
    TwoDigits(n / 100) + TwoDigits(n % 100)
  }

  /** The spellings of a date: in full, and without a day or month that is the first. */
  function Spellings(d: Date): set<string>
    requires Exists(d) && d.year < 10000
  {
    var y, m := FourDigits(d.year), FourDigits(d.year) + "-" + TwoDigits(d.month);
    {m + "-" + TwoDigits(d.day)} + (if d.day == 1 then {m} else {}) + (if d.day == 1 && d.month == 1 then {y} else {})
  }

  lemma DigitsBack(c: char)
    requires IsDigit(c)
    ensures DigitChar(Digit(c)) == c
  {
  }

  lemma SpelledParses(s: string, d: Date)
    requires Exists(d) && d.year < 10000 && s in Spellings(d)
    ensures ParseDate(s) == Some(d)
  {
    var y := FourDigits(d.year);
    assert YearShape(y) && YearOf(y) == d.year;
    assert s[..4] == y;
    assert YearShape(s) && YearOf(s) == d.year;
    if |s| >= 7 {
      assert s[5] == TwoDigits(d.month)[0] && s[6] == TwoDigits(d.month)[1];
      assert MonthShape(s) && MonthOf(s) == d.month;
    }
    if |s| == 10 {
      assert s[8] == TwoDigits(d.day)[0] && s[9] == TwoDigits(d.day)[1];
      assert DayShape(s) && DayOf(s) == d.day;
    }
  }

  lemma YearSpelled(s: string)
    requires YearShape(s)
    ensures YearOf(s) < 10000 && FourDigits(YearOf(s)) == s[..4]
  {
    DigitsBack(s[0]);
    DigitsBack(s[1]);
    DigitsBack(s[2]);
    DigitsBack(s[3]);
    var y := YearOf(s);
    assert y / 100 == 10 * Digit(s[0]) + Digit(s[1]) && y % 100 == 10 * Digit(s[2]) + Digit(s[3]);
  }

  lemma TwoSpelled(a: char, b: char)
    requires IsDigit(a) && IsDigit(b)
    ensures TwoDigits(10 * Digit(a) + Digit(b)) == [a, b]
  {
    DigitsBack(a);
    DigitsBack(b);
  }

  lemma ParsedIsSpelled(s: string)
    requires ParseDate(s).Some?
    ensures ParseDate(s).value.year < 10000 && s in Spellings(ParseDate(s).value)
  {
    var d := ParseDate(s).value;
    YearSpelled(s);
    if |s| >= 7 {
      TwoSpelled(s[5], s[6]);
      assert s[..7] == s[..4] + "-" + [s[5], s[6]];
    }
    if |s| == 10 {
      TwoSpelled(s[8], s[9]);
      assert s == s[..7] + "-" + [s[8], s[9]];
    } else if |s| == 7 {
      assert s == s[..7];
    } else {
      assert s == s[..4];
    }
  }

  /** Exactly the spellings of an existing date parse, and they parse to it. */
  lemma ParsesIffSpelled(s: string, d: Date)
    ensures ParseDate(s) == Some(d) <==> Exists(d) && d.year < 10000 && s in Spellings(d)
  {
    if ParseDate(s) == Some(d) {
      ParsedIsSpelled(s);
    } else if Exists(d) && d.year < 10000 && s in Spellings(d) {
      SpelledParses(s, d);
    }
  }

  /** String order refines date order: of two parseable dates, the smaller string is not the later date. */
  lemma StringOrderRefinesDates(a: string, b: string)
    requires ParseDate(a).Some? && ParseDate(b).Some? && LexLe(a, b)
    ensures DayNumber(ParseDate(a).value) <= DayNumber(ParseDate(b).value)
  {
    LexLeByFirstDiff(a, b);
    var i := FirstDiff(a, b);
    var d, e := ParseDate(a).value, ParseDate(b).value;
    if i < |a| {
      assert i != 4 && i != 7;
      if i < 4 {
        assert d.year < e.year;
      } else if i < 7 {
        assert d.year == e.year && d.month < e.month;
      } else {
        assert d.year == e.year && d.month == e.month && d.day < e.day;
      }
    } else {
      assert d.year == e.year && d.month <= e.month;
    }
    DayNumberOrders(d, e);
  }

  // ── release groups ──

  /** Instants count seconds since the first of January of year 0. */
  const DAY: Time := 24 * 60 * 60

  datatype Release = Release(mbid: string, title: string, firstReleaseDate: string)

  function DayOfRelease(r: Release): Option<int> {
    var d := ParseDate(r.firstReleaseDate);
    if d.Some? then Some(DayNumber(d.value)) else None
  }

  /** Parseable and not before the cutoff. */
  predicate InWindow(r: Release, cutoff: Time) {
    var d := DayOfRelease(r);
    d.Some? && d.value * DAY >= cutoff
  }

  function DaysOld(r: Release, started: Time): real
    requires DayOfRelease(r).Some?
  {
    (started - DayOfRelease(r).value * DAY) as real / DAY as real
  }
}
