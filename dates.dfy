/** Python's proleptic Gregorian `date` (years 1 to 9999), its day arithmetic, and the
    two ways the core reads dates from text: `date.fromisoformat` and
    `datetime.strptime(s, "%Y-%m-%d")`. */
module Dates {
  import opened Wrappers
  import opened Strings

  datatype Date = Date(year: int, month: int, day: int)

  predicate IsLeap(y: int) {
    y % 4 == 0 && (y % 100 != 0 || y % 400 == 0)
  }

  function DaysInMonth(y: int, m: int): (r: int)
    requires 1 <= m <= 12
    ensures 28 <= r <= 31
    ensures r == 29 <==> m == 2 && IsLeap(y)
  {
    if m == 2 then (if IsLeap(y) then 29 else 28)
    else if m == 4 || m == 6 || m == 9 || m == 11 then 30
    else 31
  }

  /** The dates `date(y, m, d)` accepts. */
  predicate Valid(d: Date) {
    1 <= d.year <= 9999 && 1 <= d.month <= 12 && 1 <= d.day <= DaysInMonth(d.year, d.month)
  }

  /** `date(y, m, d)`: None is the ValueError for a day that does not exist. */
  function MakeDate(y: int, m: int, d: int): (r: Option<Date>)
    ensures r.Some? <==> Valid(Date(y, m, d))
    ensures r.Some? ==> r.value == Date(y, m, d)
  {
    if 1 <= m <= 12 && 1 <= y <= 9999 && 1 <= d <= DaysInMonth(y, m) then Some(Date(y, m, d)) else None
  }

  /** Date comparison `a <= b`: by year, then month, then day. */
  predicate Le(a: Date, b: Date) {
    a.year < b.year || (a.year == b.year && (a.month < b.month || (a.month == b.month && a.day <= b.day)))
  }

  predicate Lt(a: Date, b: Date) {
    Le(a, b) && a != b
  }

  // ---------------------------------------------------------------- day numbers

  function YearLength(y: int): int {
    if IsLeap(y) then 366 else 365
  }

  /** Days of the years before `y`. */
  function DaysBeforeYear(y: int): nat
    requires y >= 1
  {
    if y == 1 then 0 else DaysBeforeYear(y - 1) + YearLength(y - 1)
  }

  /** Days of the months of `y` before `m`. */
  function DaysBeforeMonth(y: int, m: int): nat
    requires 1 <= m <= 13
  {
    if m == 1 then 0 else DaysBeforeMonth(y, m - 1) + DaysInMonth(y, m - 1)
  }

  /** `d.toordinal()`: 1 for 0001-01-01, one more for every day after it. */
  function Ordinal(d: Date): int
    requires Valid(d)
  {
    DaysBeforeYear(d.year) + DaysBeforeMonth(d.year, d.month) + d.day
  }

  lemma YearOfMonths(y: int)
    ensures DaysBeforeMonth(y, 13) == YearLength(y)
  {
    var f := DaysInMonth(y, 2);
    assert DaysBeforeMonth(y, 2) == 31;
    assert DaysBeforeMonth(y, 3) == 31 + f;
    assert DaysBeforeMonth(y, 4) == 62 + f;
    assert DaysBeforeMonth(y, 5) == 92 + f;
    assert DaysBeforeMonth(y, 6) == 123 + f;
    assert DaysBeforeMonth(y, 7) == 153 + f;
    assert DaysBeforeMonth(y, 8) == 184 + f;
    assert DaysBeforeMonth(y, 9) == 215 + f;
    assert DaysBeforeMonth(y, 10) == 245 + f;
    assert DaysBeforeMonth(y, 11) == 276 + f;
    assert DaysBeforeMonth(y, 12) == 306 + f;
  }

  /** The first day after `d`; None is the OverflowError after 9999-12-31. */
  function NextDay(d: Date): (r: Option<Date>)
    requires Valid(d)
    ensures r.None? <==> d == Date(9999, 12, 31)
    ensures r.Some? ==> Valid(r.value) && Lt(d, r.value) && Ordinal(r.value) == Ordinal(d) + 1
  {
    if d.day < DaysInMonth(d.year, d.month) then
      NextInMonth(d);
      Some(Date(d.year, d.month, d.day + 1))
    else if d.month < 12 then
      NextMonth(d);
      Some(Date(d.year, d.month + 1, 1))
    else if d.year < 9999 then
      NextYear(d.year);
      Some(Date(d.year + 1, 1, 1))
    else None
  }

  lemma NextInMonth(d: Date)
    requires Valid(d) && d.day < DaysInMonth(d.year, d.month)
    ensures var e := Date(d.year, d.month, d.day + 1); Valid(e) && Lt(d, e) && Ordinal(e) == Ordinal(d) + 1
  {
  }

  lemma NextMonth(d: Date)
    requires Valid(d) && d.day == DaysInMonth(d.year, d.month) && d.month < 12
    ensures var e := Date(d.year, d.month + 1, 1); Valid(e) && Lt(d, e) && Ordinal(e) == Ordinal(d) + 1
  {
  }

  /** The last day of year `y` is followed by the first of `y + 1`. */
  lemma NextYear(y: int)
    requires 1 <= y < 9999
    ensures var d, e := Date(y, 12, 31), Date(y + 1, 1, 1);
      Valid(d) && Valid(e) && Lt(d, e) && Ordinal(e) == Ordinal(d) + 1
  {
    YearOfMonths(y);
  }

  /** The day before `d`; None is the OverflowError before 0001-01-01. */
  function PrevDay(d: Date): (r: Option<Date>)
    requires Valid(d)
    ensures r.None? <==> d == Date(1, 1, 1)
    ensures r.Some? ==> Valid(r.value) && Lt(r.value, d) && Ordinal(r.value) == Ordinal(d) - 1
  {
    if d.day > 1 then
      NextInMonth(Date(d.year, d.month, d.day - 1));
      Some(Date(d.year, d.month, d.day - 1))
    else if d.month > 1 then
      NextMonth(Date(d.year, d.month - 1, DaysInMonth(d.year, d.month - 1)));
      Some(Date(d.year, d.month - 1, DaysInMonth(d.year, d.month - 1)))
    else if d.year > 1 then
      NextYear(d.year - 1);
      Some(Date(d.year - 1, 12, 31))
    else None
  }

  /** `d - timedelta(days=n)`; None is the OverflowError before 0001-01-01. */
  function MinusDays(d: Date, n: nat): (r: Option<Date>)
    requires Valid(d)
    ensures r.Some? ==> Valid(r.value) && Ordinal(r.value) == Ordinal(d) - n
    ensures r.Some? && n > 0 ==> Lt(r.value, d)
    ensures r.None? ==> n > 0
  {
    if n == 0 then Some(d)
    else match MinusDays(d, n - 1)
      case None => None
      case Some(e) => PrevDay(e)
  }

  /** Stepping a day back and a day forward returns to the start, and conversely. */
  lemma PrevNext(d: Date)
    requires Valid(d)
    ensures PrevDay(d).Some? ==> NextDay(PrevDay(d).value) == Some(d)
    ensures NextDay(d).Some? ==> PrevDay(NextDay(d).value) == Some(d)
  {
    if PrevDay(d).Some? {
      var e := PrevDay(d).value;
      assert e != Date(9999, 12, 31);
      OrdinalInjective(NextDay(e).value, d);
    }
    if NextDay(d).Some? {
      var e := NextDay(d).value;
      assert e != Date(1, 1, 1);
      OrdinalInjective(PrevDay(e).value, d);
    }
  }

  /** Two valid dates with one day number are one date. */
  lemma {:induction false} OrdinalInjective(a: Date, b: Date)
    requires Valid(a) && Valid(b) && Ordinal(a) == Ordinal(b)
    ensures a == b
  {
    if a != b {
      if Le(a, b) {
        OrdinalMonotone(a, b);
      } else {
        OrdinalMonotone(b, a);
      }
    }
  }

  /** Earlier dates have smaller day numbers. */
  lemma OrdinalMonotone(a: Date, b: Date)
    requires Valid(a) && Valid(b) && Lt(a, b)
    ensures Ordinal(a) < Ordinal(b)
  {
    if a.year < b.year {
      MonthsBound(a.year, a.month);
      YearsGrow(a.year + 1, b.year);
    } else if a.month < b.month {
      MonthsGrow(a.year, a.month + 1, b.month);
    }
  }

  lemma MonthsBound(y: int, m: int)
    requires 1 <= m <= 12
    ensures DaysBeforeMonth(y, m) + DaysInMonth(y, m) <= YearLength(y)
  {
    MonthsGrow(y, m + 1, 13);
    YearOfMonths(y);
  }

  lemma {:induction false} MonthsGrow(y: int, m: int, n: int)
    requires 1 <= m <= n <= 13
    ensures DaysBeforeMonth(y, m) <= DaysBeforeMonth(y, n)
    decreases n - m
  {
    if m < n {
      MonthsGrow(y, m, n - 1);
    }
  }

  lemma {:induction false} YearsGrow(y: int, z: int)
    requires 1 <= y <= z
    ensures DaysBeforeYear(y) <= DaysBeforeYear(z)
    decreases z - y
  {
    if y < z {
      YearsGrow(y, z - 1);
    }
  }

  // ---------------------------------------------------------------- text

  /** Decimal digits of `n`, left-padded with zeros to `w` places. */
  function Digits(n: nat, w: nat): (r: string)
    ensures |r| == w && AllDigits(r)
  {
    if w == 0 then "" else Digits(n / 10, w - 1) + [DigitChar(n % 10)]
  }

  function Pow10(w: nat): nat {
    if w == 0 then 1 else 10 * Pow10(w - 1)
  }

  lemma {:induction false} DigitsValueOfDigits(n: nat, w: nat)
    requires n < Pow10(w)
    ensures DigitsValue(Digits(n, w)) == n
  {
    if w > 0 {
      var s := Digits(n, w);
      assert s[..|s| - 1] == Digits(n / 10, w - 1);
      DigitsValueOfDigits(n / 10, w - 1);
    }
  }

  /** `d.isoformat()`: "YYYY-MM-DD". */
  function IsoFormat(d: Date): (r: string)
    requires Valid(d)
    ensures |r| == 10
  {
    Digits(d.year, 4) + "-" + Digits(d.month, 2) + "-" + Digits(d.day, 2)
  }

  /** `date.fromisoformat(s)` for calendar dates: "YYYY-MM-DD" or "YYYYMMDD" in ASCII
      digits, naming a day that exists. None is the ValueError. */
  function FromIsoFormat(s: string): (r: Option<Date>)
    ensures r.Some? ==> Valid(r.value)
    ensures r.Some? ==> |s| == 10 || |s| == 8
  {
    if |s| == 10 && s[4] == '-' && s[7] == '-' && AllDigits(s[..4]) && AllDigits(s[5..7]) && AllDigits(s[8..]) then
      MakeDate(DigitsValue(s[..4]), DigitsValue(s[5..7]), DigitsValue(s[8..]))
    else if |s| == 8 && AllDigits(s) then
      MakeDate(DigitsValue(s[..4]), DigitsValue(s[4..6]), DigitsValue(s[6..]))
    else None
  }

  /** `date.fromisoformat(d.isoformat()) == d` */
  lemma IsoRoundTrip(d: Date)
    requires Valid(d)
    ensures FromIsoFormat(IsoFormat(d)) == Some(d)
  {
    var s := IsoFormat(d);
    assert s[..4] == Digits(d.year, 4);
    assert s[5..7] == Digits(d.month, 2);
    assert s[8..] == Digits(d.day, 2);
    DigitsValueOfDigits(d.year, 4);
    DigitsValueOfDigits(d.month, 2);
    DigitsValueOfDigits(d.day, 2);
  }

  /** The month field `%m` reads: "1" to "9", or two digits from "01" to "12". */
  predicate MonthText(t: string) {
    (|t| == 1 && '1' <= t[0] <= '9') || (|t| == 2 && AllDigits(t) && 1 <= DigitsValue(t) <= 12)
  }

  /** The day field `%d` reads: "1" to "9", two digits from "01" to "31", or a space
      and a digit from 1 to 9. */
  predicate DayText(t: string) {
    (|t| == 1 && '1' <= t[0] <= '9') || (|t| == 2 && AllDigits(t) && 1 <= DigitsValue(t) <= 31) ||
    (|t| == 2 && t[0] == ' ' && '1' <= t[1] <= '9')
  }

  function DayValue(t: string): int
    requires DayText(t)
  {
    if t[0] == ' ' then DigitValue(t[1]) else DigitsValue(t)
  }

  /** `datetime.strptime(s, "%Y-%m-%d")`, the date part: four digits, a dash, a month
      field, a dash and a day field that together cover all of `s` and name a day that
      exists. None is the ValueError. */
  function StrptimeYmd(s: string): (r: Option<Date>)
    ensures r.Some? ==> Valid(r.value)
  {
    if |s| < 5 || !AllDigits(s[..4]) || s[4] != '-' then None
    else match SplitOnce(s[5..], '-')
      case None => None
      case Some((mt, dt)) =>
        if MonthText(mt) && DayText(dt) then MakeDate(DigitsValue(s[..4]), DigitsValue(mt), DayValue(dt))
        else None
  }

  /** `strptime` reads every ISO date back. */
  lemma StrptimeOfIso(d: Date)
    requires Valid(d)
    ensures StrptimeYmd(IsoFormat(d)) == Some(d)
  {
    var s := IsoFormat(d);
    assert s[..4] == Digits(d.year, 4);
    assert s[5..] == Digits(d.month, 2) + "-" + Digits(d.day, 2);
    var t := s[5..];
    assert t[0] != '-' && t[1] != '-' && t[2] == '-';
    assert IndexOfChar(t, '-') == Some(2);
    assert t[..2] == Digits(d.month, 2) && t[3..] == Digits(d.day, 2);
    DigitsValueOfDigits(d.year, 4);
    DigitsValueOfDigits(d.month, 2);
    DigitsValueOfDigits(d.day, 2);
  }
}
