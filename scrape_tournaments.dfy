/** The date handling of the scraping entry point (`scrape_tournaments.py`): a lenient
    date reader and the reader of the `--time-range` argument. The current day is a
    parameter. */
module ScrapeTournaments {
  import opened Wrappers
  import opened Strings
  import opened Dates

  /** The two ways reading a range fails: a ValueError for text that is no range, an
      OverflowError for a preset that steps before 0001-01-01 or a date field that does
      not fit the C `int` that `date()` converts its arguments to. */
  const Invalid := "ValueError"
  const Overflow := "OverflowError"

  /** The range of a C `int`, the type `date(year, month, day)` reads its fields into. */
  const CIntMin: int := -0x8000_0000
  const CIntMax: int := 0x7FFF_FFFF

  predicate InCInt(v: int) {
    CIntMin <= v <= CIntMax
  }

  /** The fallback's `int()` conversions: three dash-separated fields that all parse. */
  function DashFields(s: string): (r: Option<(int, int, int)>)
    ensures r.Some? ==> |Split(s, '-')| == 3
  {
    var parts := Split(s, '-');
    if |parts| != 3 then None
    else match (ParseInt(parts[0]), ParseInt(parts[1]), ParseInt(parts[2]))
      case (Some(y), Some(m), Some(d)) => Some((y, m, d))
      case _ => None
  }

  /** `_parse_date_robust`: an ISO date, else three dash-separated integers that name a
      day that exists. A field outside the C `int` range makes `date()` raise an
      OverflowError, which the `except (ValueError, TypeError)` does not catch. */
  function ParseDateRobust(s: string): (r: Result<Date>)
    ensures r.Ok? ==> Valid(r.value)
    ensures r.Err? ==> r == Err(Invalid) || r == Err(Overflow)
    ensures FromIsoFormat(s).Some? ==> r == Ok(FromIsoFormat(s).value)
    ensures r == Err(Overflow) <==>
      FromIsoFormat(s).None? && DashFields(s).Some? &&
      var (y, m, d) := DashFields(s).value; !(InCInt(y) && InCInt(m) && InCInt(d))
  {
    match FromIsoFormat(s)
    case Some(d) => Ok(d)
    case None =>
      match DashFields(s)
      case None => Err(Invalid)
      case Some((y, m, d)) =>
        if !(InCInt(y) && InCInt(m) && InCInt(d)) then Err(Overflow)
        else match MakeDate(y, m, d) case Some(v) => Ok(v) case None => Err(Invalid)
  }

  /** `parse_time_range(range, today)`. The `except ValueError` turns a date that does
      not read into a ValueError again, and lets an OverflowError through. */
  function ParseTimeRange(range: string, today: Date): (r: Result<(Date, Date)>)
    requires Valid(today)
    ensures r.Ok? ==> Valid(r.value.0) && Valid(r.value.1)
    ensures range == "today" ==> r == Ok((today, today))
    ensures r.Err? ==> r == Err(Invalid) || r == Err(Overflow)
  {
    if range == "yesterday" then
      match MinusDays(today, 1)
      case Some(y) => Ok((y, y))
      case None => Err(Overflow)
    else if range == "today" then Ok((today, today))
    else if range == "last_week" then
      match MinusDays(today, 7)
      case Some(s) => Ok((s, today))
      case None => Err(Overflow)
    else
      match SplitOnce(range, ',')
      case Some((a, b)) =>
        (match ParseDateRobust(Strip(a))
         case Err(m) => Err(m)
         case Ok(s) =>
           match ParseDateRobust(Strip(b))
           case Err(m) => Err(m)
           case Ok(e) => Ok((s, e)))
      case None =>
        match ParseDateRobust(Strip(range))
        case Ok(d) => Ok((d, d))
        case Err(m) => Err(m)
  }

  /** The presets: yesterday is the day before today, both ends; last_week runs from
      seven days before today to today. */
  lemma Presets(today: Date)
    requires Valid(today)
    ensures var r := ParseTimeRange("yesterday", today);
      r.Ok? ==> r.value.0 == r.value.1 && Ordinal(r.value.0) == Ordinal(today) - 1
    ensures var r := ParseTimeRange("last_week", today);
      r.Ok? ==> r.value.1 == today && Ordinal(r.value.0) == Ordinal(today) - 7 && Lt(r.value.0, today)
    ensures today.year >= 2 ==> ParseTimeRange("yesterday", today).Ok? && ParseTimeRange("last_week", today).Ok?
  {
    if today.year >= 2 {
      EarlyEnough(today, 1);
      EarlyEnough(today, 7);
    }
  }

  /** Stepping back fewer days than a year holds never runs off the calendar from year
      2 on. */
  lemma {:induction false} EarlyEnough(d: Date, n: nat)
    requires Valid(d) && d.year >= 2 && n <= 365
    ensures MinusDays(d, n).Some?
  {
    if n > 0 {
      EarlyEnough(d, n - 1);
      var e := MinusDays(d, n - 1).value;
      FirstYearOrdinal(d);
      NotFirstDay(e);
      assert MinusDays(d, n) == PrevDay(e);
    }
  }

  lemma NotFirstDay(e: Date)
    requires Valid(e) && Ordinal(e) >= 2
    ensures e != Date(1, 1, 1)
  {
  }

  /** Days from year 2 on are more than 365 days after 0001-01-01. */
  lemma FirstYearOrdinal(d: Date)
    requires Valid(d) && d.year >= 2
    ensures Ordinal(d) > 365
  {
    YearsGrow(2, d.year);
    assert DaysBeforeYear(2) == 365;
  }

  /** A range "A,B" splits at its first comma and reads both ends, stripped. */
  lemma RangeSplits(a: string, b: string, today: Date)
    requires Valid(today) && NoChar(a, ',')
    requires a + "," + b !in ["yesterday", "today", "last_week"]
    ensures var r := ParseTimeRange(a + "," + b, today);
      r.Ok? <==> ParseDateRobust(Strip(a)).Ok? && ParseDateRobust(Strip(b)).Ok?
    ensures var r := ParseTimeRange(a + "," + b, today);
      r.Ok? ==> r.value == (ParseDateRobust(Strip(a)).value, ParseDateRobust(Strip(b)).value)
  {
    var s := a + "," + b;
    assert s[|a|] == ',';
    assert forall j :: 0 <= j < |a| ==> s[j] == a[j];
    assert IndexOfChar(s, ',') == Some(|a|);
    assert s[..|a|] == a && s[|a| + 1..] == b;
  }

  /** A single date d gives the range (d, d). */
  lemma SingleDate(d: Date, today: Date)
    requires Valid(d) && Valid(today)
    ensures ParseTimeRange(IsoFormat(d), today) == Ok((d, d))
  {
    var s := IsoFormat(d);
    IsoRoundTrip(d);
    assert IsDigit(s[0]) && IsDigit(s[9]);
    assert !IsSpace(s[0]) && !IsSpace(s[|s| - 1]);
    TrimLeftId(s);
    TrimRightId(s);
    NoCommaInIso(d);
    assert s != "yesterday" && s != "last_week" && s != "today" by {
      assert |s| == 10;
    }
  }

  lemma NoCommaInIso(d: Date)
    requires Valid(d)
    ensures NoChar(IsoFormat(d), ',')
  {
  }

  /** Dates written without zero padding ("2025-8-1") are read by their integer fields. */
  lemma UnpaddedAccepted(d: Date)
    requires Valid(d) && (d.month < 10 || d.day < 10)
    ensures ParseDateRobust(NatToString(d.year) + "-" + NatToString(d.month) + "-" + NatToString(d.day)) == Ok(d)
  {
    UnpaddedNotIso(d);
    DashDate(d.year, d.month, d.day);
  }

  /** Three numerals joined by dashes read back as their three numbers. */
  lemma DashDate(y: nat, m: nat, d: nat)
    ensures DashFields(NatToString(y) + "-" + NatToString(m) + "-" + NatToString(d)) == Some((y, m, d))
  {
    var ys, ms, ds := NatToString(y), NatToString(m), NatToString(d);
    NoDashInNumeral(ys);
    NoDashInNumeral(ms);
    NoDashInNumeral(ds);
    UnpaddedSplit(ys, ms, ds);
    ParseIntOfString(y);
    ParseIntOfString(m);
    ParseIntOfString(d);
  }

  /** An unpadded date is shorter than ten characters and holds a dash, so it is not ISO. */
  lemma UnpaddedNotIso(d: Date)
    requires Valid(d) && (d.month < 10 || d.day < 10)
    ensures FromIsoFormat(NatToString(d.year) + "-" + NatToString(d.month) + "-" + NatToString(d.day)).None?
  {
    var y, m, dd := NatToString(d.year), NatToString(d.month), NatToString(d.day);
    var s := y + "-" + m + "-" + dd;
    ShortNumber(d.year);
    ShortNumber(d.month);
    ShortNumber(d.day);
    assert |s| < 10;
    assert s[|y|] == '-';
    assert !AllDigits(s);
  }

  /** Three numerals joined by dashes split back into the three. */
  lemma UnpaddedSplit(y: string, m: string, dd: string)
    requires NoChar(y, '-') && NoChar(m, '-') && NoChar(dd, '-')
    ensures Split(y + "-" + m + "-" + dd, '-') == [y, m, dd]
  {
    assert [y, m, dd][1..] == [m, dd] && [m, dd][1..] == [dd];
    assert Join([m, dd], "-") == m + "-" + dd;
    assert y + "-" + m + "-" + dd == Join([y, m, dd], "-");
    SplitJoin([y, m, dd], '-');
  }

  /** The length of a decimal numeral. */
  lemma {:induction false} ShortNumber(n: nat)
    ensures n < 10 ==> |NatToString(n)| == 1
    ensures n < 100 ==> |NatToString(n)| <= 2
    ensures n < 1000 ==> |NatToString(n)| <= 3
    ensures n < 10000 ==> |NatToString(n)| <= 4
  {
    if n >= 10 {
      ShortNumber(n / 10);
    }
  }

  /** Text that is neither a preset, a date nor two dates fails as the date reader
      fails: with the ValueError, or with the OverflowError of a field too large. */
  lemma NoDateFails(range: string, today: Date)
    requires Valid(today) && range !in ["yesterday", "today", "last_week"] && NoChar(range, ',')
    requires ParseDateRobust(Strip(range)).Err?
    ensures ParseTimeRange(range, today) == Err(ParseDateRobust(Strip(range)).msg)
  {
    assert SplitOnce(range, ',').None?;
  }

  /** A year of 2^31 or more written as a dash date overflows `date()`, and the
      OverflowError escapes the reader of the range. */
  lemma OverflowEscapes(y: nat, today: Date)
    requires Valid(today) && y > CIntMax
    ensures ParseTimeRange(NatToString(y) + "-1-1", today) == Err(Overflow)
  {
    var s := NatToString(y) + "-1-1";
    assert ParseDateRobust(s) == Err(Overflow) by {
      OverflowDate(y);
    }
    assert Strip(s) == s by {
      NumeralDateStripped(NatToString(y));
    }
    assert s !in ["yesterday", "today", "last_week"] && NoChar(s, ',') by {
      NoCommaInNumeralDate(NatToString(y));
    }
    NoDateFails(s, today);
  }

  lemma OverflowDate(y: nat)
    requires y > CIntMax
    ensures ParseDateRobust(NatToString(y) + "-1-1") == Err(Overflow)
  {
    var t := NatToString(y);
    assert NatToString(1) == "1";
    assert t + "-" + NatToString(1) + "-" + NatToString(1) == t + "-1-1";
    DashDate(y, 1, 1);
    LongNumber(y);
    assert |t + "-1-1"| > 10;
  }

  lemma NumeralDateStripped(t: string)
    requires |t| > 0 && AllDigits(t)
    ensures Strip(t + "-1-1") == t + "-1-1"
  {
    var s := t + "-1-1";
    assert !IsSpace(s[0]) && !IsSpace(s[|s| - 1]);
    TrimLeftId(s);
    TrimRightId(s);
  }

  lemma NoDashInNumeral(t: string)
    requires AllDigits(t)
    ensures NoChar(t, '-')
  {
  }

  lemma NoCommaInNumeralDate(t: string)
    requires |t| > 0 && AllDigits(t)
    ensures NoChar(t + "-1-1", ',')
    ensures t + "-1-1" !in ["yesterday", "today", "last_week"]
  {
    assert IsDigit((t + "-1-1")[0]);
  }

  /** Numerals of numbers from 10, 100, ... a million on have at least 2, 3, ... 7 digits. */
  lemma {:induction false} LongNumber(n: nat)
    ensures n >= 10 ==> |NatToString(n)| >= 2
    ensures n >= 100 ==> |NatToString(n)| >= 3
    ensures n >= 1000 ==> |NatToString(n)| >= 4
    ensures n >= 10000 ==> |NatToString(n)| >= 5
    ensures n >= 100000 ==> |NatToString(n)| >= 6
    ensures n >= 1000000 ==> |NatToString(n)| >= 7
  {
    if n >= 10 {
      LongNumber(n / 10);
    }
  }
}
