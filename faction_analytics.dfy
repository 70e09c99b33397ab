/** Faction statistics over the (result, tournament) rows: every known faction opens at
    zero, each list read as a known faction adds one to its popularity and its record to
    its wins and games, and the factions with lists are reported by popularity. The meta
    snapshot's share of games per faction and its default formats are here too. */
module FactionAnalytics {
  import opened Wrappers
  import opened Json
  import opened Sorting
  import opened Models
  import opened Factions
  import Formats
  import AnalyticsFilters
  import Dicts
  import CardStats

  type Row = (PlayerResult, Tournament)

  /** A faction's entry while the rows are read. */
  datatype FactionStat = FactionStat(name: string, xws: string, wins: int, games: int, popularity: nat)

  type Stats = Dicts.Dict<string, FactionStat>

  /** The entry a faction opens with. */
  function Opened(f: Faction): FactionStat {
    FactionStat(Label(f), Value(f), 0, 0, 0)
  }

  /** The factions that get an entry: all but UNKNOWN, in declaration order. */
  const Known: seq<Faction> := AllFactions[..7]

  /** The position of a known faction in `Known`. */
  function Idx(f: Faction): (i: nat)
    requires f != UNKNOWN
    ensures i < |Known| && Known[i] == f
  {
    match f
    case REBEL => 0
    case EMPIRE => 1
    case SCUM => 2
    case RESISTANCE => 3
    case FIRST_ORDER => 4
    case REPUBLIC => 5
    case SEPARATIST => 6
  }

  /** The entries the loop over `Faction` opens. */
  const Table: Stats := [
    (Value(REBEL), Opened(REBEL)), (Value(EMPIRE), Opened(EMPIRE)), (Value(SCUM), Opened(SCUM)),
    (Value(RESISTANCE), Opened(RESISTANCE)), (Value(FIRST_ORDER), Opened(FIRST_ORDER)),
    (Value(REPUBLIC), Opened(REPUBLIC)), (Value(SEPARATIST), Opened(SEPARATIST))]

  // ---------------------------------------------------------------- opening the entries

  /** The loop over the factions: each one but UNKNOWN gets its zero entry. */
  function Init(fs: seq<Faction>): Stats {
    if |fs| == 0 then []
    else
      var d := Init(fs[..|fs| - 1]);
      var f := fs[|fs| - 1];
      if f == UNKNOWN then d else Dicts.Put(d, Value(f), Opened(f))
  }

  /** Each known faction sits at its own position. */
  lemma IdxKnown(i: nat)
    requires i < |Known|
    ensures Known[i] != UNKNOWN && Idx(Known[i]) == i
  {
    assert Known == [REBEL, EMPIRE, SCUM, RESISTANCE, FIRST_ORDER, REPUBLIC, SEPARATIST];
  }

  /** Distinct factions have distinct ids. */
  lemma ValueInjective(f: Faction, g: Faction)
    requires Value(f) == Value(g)
    ensures f == g
  {
  }

  /** The table has one entry per known faction, under its id, and no id twice. */
  lemma TableDistinct()
    ensures Dicts.Distinct(Table)
    ensures forall f :: f != UNKNOWN ==> Table[Idx(f)] == (Value(f), Opened(f))
  {
    forall i, j | 0 <= i < j < |Table| ensures Table[i].0 != Table[j].0 {
      if Table[i].0 == Table[j].0 {
        ValueInjective(Known[i], Known[j]);
      }
    }
  }

  /** Every faction but UNKNOWN has an entry, opened at zero, in declaration order. */
  lemma InitIsTable()
    ensures Init(AllFactions) == Table
  {
    var fs := AllFactions;
    assert fs[..1] == [REBEL];
    assert fs[..2] == [REBEL, EMPIRE];
    assert fs[..3] == [REBEL, EMPIRE, SCUM];
    assert fs[..4] == [REBEL, EMPIRE, SCUM, RESISTANCE];
    assert fs[..5] == [REBEL, EMPIRE, SCUM, RESISTANCE, FIRST_ORDER];
    assert fs[..6] == [REBEL, EMPIRE, SCUM, RESISTANCE, FIRST_ORDER, REPUBLIC];
    assert fs[..7] == Known;
    Grown(1);
    Grown(2);
    Grown(3);
    Grown(4);
    Grown(5);
    Grown(6);
    Grown(7);
    assert fs == fs[..7] + [UNKNOWN];
  }

  /** The first `n` known factions open the first `n` entries of the table. */
  lemma {:induction false} Grown(n: nat)
    requires 0 < n <= 7
    ensures Init(AllFactions[..n]) == Table[..n]
    decreases n
  {
    var fs := AllFactions[..n];
    assert fs[..n - 1] == AllFactions[..n - 1];
    if n > 1 {
      Grown(n - 1);
    }
    var d := Table[..n - 1];
    var f := Known[n - 1];
    assert fs[n - 1] == f && f != UNKNOWN;
    NewKey(n);
    TableAt(n - 1);
    PrefixSnoc(Table, n);
  }

  /** The `n`-th known faction's id is not among the entries before it. */
  lemma NewKey(n: nat)
    requires 0 < n <= 7
    ensures !Dicts.Has(Table[..n - 1], Value(Known[n - 1]))
  {
    var d := Table[..n - 1];
    var f := Known[n - 1];
    assert Value(f) !in Dicts.KeysOf(d) by {
      if Value(f) in Dicts.KeysOf(d) {
        var i :| 0 <= i < n - 1 && Dicts.KeysOf(d)[i] == Value(f);
        TableAt(i);
        ValueInjective(Known[i], f);
      }
    }
    Dicts.HasIffKey(d, Value(f));
  }

  /** The `i`-th entry of the table is the `i`-th known faction's. */
  lemma TableAt(i: nat)
    requires i < 7
    ensures Table[i] == (Value(Known[i]), Opened(Known[i]))
    ensures forall j :: 0 <= j < 7 && j != i ==> Known[j] != Known[i]
  {
  }

  // ---------------------------------------------------------------- one row

  /** `Faction.from_xws(v)`: a falsy value is UNKNOWN; a value that is not text raises. */
  function ListFaction(v: Json): (r: Result<Faction>)
    ensures !Truthy(v) ==> r == Ok(UNKNOWN)
    ensures v.JStr? ==> r == Ok(FromXws(v.s))
    ensures Truthy(v) && !v.JStr? ==> r.Err?
  {
    if !Truthy(v) then Ok(UNKNOWN)
    else if v.JStr? then Ok(FromXws(v.s))
    else Err("exception")
  }

  /** The faction a row counts for: none for a tournament outside the allowed formats,
      a result without a dict list, or a list that reads as UNKNOWN. The allowed formats
      are the result of `get_active_formats`, a list, so the `is not None` test always
      holds and an empty list admits no format. */
  function RowFaction(row: Row, allowed: seq<string>): (r: Result<Option<Faction>>)
    ensures AnalyticsFilters.TournamentFormat(row.1) !in allowed ==> r == Ok(None)
    ensures !Truthy(row.0.listJson) || !row.0.listJson.JObj? ==> r == Ok(None)
    ensures r.Ok? && r.value.Some? <==>
      AnalyticsFilters.TournamentFormat(row.1) in allowed && Truthy(row.0.listJson) && row.0.listJson.JObj? &&
      ListFaction(GetOr(row.0.listJson, "faction", JStr("unknown"))).Ok? &&
      ListFaction(GetOr(row.0.listJson, "faction", JStr("unknown"))).value != UNKNOWN
    ensures r.Ok? && r.value.Some? ==> (r.value.value != UNKNOWN &&
      r.value.value == ListFaction(GetOr(row.0.listJson, "faction", JStr("unknown"))).value)
  {
    var xws := row.0.listJson;
    if AnalyticsFilters.TournamentFormat(row.1) !in allowed then Ok(None)
    else if !Truthy(xws) || !xws.JObj? then Ok(None)
    else match ListFaction(GetOr(xws, "faction", JStr("unknown")))
      case Err(m) => Err(m)
      case Ok(f) => if Value(f) == "unknown" then Ok(None) else Ok(Some(f))
  }

  /** One counted list: its wins, its games and one more list. */
  function Credit(e: FactionStat, p: PlayerResult): (r: FactionStat)
    ensures r.name == e.name && r.xws == e.xws
    ensures r.popularity == e.popularity + 1
    ensures r.wins - e.wins == ResultWins(p) && r.games - e.games == ResultGames(p)
  {
    e.(wins := e.wins + ResultWins(p), games := e.games + ResultGames(p), popularity := e.popularity + 1)
  }

  /** The update for a list of faction `f`, opening its entry first if it had none. */
  function AddRow(d: Stats, f: Faction, p: PlayerResult): Stats {
    var e := Dicts.Get(d, Value(f)).GetOr(Opened(f));
    Dicts.Put(d, Value(f), Credit(e, p))
  }

  /** The row loop, from the opened entries `d`; the first row that raises ends it. */
  function Tally(rows: seq<Row>, allowed: seq<string>, d: Stats): Result<Stats> {
    if |rows| == 0 then Ok(d)
    else match Tally(rows[..|rows| - 1], allowed, d)
      case Err(m) => Err(m)
      case Ok(acc) =>
        var row := rows[|rows| - 1];
        match RowFaction(row, allowed)
        case Err(m) => Err(m)
        case Ok(None) => Ok(acc)
        case Ok(Some(f)) => Ok(AddRow(acc, f, row.0))
  }

  // ---------------------------------------------------------------- reference totals

  /** The results of the rows that count for `f`, in row order. */
  function Counted(rows: seq<Row>, allowed: seq<string>, f: Faction): seq<PlayerResult> {
    if |rows| == 0 then []
    else
      var rest := Counted(rows[..|rows| - 1], allowed, f);
      var row := rows[|rows| - 1];
      if RowFaction(row, allowed) == Ok(Some(f)) then rest + [row.0] else rest
  }

  function SumWins(ps: seq<PlayerResult>): int {
    if |ps| == 0 then 0 else SumWins(ps[..|ps| - 1]) + ResultWins(ps[|ps| - 1])
  }

  function SumGames(ps: seq<PlayerResult>): int {
    if |ps| == 0 then 0 else SumGames(ps[..|ps| - 1]) + ResultGames(ps[|ps| - 1])
  }

  /** The entry `f` should end with: its lists, the sum of their wins and of their games. */
  function Totals(f: Faction, rows: seq<Row>, allowed: seq<string>): FactionStat {
    var ps := Counted(rows, allowed, f);
    FactionStat(Label(f), Value(f), SumWins(ps), SumGames(ps), |ps|)
  }

  /** Counting one more list of `f`. */
  lemma CreditTotals(f: Faction, rows: seq<Row>, allowed: seq<string>, p: PlayerResult)
    ensures var ps := Counted(rows, allowed, f) + [p];
      FactionStat(Label(f), Value(f), SumWins(ps), SumGames(ps), |ps|) == Credit(Totals(f, rows, allowed), p)
  {
    var ps := Counted(rows, allowed, f) + [p];
    assert ps[..|ps| - 1] == Counted(rows, allowed, f);
  }

  /** On a dict keyed like the table, the update for `f` rewrites `f`'s entry in place. */
  lemma AddRowInPlace(d: Stats, f: Faction, p: PlayerResult)
    requires Dicts.KeysOf(d) == Dicts.KeysOf(Table) && f != UNKNOWN
    ensures AddRow(d, f, p) == d[Idx(f) := (Value(f), Credit(d[Idx(f)].1, p))]
  {
    var i := Idx(f);
    assert Dicts.Find(d, Value(f)) == Some(i) by {
      TableDistinct();
      Dicts.FindDistinct(Table, Value(f), i);
      Dicts.FindSameKeys(d, Table, Value(f));
    }
    assert Dicts.Get(d, Value(f)) == Some(d[i].1);
  }

  /** Every entry holds its faction's reference totals. */
  ghost predicate HoldsTotals(d: Stats, rows: seq<Row>, allowed: seq<string>) {
    Dicts.KeysOf(d) == Dicts.KeysOf(Table) &&
    forall i :: 0 <= i < |d| ==> d[i].1 == Totals(Known[i], rows, allowed)
  }

  /** One row keeps every entry equal to its reference. */
  lemma TallyStep(rows: seq<Row>, allowed: seq<string>, acc: Stats)
    requires |rows| > 0 && HoldsTotals(acc, rows[..|rows| - 1], allowed)
    requires RowFaction(rows[|rows| - 1], allowed).Ok?
    ensures var row := rows[|rows| - 1];
      HoldsTotals(match RowFaction(row, allowed).value case None => acc case Some(f) => AddRow(acc, f, row.0), rows, allowed)
  {
    match RowFaction(rows[|rows| - 1], allowed).value
    case None => SkipStep(rows, allowed, acc);
    case Some(f) => CountStep(rows, allowed, acc, f);
  }

  /** A row that counts for no faction changes no reference entry. */
  lemma SkipStep(rows: seq<Row>, allowed: seq<string>, acc: Stats)
    requires |rows| > 0 && HoldsTotals(acc, rows[..|rows| - 1], allowed)
    requires RowFaction(rows[|rows| - 1], allowed) == Ok(None)
    ensures HoldsTotals(acc, rows, allowed)
  {
    var prev := rows[..|rows| - 1];
    forall i | 0 <= i < |acc| ensures acc[i].1 == Totals(Known[i], rows, allowed) {
      assert Counted(rows, allowed, Known[i]) == Counted(prev, allowed, Known[i]);
    }
  }

  /** A row that counts for `f` credits `f`'s entry and no other. */
  lemma CountStep(rows: seq<Row>, allowed: seq<string>, acc: Stats, f: Faction)
    requires |rows| > 0 && HoldsTotals(acc, rows[..|rows| - 1], allowed)
    requires RowFaction(rows[|rows| - 1], allowed) == Ok(Some(f))
    ensures HoldsTotals(AddRow(acc, f, rows[|rows| - 1].0), rows, allowed)
  {
    var prev := rows[..|rows| - 1];
    var row := rows[|rows| - 1];
    assert |acc| == |Dicts.KeysOf(acc)| == |Table| == 7;
    AddRowInPlace(acc, f, row.0);
    var d := AddRow(acc, f, row.0);
    assert Dicts.KeysOf(d) == Dicts.KeysOf(acc);
    forall i | 0 <= i < |d| ensures d[i].1 == Totals(Known[i], rows, allowed) {
      var g := Known[i];
      CountedLast(rows, allowed, g);
      if i == Idx(f) {
        CreditTotals(f, prev, allowed, row.0);
        assert Counted(rows, allowed, f) == Counted(prev, allowed, f) + [row.0];
      } else {
        IdxKnown(i);
        assert d[i] == acc[i];
        assert Counted(rows, allowed, g) == Counted(prev, allowed, g);
      }
    }
  }

  /** The last row joins the lists of the faction it counts for and of no other. */
  lemma CountedLast(rows: seq<Row>, allowed: seq<string>, g: Faction)
    requires |rows| > 0
    ensures var row := rows[|rows| - 1];
      Counted(rows, allowed, g) ==
        if RowFaction(row, allowed) == Ok(Some(g)) then Counted(rows[..|rows| - 1], allowed, g) + [row.0]
        else Counted(rows[..|rows| - 1], allowed, g)
  {
  }

  /** From the opened table, the row loop ends with every known faction's entry holding
      the number of its lists and the sums of their wins and games; the keys never
      change. */
  lemma {:induction false} TallyTotals(rows: seq<Row>, allowed: seq<string>)
    requires Tally(rows, allowed, Table).Ok?
    ensures HoldsTotals(Tally(rows, allowed, Table).value, rows, allowed)
    decreases |rows|
  {
    if |rows| == 0 {
      forall i | 0 <= i < |Table| ensures Table[i].1 == Totals(Known[i], rows, allowed) {
      }
    } else {
      var prev := rows[..|rows| - 1];
      TallyTotals(prev, allowed);
      TallyStep(rows, allowed, Tally(prev, allowed, Table).value);
    }
  }

  /** A row that reads as UNKNOWN changes nothing. */
  lemma UnknownListIgnored(rows: seq<Row>, allowed: seq<string>, d: Stats, row: Row)
    requires ListFaction(GetOr(row.0.listJson, "faction", JStr("unknown"))) == Ok(UNKNOWN)
    ensures Tally(rows + [row], allowed, d) == Tally(rows, allowed, d)
  {
    assert (rows + [row])[..|rows|] == rows;
  }

  // ---------------------------------------------------------------- results

  datatype FactionResult = FactionResult(name: string, xws: string, iconChar: string, winRate: real,
                                         popularity: nat, games: int, wins: int)

  /** One output row; `charOf` is the faction icon glyph lookup. */
  function ResultOf(e: FactionStat, charOf: string -> string): FactionResult {
    FactionResult(e.name, e.xws, charOf(e.xws), CardStats.WinRate(e.wins, e.games), e.popularity, e.games, e.wins)
  }

  /** The results loop: the entries in dict order, without those with no list. */
  function Results(d: Stats, charOf: string -> string): (r: seq<FactionResult>)
    ensures forall x :: x in r <==> exists i :: 0 <= i < |d| && d[i].1.popularity > 0 && x == ResultOf(d[i].1, charOf)
  {
    if |d| == 0 then []
    else
      var n := |d| - 1;
      var rest := Results(d[..n], charOf);
      assert forall i :: 0 <= i < n ==> d[..n][i] == d[i];
      if d[n].1.popularity > 0 then rest + [ResultOf(d[n].1, charOf)] else rest
  }

  /** The default sort: popularity. */
  function ByPopularity(x: FactionResult): seq<real> {
    [x.popularity as real]
  }

  /** `aggregate_faction_stats` over the rows the query returns. */
  function AggregateFactionStats(rows: seq<Row>, sel: AnalyticsFilters.Selection, charOf: string -> string)
    : (r: Result<seq<FactionResult>>)
    ensures r.Ok? ==> Ordered(r.value, ByPopularity, true)
  {
    match Tally(rows, AnalyticsFilters.ActiveFormats(sel), Init(AllFactions))
    case Err(m) => Err(m)
    case Ok(d) =>
      SortByOrdered(Results(d, charOf), ByPopularity, true);
      Ok(SortBy(Results(d, charOf), ByPopularity, true))
  }

  /** The output: most popular first; a known faction is reported exactly when some
      list counted for it, with its number of lists and the sums of their wins and
      games; nothing else is reported. */
  lemma Ranking(rows: seq<Row>, sel: AnalyticsFilters.Selection, charOf: string -> string)
    requires Tally(rows, AnalyticsFilters.ActiveFormats(sel), Table).Ok?
    ensures AggregateFactionStats(rows, sel, charOf).Ok?
    ensures var r := AggregateFactionStats(rows, sel, charOf).value;
      var allowed := AnalyticsFilters.ActiveFormats(sel);
      Ordered(r, ByPopularity, true) &&
      (forall f :: f != UNKNOWN ==>
        (ResultOf(Totals(f, rows, allowed), charOf) in r <==> |Counted(rows, allowed, f)| > 0)) &&
      (forall x :: x in r ==> exists f :: f in Known && x == ResultOf(Totals(f, rows, allowed), charOf))
  {
    InitIsTable();
    var allowed := AnalyticsFilters.ActiveFormats(sel);
    var d := Tally(rows, allowed, Table).value;
    TallyTotals(rows, allowed);
    var xs := Results(d, charOf);
    SortByOrdered(xs, ByPopularity, true);
    SortByMultiset(xs, ByPopularity, true);
    var r := SortBy(xs, ByPopularity, true);
    assert forall x :: x in r <==> x in xs by {
      forall x ensures x in r <==> x in xs {
        assert x in r <==> x in multiset(r);
        assert x in xs <==> x in multiset(xs);
      }
    }
    assert |d| == |Dicts.KeysOf(d)| == |Table|;
    forall f | f != UNKNOWN
      ensures ResultOf(Totals(f, rows, allowed), charOf) in r <==> |Counted(rows, allowed, f)| > 0
    {
      var i := Idx(f);
      assert d[i].1 == Totals(f, rows, allowed);
    }
    forall x | x in r ensures exists f :: f in Known && x == ResultOf(Totals(f, rows, allowed), charOf) {
      var i :| 0 <= i < |d| && d[i].1.popularity > 0 && x == ResultOf(d[i].1, charOf);
      assert Known[i] in Known;
    }
  }

  /** An empty format selection admits no tournament: the output is empty. */
  lemma NoSelectionCountsNothing(rows: seq<Row>, charOf: string -> string)
    ensures AggregateFactionStats(rows, AnalyticsFilters.NoSelection, charOf) == Ok([])
  {
    InitIsTable();
    NothingAdmitted(rows);
    if |Results(Table, charOf)| > 0 {
      var x := Results(Table, charOf)[0];
      assert x in Results(Table, charOf);
      var i :| 0 <= i < |Table| && Table[i].1.popularity > 0 && x == ResultOf(Table[i].1, charOf);
      TableAt(i);
    }
  }

  lemma {:induction false} NothingAdmitted(rows: seq<Row>)
    ensures Tally(rows, [], Table) == Ok(Table)
    decreases |rows|
  {
    if |rows| > 0 {
      NothingAdmitted(rows[..|rows| - 1]);
    }
  }

  // ---------------------------------------------------------------- loops

  /** `for f in Faction: …` */
  method InitOf() returns (d: Stats)
    ensures d == Init(AllFactions)
  {
    d := [];
    var i := 0;
    while i < |AllFactions|
      invariant 0 <= i <= |AllFactions|
      invariant d == Init(AllFactions[..i])
    {
      assert AllFactions[..i + 1][..i] == AllFactions[..i];
      var f := AllFactions[i];
      if f != UNKNOWN {
        d := Dicts.Put(d, Value(f), Opened(f));
      }
      i := i + 1;
    }
    assert AllFactions[..i] == AllFactions;
  }

  /** The row loop. */
  method TallyOf(rows: seq<Row>, allowed: seq<string>, d0: Stats) returns (r: Result<Stats>)
    ensures r == Tally(rows, allowed, d0)
  {
    var d := d0;
    var i := 0;
    while i < |rows|
      invariant 0 <= i <= |rows|
      invariant Tally(rows[..i], allowed, d0) == Ok(d)
    {
      assert rows[..i + 1][..i] == rows[..i];
      var x := RowFaction(rows[i], allowed);
      if x.Err? {
        TallyStops(rows, allowed, d0, i, |rows|, x.msg);
        assert rows[..|rows|] == rows;
        return Err(x.msg);
      }
      if x.value.Some? {
        d := AddRow(d, x.value.value, rows[i].0);
      }
      i := i + 1;
    }
    assert rows[..i] == rows;
    r := Ok(d);
  }

  /** The first row that raises decides the result. */
  lemma {:induction false} TallyStops(rows: seq<Row>, allowed: seq<string>, d0: Stats, i: nat, m: nat, msg: string)
    requires i < m <= |rows| && Tally(rows[..i + 1], allowed, d0) == Err(msg)
    ensures Tally(rows[..m], allowed, d0) == Err(msg)
    decreases m
  {
    if m > i + 1 {
      TallyStops(rows, allowed, d0, i, m - 1, msg);
      assert rows[..m][..m - 1] == rows[..m - 1];
    }
  }

  /** The results loop. */
  method ResultsOf(d: Stats, charOf: string -> string) returns (rs: seq<FactionResult>)
    ensures rs == Results(d, charOf)
  {
    rs := [];
    var i := 0;
    while i < |d|
      invariant 0 <= i <= |d|
      invariant rs == Results(d[..i], charOf)
    {
      assert d[..i + 1][..i] == d[..i];
      if d[i].1.popularity > 0 {
        rs := rs + [ResultOf(d[i].1, charOf)];
      }
      i := i + 1;
    }
    assert d[..i] == d;
  }

  /** The whole aggregation, loop by loop. */
  method AggregateFactionStatsOf(rows: seq<Row>, sel: AnalyticsFilters.Selection, charOf: string -> string)
    returns (r: Result<seq<FactionResult>>)
    ensures r == AggregateFactionStats(rows, sel, charOf)
  {
    var d := InitOf();
    var t := TallyOf(rows, AnalyticsFilters.ActiveFormats(sel), d);
    if t.Err? {
      return Err(t.msg);
    }
    var rs := ResultsOf(t.value, charOf);
    r := Ok(SortBy(rs, ByPopularity, true));
  }

  // ---------------------------------------------------------------- meta snapshot

  /** The formats the snapshot filters by: the given ones when there are any, otherwise
      the current formats of the data source. */
  function SnapshotFormats(src: DataSource, given: Option<seq<string>>): (r: seq<string>)
    ensures given.Some? && |given.value| > 0 ==> r == given.value
    ensures (given.None? || |given.value| == 0) && src == XWA ==>
      r == [Formats.FormatValue(Formats.XWA), Formats.FormatValue(Formats.AMG)]
    ensures (given.None? || |given.value| == 0) && src == LEGACY ==>
      r == [Formats.FormatValue(Formats.LEGACY_X2PO), Formats.FormatValue(Formats.LEGACY_XLC)]
  {
    if given.Some? && |given.value| > 0 then AnalyticsFilters.ActiveFormats(AnalyticsFilters.Listed(given.value))
    else if src == XWA then ["xwa", "amg"]
    else ["legacy_x2po", "legacy_xlc"]
  }

  /** The snapshot always passes a non-empty list, which the faction statistics read
      back unchanged: the snapshot counts exactly the tournaments of those formats. */
  lemma SnapshotSelectsFormats(src: DataSource, given: Option<seq<string>>, row: Row)
    ensures var fs := SnapshotFormats(src, given);
      |fs| > 0 && AnalyticsFilters.ActiveFormats(AnalyticsFilters.Listed(fs)) == fs &&
      (AnalyticsFilters.TournamentFormat(row.1) !in fs ==> RowFaction(row, fs) == Ok(None))
  {
  }

  /** One slice of the distribution chart. */
  datatype Share = Share(name: string, realName: string, xws: string, iconChar: string, games: int, percentage: real)

  /** `sum(f["games"] for f in faction_stats)` */
  function TotalGames(rs: seq<FactionResult>): int {
    if |rs| == 0 then 0 else TotalGames(rs[..|rs| - 1]) + rs[|rs| - 1].games
  }

  /** `games / total * 100`, or 0 without games. */
  function Percentage(games: int, total: int): (r: real)
    ensures total <= 0 ==> r == 0.0
    ensures 0 <= games <= total ==> 0.0 <= r <= 100.0
  {
    if total > 0 then (games as real / total as real) * 100.0 else 0.0
  }

  function ShareOf(x: FactionResult, total: int, charOf: string -> string): Share {
    Share(charOf(x.xws), x.name, x.xws, charOf(x.xws), x.games, Percentage(x.games, total))
  }

  /** The distribution loop, against a total. */
  function Shares(rs: seq<FactionResult>, total: int, charOf: string -> string): (r: seq<Share>)
    ensures |r| == |rs|
  {
    if |rs| == 0 then [] else Shares(rs[..|rs| - 1], total, charOf) + [ShareOf(rs[|rs| - 1], total, charOf)]
  }

  function PercentSum(ss: seq<Share>): real {
    if |ss| == 0 then 0.0 else PercentSum(ss[..|ss| - 1]) + ss[|ss| - 1].percentage
  }

  /** Each slice is its faction's share of the games. */
  lemma {:induction false} SharesOfGames(rs: seq<FactionResult>, total: int, charOf: string -> string, i: nat)
    requires i < |rs|
    ensures var s := Shares(rs, total, charOf)[i];
      s.xws == rs[i].xws && s.realName == rs[i].name && s.games == rs[i].games &&
      s.percentage == Percentage(rs[i].games, total) && s.name == charOf(rs[i].xws)
    decreases |rs|
  {
    if i < |rs| - 1 {
      SharesOfGames(rs[..|rs| - 1], total, charOf, i);
    }
  }

  /** The percentages add up to the games counted over the total, as a percentage. */
  lemma {:induction false} PercentSumIs(rs: seq<FactionResult>, total: int, charOf: string -> string)
    requires total > 0
    ensures PercentSum(Shares(rs, total, charOf)) == (TotalGames(rs) as real / total as real) * 100.0
    decreases |rs|
  {
    if |rs| > 0 {
      var n := |rs| - 1;
      var ss := Shares(rs, total, charOf);
      PercentSumIs(rs[..n], total, charOf);
      assert ss[..n] == Shares(rs[..n], total, charOf);
      var a := TotalGames(rs[..n]);
      var b := rs[n].games;
      assert TotalGames(rs) == a + b;
      assert PercentSum(ss) == PercentSum(ss[..n]) + Percentage(b, total);
      SplitShare(a, b, total);
    }
  }

  lemma SplitShare(a: int, b: int, t: int)
    requires t > 0
    ensures (a as real / t as real) * 100.0 + (b as real / t as real) * 100.0 == ((a + b) as real / t as real) * 100.0
  {
  }

  /** When any game was played, the slices make up the whole: 100 percent. */
  lemma SharesMakeWhole(rs: seq<FactionResult>, charOf: string -> string)
    requires TotalGames(rs) > 0
    ensures PercentSum(Shares(rs, TotalGames(rs), charOf)) == 100.0
  {
    PercentSumIs(rs, TotalGames(rs), charOf);
    WholeShare(TotalGames(rs));
  }

  lemma WholeShare(t: int)
    requires t > 0
    ensures (t as real / t as real) * 100.0 == 100.0
  {
    var x := t as real;
    assert x / x == 1.0;
  }

  /** The distribution loop of the snapshot. */
  method DistributionOf(rs: seq<FactionResult>, charOf: string -> string) returns (out: seq<Share>)
    ensures out == Shares(rs, TotalGames(rs), charOf)
  {
    var total := TotalGames(rs);
    out := [];
    var i := 0;
    while i < |rs|
      invariant 0 <= i <= |rs|
      invariant out == Shares(rs[..i], total, charOf)
    {
      assert rs[..i + 1][..i] == rs[..i];
      out := out + [ShareOf(rs[i], total, charOf)];
      i := i + 1;
    }
    assert rs[..i] == rs;
  }
}
