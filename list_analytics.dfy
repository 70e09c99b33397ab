/** The squad-list aggregation: player results are grouped by a canonical key built
    from their pilots and upgrades, each group counts its lists, wins and games, and
    the groups are ranked by popularity. */
module ListAnalytics {
  import opened Wrappers
  import opened Strings
  import opened Json
  import opened Sorting
  import opened Models
  import Dicts
  import opened AnalyticsFilters

  /** A row of the query: a player result with its tournament. */
  type Row = (PlayerResult, Tournament)

  /** How a row is keyed: `Ok(None)` skips it, `Err` raises. */
  type KeyFn = Row -> Result<Option<string>>

  // ---------------------------------------------------------------- the list key

  /** The upgrade ids of one slot: only a list of ids contributes. */
  function SlotIds(v: Json): seq<Json> {
    if v.JList? then v.items else []
  }

  /** The upgrade ids of a dict of slots, in slot order. */
  function SlotsIds(slots: seq<(string, Json)>): seq<Json> {
    if |slots| == 0 then []
    else SlotsIds(slots[..|slots| - 1]) + SlotIds(slots[|slots| - 1].1)
  }

  /** A pilot's upgrade ids: from each list slot of a dict, or a plain list of ids. */
  function UpgradeIds(p: Json): seq<Json> {
    var ud := GetOr(p, "upgrades", JObj([]));
    if ud.JObj? then SlotsIds(ud.fields)
    else if ud.JList? then ud.items
    else []
  }

  /** The pilot's name in the key: its id, else its name, else "unknown". */
  function PilotName(p: Json): string {
    Str(Or(Or(Get(p, "id"), Get(p, "name")), JStr("unknown")))
  }

  /** One pilot's part of the key: `id(u1,u2,…)` with the upgrade ids as text, sorted. */
  function PilotEntry(p: Json): (r: string)
    ensures exists ups :: r == PilotName(p) + "(" + ups + ")"
  {
    PilotName(p) + "(" + Join(SortStrings(Mapped(UpgradeIds(p), Str)), ",") + ")"
  }

  predicate AllDicts(ps: seq<Json>) {
    forall i :: 0 <= i < |ps| ==> ps[i].JObj?
  }

  /** The grouping key of a list: its pilot entries, sorted and joined by "|". */
  function ListKey(ps: seq<Json>): string {
    Join(SortStrings(Mapped(ps, PilotEntry)), "|")
  }

  /** The pilots of a stored list, `[]` when absent. */
  function Pilots(xws: Json): Json {
    GetOr(xws, "pilots", JList([]))
  }

  /** The key a row is counted under: `Ok(None)` for a row that is skipped (format not
      allowed, no squad, no pilots), `Err` where Python raises (pilots that are not a
      list of dicts). */
  function RowKey(row: Row, active: seq<string>): (r: Result<Option<string>>)
    ensures r == Ok(None) <==>
      (|active| > 0 && TournamentFormat(row.1) !in active) ||
      !row.0.listJson.JObj? || !Truthy(row.0.listJson) || !Truthy(Pilots(row.0.listJson))
    ensures r.Ok? && r.value.Some? ==>
      Pilots(row.0.listJson).JList? && r.value.value == ListKey(Pilots(row.0.listJson).items)
    ensures r.Err? ==> !Pilots(row.0.listJson).JList? || !AllDicts(Pilots(row.0.listJson).items)
  {
    var (result, t) := row;
    if |active| > 0 && TournamentFormat(t) !in active then Ok(None)
    else
      var xws := result.listJson;
      if !Truthy(xws) || !xws.JObj? then Ok(None)
      else
        var pilots := Pilots(xws);
        if !Truthy(pilots) then Ok(None)
        else if !pilots.JList? || !AllDicts(pilots.items) then Err("exception")
        else Ok(Some(ListKey(pilots.items)))
  }

  /** The keying of `aggregate_list_stats` under a format selection. */
  function Keying(sel: Selection): KeyFn {
    KeyingBy(ActiveFormats(sel))
  }

  /** The keying under a list of active formats. */
  function KeyingBy(formats: seq<string>): KeyFn {
    row => RowKey(row, formats)
  }

  // ---------------------------------------------------------------- tallying

  /** A group: the descriptive fields of its first list, and its running totals. */
  datatype Entry = Entry(pilots: Json, faction: Json, name: Json, points: Json, wins: int, games: int, count: nat)

  /** The descriptive fields a group takes from its first list, totals at zero. */
  function NewEntry(xws: Json): (e: Entry)
    ensures e.wins == 0 && e.games == 0 && e.count == 0
  {
    var faction := GetOr(xws, "faction", JStr("unknown"));
    var untitled := JStr("Untitled " + Str(GetOr(xws, "faction", JStr(""))) + " List");
    Entry(Pilots(xws), faction, Or(Get(xws, "name"), untitled), GetOr(xws, "points", JInt(0)), 0, 0, 0)
  }

  /** Count `row` under `k`, opening the group with this row's list when it is new. */
  function Add(d: Dicts.Dict<string, Entry>, k: string, row: Row): Dicts.Dict<string, Entry> {
    Dicts.Put(d, k, Counted(d, k, row))
  }

  /** The group of `k` once `row` is counted in it. */
  function Counted(d: Dicts.Dict<string, Entry>, k: string, row: Row): Entry {
    var e := match Dicts.Get(d, k) case Some(e) => e case None => NewEntry(row.0.listJson);
    e.(wins := e.wins + ResultWins(row.0), games := e.games + ResultGames(row.0), count := e.count + 1)
  }

  /** The groups of all rows, in first-seen order; `Err` when some row raises. */
  function Tally(rows: seq<Row>, key: KeyFn): Result<Dicts.Dict<string, Entry>> {
    if |rows| == 0 then Ok([])
    else
      var n := |rows| - 1;
      match Tally(rows[..n], key)
      case Err(m) => Err(m)
      case Ok(d) =>
        match key(rows[n])
        case Err(m) => Err(m)
        case Ok(None) => Ok(d)
        case Ok(Some(k)) => Ok(Add(d, k, rows[n]))
  }

  /** The reference totals of key `k`: the number of rows counted under it, and the sums
      of their wins and games. */
  function CountOf(rows: seq<Row>, key: KeyFn, k: string): nat {
    if |rows| == 0 then 0
    else CountOf(rows[..|rows| - 1], key, k) + (if key(rows[|rows| - 1]) == Ok(Some(k)) then 1 else 0)
  }

  function WinsOf(rows: seq<Row>, key: KeyFn, k: string): int {
    if |rows| == 0 then 0
    else
      var last := rows[|rows| - 1];
      WinsOf(rows[..|rows| - 1], key, k) + (if key(last) == Ok(Some(k)) then ResultWins(last.0) else 0)
  }

  function GamesOf(rows: seq<Row>, key: KeyFn, k: string): int {
    if |rows| == 0 then 0
    else
      var last := rows[|rows| - 1];
      GamesOf(rows[..|rows| - 1], key, k) + (if key(last) == Ok(Some(k)) then ResultGames(last.0) else 0)
  }

  /** Every group holds exactly the totals of the rows counted under its key, a key has
      a group exactly when some row is counted under it, and no key is repeated. */
  lemma {:induction false} TallyTotals(rows: seq<Row>, key: KeyFn)
    requires Tally(rows, key).Ok?
    ensures Dicts.Distinct(Tally(rows, key).value)
    ensures forall k :: Dicts.Has(Tally(rows, key).value, k) <==> CountOf(rows, key, k) > 0
    ensures forall k :: Dicts.Has(Tally(rows, key).value, k) ==>
      var e := Dicts.Get(Tally(rows, key).value, k).value;
      e.count == CountOf(rows, key, k) && e.wins == WinsOf(rows, key, k) && e.games == GamesOf(rows, key, k)
    decreases |rows|
  {
    TotalsHold(rows, key);
    var d := Tally(rows, key).value;
    forall k ensures Dicts.Has(d, k) <==> CountOf(rows, key, k) > 0 {
      assert EntryOk(d, rows, key, k);
    }
    forall k | Dicts.Has(d, k)
      ensures var e := Dicts.Get(d, k).value;
        e.count == CountOf(rows, key, k) && e.wins == WinsOf(rows, key, k) && e.games == GamesOf(rows, key, k)
    {
      assert EntryOk(d, rows, key, k);
    }
  }

  /** The totals held for `k` are the reference totals of the rows. */
  predicate EntryOk(d: Dicts.Dict<string, Entry>, rows: seq<Row>, key: KeyFn, k: string) {
    (Dicts.Has(d, k) <==> CountOf(rows, key, k) > 0) &&
    (Dicts.Has(d, k) ==>
      var e := Dicts.Get(d, k).value;
      e.count == CountOf(rows, key, k) && e.wins == WinsOf(rows, key, k) && e.games == GamesOf(rows, key, k))
  }

  lemma {:induction false} TotalsHold(rows: seq<Row>, key: KeyFn)
    requires Tally(rows, key).Ok?
    ensures Dicts.Distinct(Tally(rows, key).value)
    ensures forall k :: EntryOk(Tally(rows, key).value, rows, key, k)
    decreases |rows|
  {
    if |rows| > 0 {
      var n := |rows| - 1;
      TotalsHold(rows[..n], key);
      var d := Tally(rows[..n], key).value;
      match key(rows[n])
      case Ok(None) =>
        forall k ensures EntryOk(d, rows, key, k) {
          assert EntryOk(d, rows[..n], key, k);
        }
      case Ok(Some(k)) =>
        assert Tally(rows, key) == Ok(Add(d, k, rows[n]));
        forall k2 ensures EntryOk(Add(d, k, rows[n]), rows, key, k2) {
          AddEntry(d, rows, key, k, k2);
        }
        Dicts.PutSpec(d, k, Counted(d, k, rows[n]));
    }
  }

  /** Counting the last row under `k` keeps every key's totals right. */
  lemma AddEntry(d: Dicts.Dict<string, Entry>, rows: seq<Row>, key: KeyFn, k: string, k2: string)
    requires |rows| > 0 && Dicts.Distinct(d)
    requires key(rows[|rows| - 1]) == Ok(Some(k))
    requires EntryOk(d, rows[..|rows| - 1], key, k2)
    ensures EntryOk(Add(d, k, rows[|rows| - 1]), rows, key, k2)
  {
    var n := |rows| - 1;
    Dicts.PutSpec(d, k, Counted(d, k, rows[n]));
    if k2 == k {
      if !Dicts.Has(d, k) {
        NoRowsNoTotals(rows[..n], key, k);
      }
      assert Dicts.Get(Add(d, k, rows[n]), k) == Some(Counted(d, k, rows[n]));
    } else {
      assert Dicts.Get(Add(d, k, rows[n]), k2) == Dicts.Get(d, k2);
    }
  }

  /** A key no row is counted under has no wins and no games either. */
  lemma {:induction false} NoRowsNoTotals(rows: seq<Row>, key: KeyFn, k: string)
    requires CountOf(rows, key, k) == 0
    ensures WinsOf(rows, key, k) == 0 && GamesOf(rows, key, k) == 0
    decreases |rows|
  {
    if |rows| > 0 {
      NoRowsNoTotals(rows[..|rows| - 1], key, k);
    }
  }

  /** Whether a row raises: the whole aggregation raises exactly when one row does. */
  lemma {:induction false} TallyRaises(rows: seq<Row>, key: KeyFn)
    ensures Tally(rows, key).Err? <==> exists i :: 0 <= i < |rows| && key(rows[i]).Err?
    decreases |rows|
  {
    if |rows| > 0 {
      var n := |rows| - 1;
      TallyRaises(rows[..n], key);
      assert forall i :: 0 <= i < n ==> rows[..n][i] == rows[i];
    }
  }

  /** The descriptive fields of a group are those of the first list counted under its
      key. */
  predicate OpenedBy(e: Entry, xws: Json) {
    var f := NewEntry(xws);
    e.pilots == f.pilots && e.faction == f.faction && e.name == f.name && e.points == f.points
  }

  predicate FirstWith(rows: seq<Row>, key: KeyFn, k: string, i: nat) {
    i < |rows| && key(rows[i]) == Ok(Some(k)) &&
    forall j :: 0 <= j < i ==> key(rows[j]) != Ok(Some(k))
  }

  lemma {:induction false} TallyFirstInstance(rows: seq<Row>, key: KeyFn, k: string) returns (i: nat)
    requires Tally(rows, key).Ok? && Dicts.Has(Tally(rows, key).value, k)
    ensures FirstWith(rows, key, k, i) && OpenedBy(Dicts.Get(Tally(rows, key).value, k).value, rows[i].0.listJson)
    decreases |rows|
  {
    var n := |rows| - 1;
    TotalsHold(rows[..n], key);
    var d := Tally(rows[..n], key).value;
    assert EntryOk(d, rows[..n], key, k);
    match key(rows[n])
    case Ok(None) =>
      i := TallyFirstInstance(rows[..n], key, k);
      FirstWithPrefix(rows, key, k, i);
    case Ok(Some(k')) =>
      assert Tally(rows, key) == Ok(Add(d, k', rows[n]));
      if Dicts.Has(d, k) {
        i := TallyFirstInstance(rows[..n], key, k);
        FirstWithPrefix(rows, key, k, i);
        AddKeepsOpened(d, k', rows[n], k, rows[i].0.listJson);
      } else {
        assert k' == k by {
          Dicts.PutSpec(d, k', Counted(d, k', rows[n]));
        }
        i := n;
        FirstAtEnd(rows, key, k);
        AddOpens(d, k, rows[n]);
      }
  }

  /** The last row is the first one counted under a key no earlier row is counted under. */
  lemma FirstAtEnd(rows: seq<Row>, key: KeyFn, k: string)
    requires |rows| > 0 && CountOf(rows[..|rows| - 1], key, k) == 0
    requires key(rows[|rows| - 1]) == Ok(Some(k))
    ensures FirstWith(rows, key, k, |rows| - 1)
  {
    var n := |rows| - 1;
    CountOfZero(rows[..n], key, k);
    assert forall j :: 0 <= j < n ==> rows[..n][j] == rows[j];
  }

  /** Counting a row keeps the descriptive fields of every group already open. */
  lemma AddKeepsOpened(d: Dicts.Dict<string, Entry>, k': string, row: Row, k: string, xws: Json)
    requires Dicts.Distinct(d) && Dicts.Has(d, k) && OpenedBy(Dicts.Get(d, k).value, xws)
    ensures Dicts.Has(Add(d, k', row), k) && OpenedBy(Dicts.Get(Add(d, k', row), k).value, xws)
  {
    Dicts.PutSpec(d, k', Counted(d, k', row));
  }

  /** A row whose key has no group opens it with its own list. */
  lemma AddOpens(d: Dicts.Dict<string, Entry>, k: string, row: Row)
    requires Dicts.Distinct(d) && !Dicts.Has(d, k)
    ensures Dicts.Has(Add(d, k, row), k) && OpenedBy(Dicts.Get(Add(d, k, row), k).value, row.0.listJson)
  {
    Dicts.PutSpec(d, k, Counted(d, k, row));
  }

  lemma FirstWithPrefix(rows: seq<Row>, key: KeyFn, k: string, i: nat)
    requires |rows| > 0 && FirstWith(rows[..|rows| - 1], key, k, i)
    ensures FirstWith(rows, key, k, i)
  {
    assert forall j :: 0 <= j <= i ==> rows[..|rows| - 1][j] == rows[j];
  }

  /** A key counted under no row. */
  lemma {:induction false} CountOfZero(rows: seq<Row>, key: KeyFn, k: string)
    requires CountOf(rows, key, k) == 0
    ensures forall j :: 0 <= j < |rows| ==> key(rows[j]) != Ok(Some(k))
    decreases |rows|
  {
    if |rows| > 0 {
      var n := |rows| - 1;
      CountOfZero(rows[..n], key, k);
      assert forall j :: 0 <= j < n ==> rows[..n][j] == rows[j];
    }
  }

  // ---------------------------------------------------------------- the ranking

  /** One ranked list. */
  datatype ListStat = ListStat(name: Json, faction: Json, winRate: real, popularity: nat, games: int, wins: int, points: Json, pilots: Json)

  /** wins / games · 100, and 0.0 for a group without games. */
  function WinRate(wins: int, games: int): (r: real)
    ensures games <= 0 ==> r == 0.0
    ensures 0 <= wins <= games && games > 0 ==> 0.0 <= r <= 100.0
  {
    if games > 0 then (wins as real / games as real) * 100.0 else 0.0
  }

  function Summary(e: Entry): (s: ListStat)
    ensures s.popularity == e.count && s.wins == e.wins && s.games == e.games
    ensures s.name == e.name && s.faction == e.faction && s.points == e.points && s.pilots == e.pilots
    ensures s.winRate == WinRate(e.wins, e.games)
  {
    ListStat(e.name, e.faction, WinRate(e.wins, e.games), e.count, e.games, e.wins, e.points, e.pilots)
  }

  function Summaries(d: Dicts.Dict<string, Entry>): seq<ListStat> {
    Mapped(d, (kv: (string, Entry)) => Summary(kv.1))
  }

  function PopularityKey(s: ListStat): seq<real> {
    [s.popularity as real]
  }

  /** `aggregate_list_stats`: the groups, most popular first (ties in first-seen
      order), cut to `limit`. */
  function AggregateListStats(rows: seq<Row>, sel: Selection, limit: int): (r: Result<seq<ListStat>>)
    ensures r.Ok? ==> Ordered(r.value, PopularityKey, true)
    ensures r.Ok? && limit >= 0 ==> |r.value| <= limit
  {
    match Tally(rows, Keying(sel))
    case Err(m) => Err(m)
    case Ok(d) =>
      SortByOrdered(Summaries(d), PopularityKey, true);
      TakeOrdered(SortBy(Summaries(d), PopularityKey, true), limit, PopularityKey, true);
      Ok(Take(SortBy(Summaries(d), PopularityKey, true), limit))
  }

  /** The ranking is ordered by popularity, never longer than `limit`, and made of the
      groups' summaries, each at most once. */
  lemma Ranking(rows: seq<Row>, sel: Selection, limit: int)
    requires AggregateListStats(rows, sel, limit).Ok?
    ensures var r := AggregateListStats(rows, sel, limit).value;
      Ordered(r, PopularityKey, true) &&
      (limit >= 0 ==> |r| <= limit) &&
      multiset(r) <= multiset(Summaries(Tally(rows, Keying(sel)).value))
  {
    var d := Tally(rows, Keying(sel)).value;
    var s := SortBy(Summaries(d), PopularityKey, true);
    SortByOrdered(Summaries(d), PopularityKey, true);
    SortByMultiset(Summaries(d), PopularityKey, true);
    TakeOrdered(s, limit, PopularityKey, true);
    TakeMultiset(s, limit);
  }

  /** With a positive `limit`, the first list of the ranking is as popular as any
      group. */
  lemma MostPopularFirst(rows: seq<Row>, sel: Selection, limit: int, k: string)
    requires AggregateListStats(rows, sel, limit).Ok? && limit > 0
    requires Dicts.Has(Tally(rows, Keying(sel)).value, k)
    ensures var r := AggregateListStats(rows, sel, limit).value;
      |r| > 0 && r[0].popularity >= CountOf(rows, Keying(sel), k)
  {
    var key := Keying(sel);
    var d := Tally(rows, key).value;
    TallyTotals(rows, key);
    var i := Dicts.Find(d, k).value;
    var m := Summaries(d);
    var s := SortBy(m, PopularityKey, true);
    SortByOrdered(m, PopularityKey, true);
    SortByMultiset(m, PopularityKey, true);
    assert m[i] in multiset(s);
    var j :| 0 <= j < |s| && s[j] == m[i];
    if j > 0 {
      assert !Before(PopularityKey, true, s[j], s[0]);
    }
  }

  /** An all-off dict of toggles has no active format, so the list ranking applies no
      format filter at all: it equals the ranking without a selection. */
  lemma AllTogglesOffSelectsAll(rows: seq<Row>, flags: Dicts.Dict<string, bool>, limit: int)
    requires |flags| > 0 && forall i :: 0 <= i < |flags| ==> !flags[i].1
    ensures AggregateListStats(rows, Toggles(flags), limit) == AggregateListStats(rows, NoSelection, limit)
  {
    NoTrueKeys(flags);
    assert ActiveFormats(Toggles(flags)) == ActiveFormats(NoSelection);
  }

  // ---------------------------------------------------------------- key invariance

  /** Reordering a list's pilots does not change its key. */
  lemma PilotOrder(ps: seq<Json>, qs: seq<Json>)
    requires multiset(ps) == multiset(qs)
    ensures ListKey(ps) == ListKey(qs)
  {
    MappedPermutation(ps, qs, PilotEntry);
    SortStringsSpec(Mapped(ps, PilotEntry), Mapped(qs, PilotEntry));
  }

  /** Reordering a pilot's upgrade ids does not change its part of the key. */
  lemma UpgradeOrder(p: Json, q: Json)
    requires PilotName(p) == PilotName(q)
    requires multiset(UpgradeIds(p)) == multiset(UpgradeIds(q))
    ensures PilotEntry(p) == PilotEntry(q)
  {
    MappedPermutation(UpgradeIds(p), UpgradeIds(q), Str);
    SortStringsSpec(Mapped(UpgradeIds(p), Str), Mapped(UpgradeIds(q), Str));
  }

  /** A result still holding the placeholder swiss counters (-1 wins, -1 losses) and no
      cut counts -1 wins in -2 games: `x or 0` keeps -1. */
  lemma PlaceholderCounts(tid: int, name: string)
    ensures ResultWins(NewPlayerResult(tid, name, None)) == -1
    ensures ResultGames(NewPlayerResult(tid, name, None)) == -2
  {
  }

  // ---------------------------------------------------------------- the loops

  /** The upgrade ids of a pilot, gathered slot by slot. */
  method CollectUpgradeIds(p: Json) returns (ids: seq<Json>)
    ensures ids == UpgradeIds(p)
  {
    var ud := GetOr(p, "upgrades", JObj([]));
    ids := [];
    if ud.JObj? {
      var slots := ud.fields;
      var j := 0;
      while j < |slots|
        invariant 0 <= j <= |slots|
        invariant ids == SlotsIds(slots[..j])
      {
        assert slots[..j + 1][..j] == slots[..j];
        if slots[j].1.JList? {
          ids := ids + slots[j].1.items;
        }
        j := j + 1;
      }
      assert slots[..j] == slots;
    } else if ud.JList? {
      ids := ud.items;
    }
  }

  /** One pilot's part of the key. */
  method PilotEntryOf(p: Json) returns (entry: string)
    ensures entry == PilotEntry(p)
  {
    var ids := CollectUpgradeIds(p);
    var ups := SortStrings(Mapped(ids, Str));
    entry := PilotName(p) + "(" + Join(ups, ",") + ")";
  }

  /** The pilot entries of a list, or None at the first pilot that is not a dict. */
  method PilotEntriesOf(ps: seq<Json>) returns (r: Option<seq<string>>)
    ensures r.Some? <==> AllDicts(ps)
    ensures r.Some? ==> r.value == Mapped(ps, PilotEntry)
  {
    var entries: seq<string> := [];
    var i := 0;
    while i < |ps|
      invariant 0 <= i <= |ps|
      invariant AllDicts(ps[..i])
      invariant entries == Mapped(ps[..i], PilotEntry)
    {
      if !ps[i].JObj? {
        return None;
      }
      var entry := PilotEntryOf(ps[i]);
      EntriesNext(ps, i);
      entries := entries + [entry];
      i := i + 1;
    }
    assert ps[..i] == ps;
    r := Some(entries);
  }

  lemma EntriesNext(ps: seq<Json>, i: nat)
    requires i < |ps| && AllDicts(ps[..i]) && ps[i].JObj?
    ensures AllDicts(ps[..i + 1])
    ensures Mapped(ps[..i + 1], PilotEntry) == Mapped(ps[..i], PilotEntry) + [PilotEntry(ps[i])]
  {
    assert ps[..i + 1] == ps[..i] + [ps[i]];
    MappedSnoc(ps, i, PilotEntry);
  }

  /** The key of a row, with the loop over its pilots. */
  method RowKeyOf(row: Row, active: seq<string>) returns (r: Result<Option<string>>)
    ensures r == RowKey(row, active)
  {
    var (result, t) := row;
    if |active| > 0 && TournamentFormat(t) !in active {
      return Ok(None);
    }
    var xws := result.listJson;
    if !Truthy(xws) || !xws.JObj? {
      return Ok(None);
    }
    var pilots := Pilots(xws);
    if !Truthy(pilots) {
      return Ok(None);
    }
    if !pilots.JList? {
      return Err("exception");
    }
    var entries := PilotEntriesOf(pilots.items);
    if entries.None? {
      return Err("exception");
    }
    r := Ok(Some(Join(SortStrings(entries.value), "|")));
  }

  /** The result records of the groups, in the dict's order. */
  method SummariesOf(stats: Dicts.Dict<string, Entry>) returns (results: seq<ListStat>)
    ensures results == Summaries(stats)
  {
    results := [];
    var j := 0;
    while j < |stats|
      invariant 0 <= j <= |stats|
      invariant results == Summaries(stats[..j])
    {
      results := results + [Summary(stats[j].1)];
      j := j + 1;
    }
    assert stats[..j] == stats;
  }

  /** `aggregate_list_stats`, with its loop over the rows and its loop over the groups. */
  method AggregateLists(rows: seq<Row>, sel: Selection, limit: int) returns (r: Result<seq<ListStat>>)
    ensures r == AggregateListStats(rows, sel, limit)
  {
    var tally := TallyOf(rows, ActiveFormats(sel));
    match tally {
      case Err(m) => r := Err(m);
      case Ok(stats) =>
        var results := SummariesOf(stats);
        r := Ok(Take(SortBy(results, PopularityKey, true), limit));
    }
  }

  /** The loop over the rows: the groups, or the error of the first row that raises. */
  method TallyOf(rows: seq<Row>, active: seq<string>) returns (r: Result<Dicts.Dict<string, Entry>>)
    ensures r == Tally(rows, KeyingBy(active))
  {
    var key := KeyingBy(active);
    var stats: Dicts.Dict<string, Entry> := [];
    var i := 0;
    while i < |rows|
      invariant 0 <= i <= |rows|
      invariant Tally(rows[..i], key) == Ok(stats)
    {
      var rk := RowKeyOf(rows[i], active);
      TallyNext(rows, key, i, stats);
      match rk {
        case Err(m) =>
          TallyStops(rows, key, i, |rows|);
          assert rows[..|rows|] == rows;
          return Err(m);
        case Ok(None) =>
        case Ok(Some(k)) =>
          stats := Add(stats, k, rows[i]);
      }
      i := i + 1;
    }
    assert rows[..i] == rows;
    r := Ok(stats);
  }

  lemma TallyNext(rows: seq<Row>, key: KeyFn, i: nat, d: Dicts.Dict<string, Entry>)
    requires i < |rows| && Tally(rows[..i], key) == Ok(d)
    ensures key(rows[i]) == Ok(None) ==> Tally(rows[..i + 1], key) == Ok(d)
    ensures forall k :: key(rows[i]) == Ok(Some(k)) ==> Tally(rows[..i + 1], key) == Ok(Add(d, k, rows[i]))
  {
    assert rows[..i + 1][..i] == rows[..i];
  }

  /** The first row that raises decides the error of every longer prefix. */
  lemma {:induction false} TallyStops(rows: seq<Row>, key: KeyFn, i: nat, m: nat)
    requires i < m <= |rows| && Tally(rows[..i], key).Ok? && key(rows[i]).Err?
    ensures Tally(rows[..m], key) == Err(key(rows[i]).msg)
    decreases m
  {
    var p := rows[..m];
    assert p[..m - 1] == rows[..m - 1];
    assert p[m - 1] == rows[m - 1];
    if m > i + 1 {
      TallyStops(rows, key, i, m - 1);
    }
  }
}
