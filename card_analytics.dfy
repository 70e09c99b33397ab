/** The older copy of the card statistics. It counts the same way as `CardStats` and
    shares its tally, but reads fewer filters: a list of formats that is present but
    empty keeps nothing, the faction and the upgrade type are single values, and the
    search text looks only at names (and, for pilots, the ship). */
module CardAnalytics {
  import opened Wrappers
  import opened Strings
  import opened Json
  import opened Sorting
  import opened Models
  import AnalyticsFilters
  import Factions
  import FactionEnum
  import Dicts
  import XwingData
  import CardStats

  type Catalogue = XwingData.Catalogue
  type Row = CardStats.Row

  /** The request's filters; `allowedFormats` is `None` when the request has none. */
  datatype Filters = Filters(
    allowedFormats: Option<seq<string>>,
    faction: CardStats.Choice,
    upgradeType: CardStats.Choice,
    searchText: string)

  /** `allowed_formats is not None and t_fmt not in allowed_formats` drops the row. */
  predicate FormatAdmits(formats: Option<seq<string>>, t: Tournament) {
    formats.None? || AnalyticsFilters.TournamentFormat(t) in formats.value
  }

  /** `Faction.from_xws` of the older enumeration on a list's faction value; a truthy
      value that is not text raises. */
  function ListFaction(v: Json): (r: Result<Factions.Faction>)
    ensures !Truthy(v) ==> r == Ok(Factions.UNKNOWN)
    ensures v.JStr? ==> r == Ok(FactionEnum.FromXws(v.s))
    ensures Truthy(v) && !v.JStr? ==> r.Err?
  {
    if !Truthy(v) then Ok(Factions.UNKNOWN)
    else if v.JStr? then Ok(FactionEnum.FromXws(v.s))
    else Err("exception")
  }

  /** The faction filter: the list's faction id equals the one selected. A selection
      given as a list never equals an id, so it keeps no list. */
  function FactionKept(xws: Json, f: CardStats.Choice): (r: Result<bool>)
    ensures !CardStats.Active(f) ==> r == Ok(true)
    ensures CardStats.Active(f) && f.One? ==> r == match ListFaction(GetOr(xws, "faction", JStr("unknown")))
      case Ok(x) => Ok(Factions.Value(x) == f.v)
      case Err(m) => Err(m)
    ensures CardStats.Active(f) && f.Many? ==> r != Ok(true)
  {
    if !CardStats.Active(f) then Ok(true)
    else match ListFaction(GetOr(xws, "faction", JStr("unknown")))
      case Ok(x) => Ok(f.One? && Factions.Value(x) == f.v)
      case Err(m) => Err(m)
  }

  /** The pilot search: the text in the pilot's name (`get_pilot_name`), or else in its
      catalogue ship; each is lowercased only when it is looked at. */
  function PilotTextMatch(cat: Catalogue, pid: Json, text: string): (r: Result<bool>)
    ensures r.Ok? ==> XwingData.NameOf(cat, pid).Ok? && XwingData.NameOf(cat, pid).value.JStr?
    ensures r.Ok? && Contains(Lower(XwingData.NameOf(cat, pid).value.s), text) ==> r == Ok(true)
    ensures r == Ok(true) && !Contains(Lower(XwingData.NameOf(cat, pid).value.s), text) ==>
      var info := CardStats.Info(cat, pid);
      info.Ok? && GetOr(info.value, "ship", JStr("")).JStr? && Contains(Lower(GetOr(info.value, "ship", JStr("")).s), text)
  {
    match XwingData.NameOf(cat, pid)
    case Err(m) => Err(m)
    case Ok(n) =>
      if !n.JStr? then Err("exception")
      else match CardStats.Info(cat, pid)
        case Err(m) => Err(m)
        case Ok(info) =>
          if Contains(Lower(n.s), text) then Ok(true)
          else
            var s := GetOr(info, "ship", JStr(""));
            if s.JStr? then Ok(Contains(Lower(s.s), text)) else Err("exception")
  }

  /** One pilot of a list in the pilots mode. */
  function PilotHit(p: Json, lf: Json, text: string, cat: Catalogue, w: int, g: int): (r: Result<seq<CardStats.Hit>>)
    ensures !p.JObj? ==> r.Err?
    ensures p.JObj? && !Truthy(CardStats.PilotId(p)) ==> r == Ok([])
    ensures p.JObj? && Truthy(CardStats.PilotId(p)) && text != "" && PilotTextMatch(cat, CardStats.PilotId(p), text) == Ok(false) ==> r == Ok([])
    ensures r.Ok? && |r.value| > 0 && text != "" ==> PilotTextMatch(cat, CardStats.PilotId(p), text) == Ok(true)
    ensures r.Ok? ==> |r.value| <= 1 && forall h :: h in r.value ==>
      h.key == CardStats.PilotId(p) && Truthy(h.key) && h.wins == w && h.games == g
  {
    if !p.JObj? then Err("exception")
    else
      var pid := CardStats.PilotId(p);
      if !Truthy(pid) then Ok([])
      else
        var ok := if text == "" then Ok(true) else PilotTextMatch(cat, pid, text);
        match ok
        case Err(m) => Err(m)
        case Ok(false) => Ok([])
        case Ok(true) =>
          match CardStats.Info(cat, pid)
          case Err(m) => Err(m)
          case Ok(info) => Ok([CardStats.Hit(pid, CardStats.PilotMetaOf(info, pid, lf), w, g)])
  }

  /** The type filter of a slot: equal to the selected type up to case. A selection given
      as a list raises (`list.lower()`). */
  function TypeKept(slot: string, f: CardStats.Choice): (r: Result<bool>)
    ensures !CardStats.Active(f) ==> r == Ok(true)
    ensures CardStats.Active(f) && f.One? ==> r == Ok(Lower(slot) == Lower(f.v))
    ensures CardStats.Active(f) && f.Many? ==> r.Err?
  {
    if !CardStats.Active(f) then Ok(true)
    else if f.One? then Ok(Lower(slot) == Lower(f.v))
    else Err("exception")
  }

  /** One upgrade of a slot: the text must occur in its name (`get_upgrade_name`). */
  function UpgradeHit(u: Json, t: string, text: string, cat: Catalogue, w: int, g: int): (r: Result<seq<CardStats.Hit>>)
    ensures r.Ok? && |r.value| > 0 && text != "" ==>
      XwingData.NameOf(cat, u).Ok? && XwingData.NameOf(cat, u).value.JStr? && Contains(Lower(XwingData.NameOf(cat, u).value.s), text)
    ensures r.Ok? ==> |r.value| <= 1 && forall h :: h in r.value ==>
      h.key == u && h.wins == w && h.games == g && h.meta.UpgradeMeta? && h.meta.kind == t
  {
    var ok := if text == "" then Ok(true)
              else match XwingData.NameOf(cat, u)
                case Err(m) => Err(m)
                case Ok(n) => if n.JStr? then Ok(Contains(Lower(n.s), text)) else Err("exception");
    match ok
    case Err(m) => Err(m)
    case Ok(false) => Ok([])
    case Ok(true) =>
      match CardStats.Info(cat, u)
      case Err(m) => Err(m)
      case Ok(info) =>
        Ok([CardStats.Hit(u, CardStats.UpgradeMeta(GetOr(info, "name", u), t, GetOr(info, "image", JStr("")), GetOr(info, "cost", JInt(0))), w, g)])
  }

  /** What every hit of one list carries: the list's outcome. */
  predicate Carries(h: CardStats.Hit, w: int, g: int) {
    h.wins == w && h.games == g
  }

  function SlotHits(slot: (string, Json), f: Filters, cat: Catalogue, w: int, g: int): (r: Result<seq<CardStats.Hit>>)
    ensures TypeKept(slot.0, f.upgradeType) == Ok(false) ==> r == Ok([])
    ensures TypeKept(slot.0, f.upgradeType).Err? ==> r.Err?
    ensures r.Ok? ==> forall h :: h in r.value ==> Carries(h, w, g)
  {
    match TypeKept(slot.0, f.upgradeType)
    case Err(m) => Err(m)
    case Ok(false) => Ok([])
    case Ok(true) =>
      match Iter(slot.1)
      case None => Err("exception")
      case Some(us) =>
        var u := (x: Json) => UpgradeHit(x, slot.0, Lower(f.searchText), cat, w, g);
        CardStats.GatherKeeps(us, u, (h: CardStats.Hit) => Carries(h, w, g));
        CardStats.Gather(us, u)
  }

  /** One pilot of a list in the upgrades mode: `p.get("upgrades", {})` without a
      fallback, so a loadout of `None` raises. */
  function UpgradePilotHits(p: Json, f: Filters, cat: Catalogue, w: int, g: int): (r: Result<seq<CardStats.Hit>>)
    ensures !p.JObj? || !GetOr(p, "upgrades", JObj([])).JObj? ==> r.Err?
    ensures r.Ok? ==> forall h :: h in r.value ==> Carries(h, w, g)
  {
    if !p.JObj? then Err("exception")
    else
      var u := GetOr(p, "upgrades", JObj([]));
      if !u.JObj? then Err("exception")
      else
        var s := (slot: (string, Json)) => SlotHits(slot, f, cat, w, g);
        CardStats.GatherKeeps(u.fields, s, (h: CardStats.Hit) => Carries(h, w, g));
        CardStats.Gather(u.fields, s)
  }

  /** One row. */
  function RowHits(row: Row, f: Filters, mode: CardStats.Mode, pilots: Catalogue, upgrades: Catalogue)
    : (r: Result<seq<CardStats.Hit>>)
    ensures !FormatAdmits(f.allowedFormats, row.1) ==> r == Ok([])
    ensures !Truthy(row.0.listJson) || !row.0.listJson.JObj? || mode == CardStats.OTHER_MODE ==> r == Ok([])
    ensures mode == CardStats.PILOTS && FactionKept(row.0.listJson, f.faction) == Ok(false) ==> r == Ok([])
    ensures r.Ok? ==> forall h :: h in r.value ==> (h.wins, h.games) == CardStats.Outcome(row.0)
  {
    var xws := row.0.listJson;
    if !FormatAdmits(f.allowedFormats, row.1) || !Truthy(xws) || !xws.JObj? || mode == CardStats.OTHER_MODE then Ok([])
    else
      var (w, g) := CardStats.Outcome(row.0);
      if mode == CardStats.PILOTS then
        match FactionKept(xws, f.faction)
        case Err(m) => Err(m)
        case Ok(false) => Ok([])
        case Ok(true) =>
          match Iter(GetOr(xws, "pilots", JList([])))
          case None => Err("exception")
          case Some(ps) =>
            var lf := GetOr(xws, "faction", JStr("unknown"));
            var h := (p: Json) => PilotHit(p, lf, Lower(f.searchText), pilots, w, g);
            CardStats.GatherKeeps(ps, h, (x: CardStats.Hit) => Carries(x, w, g));
            CardStats.Gather(ps, h)
      else
        match Iter(GetOr(xws, "pilots", JList([])))
        case None => Err("exception")
        case Some(ps) =>
          var h := (p: Json) => UpgradePilotHits(p, f, upgrades, w, g);
          CardStats.GatherKeeps(ps, h, (x: CardStats.Hit) => Carries(x, w, g));
          CardStats.Gather(ps, h)
  }

  /** A list of formats that is present but empty keeps no row. */
  lemma EmptyFormatsKeepNothing(row: Row, f: Filters, mode: CardStats.Mode, pilots: Catalogue, upgrades: Catalogue)
    requires f.allowedFormats == Some([])
    ensures RowHits(row, f, mode, pilots, upgrades) == Ok([])
  {
  }

  function Reader(f: Filters, mode: CardStats.Mode, pilots: Catalogue, upgrades: Catalogue): Row -> Result<seq<CardStats.Hit>> {
    (row: Row) => RowHits(row, f, mode, pilots, upgrades)
  }

  function Hits(rows: seq<Row>, f: Filters, mode: CardStats.Mode, pilots: Catalogue, upgrades: Catalogue)
    : Result<seq<CardStats.Hit>>
  {
    CardStats.Gather(rows, Reader(f, mode, pilots, upgrades))
  }

  /** The results loop: every entry with its win rate, in dict order. */
  function Results(d: CardStats.Stats): (r: seq<CardStats.CardResult>)
    ensures |r| == |d| && forall i :: 0 <= i < |d| ==> r[i] == CardStats.Summarized(d[i].1)
  {
    Mapped(d, (kv: (Json, CardStats.CardStat)) => CardStats.Summarized(kv.1))
  }

  /** `aggregate_card_stats` of this copy over the rows the query returns. */
  function AggregateCardStats(rows: seq<Row>, f: Filters, s: CardStats.SortMode, mode: CardStats.Mode,
                              pilots: Catalogue, upgrades: Catalogue): (r: Result<seq<CardStats.CardResult>>)
    ensures r.Ok? ==> Ordered(r.value, CardStats.SortKey(s), true)
  {
    match Hits(rows, f, mode, pilots, upgrades)
    case Err(m) => Err(m)
    case Ok(hits) =>
      SortByOrdered(Results(CardStats.Tally(hits)), CardStats.SortKey(s), true);
      Ok(SortBy(Results(CardStats.Tally(hits)), CardStats.SortKey(s), true))
  }

  /** The results are ordered by the sort key, descending, one per card counted, each
      holding its card's reference totals. */
  lemma Ranking(rows: seq<Row>, f: Filters, s: CardStats.SortMode, mode: CardStats.Mode, pilots: Catalogue, upgrades: Catalogue)
    requires Hits(rows, f, mode, pilots, upgrades).Ok?
    ensures var r := AggregateCardStats(rows, f, s, mode, pilots, upgrades).value;
      var hits := Hits(rows, f, mode, pilots, upgrades).value;
      Ordered(r, CardStats.SortKey(s), true) && |r| == |CardStats.Seen(hits)| &&
      forall x :: x in r ==> CardStats.Reported(hits, x)
  {
    var hits := Hits(rows, f, mode, pilots, upgrades).value;
    var d := CardStats.Tally(hits);
    CardStats.TallySpec(hits);
    var xs := Results(d);
    SortByOrdered(xs, CardStats.SortKey(s), true);
    SortByMultiset(xs, CardStats.SortKey(s), true);
    var r := SortBy(xs, CardStats.SortKey(s), true);
    assert |multiset(r)| == |multiset(xs)|;
    forall x | x in r ensures CardStats.Reported(hits, x) {
      assert x in multiset(xs);
      var i :| 0 <= i < |xs| && xs[i] == x;
      EntryReported(hits, i);
    }
  }

  lemma EntryReported(hits: seq<CardStats.Hit>, i: nat)
    requires i < |CardStats.Tally(hits)|
    ensures CardStats.Reported(hits, Results(CardStats.Tally(hits))[i])
  {
    var d := CardStats.Tally(hits);
    CardStats.TallySpec(hits);
    Dicts.FindDistinct(d, d[i].0, i);
    assert Dicts.KeysOf(d)[i] == d[i].0;
    assert Dicts.Get(d, d[i].0) == CardStats.Expected(hits, d[i].0);
  }

  // ---------------------------------------------------------------- the two copies

  /** No filter of this copy. */
  const NoFilters := Filters(None, CardStats.Unset, CardStats.Unset, "")

  /** No filter of the newer copy. */
  const NoCardFilters := CardStats.Filters([], CardStats.Unset, CardStats.Unset, "", CardStats.Unset, CardStats.Unset, "", "")

  /** Without filters the two copies count the same pilot occurrences with the same
      metadata: in the pilots mode they differ only in the filters they read. */
  lemma CopiesAgreeOnPilots(rows: seq<Row>, pilots: Catalogue, upgrades: Catalogue, title: string -> string)
    ensures Hits(rows, NoFilters, CardStats.PILOTS, pilots, upgrades) ==
            CardStats.Hits(rows, NoCardFilters, CardStats.PILOTS, pilots, upgrades, title)
  {
    var c := CardStats.Setup(NoCardFilters);
    assert c.upgradeId == "" && c.text == "" && c.ships == [] && c.shipText.None? && c.initiatives == [] && c.factions == [] && c.formats == [] by {
      assert CardStats.StripChar("", '"') == "";
      assert CardStats.ParsedInts([]) == [];
    }
    forall row | row in rows
      ensures Reader(NoFilters, CardStats.PILOTS, pilots, upgrades)(row) ==
              CardStats.Reader(c, CardStats.PILOTS, pilots, upgrades, title)(row)
    {
      RowsAgree(row, c, pilots, upgrades, title);
    }
    GatherSame(rows, Reader(NoFilters, CardStats.PILOTS, pilots, upgrades), CardStats.Reader(c, CardStats.PILOTS, pilots, upgrades, title));
  }

  lemma RowsAgree(row: Row, c: CardStats.Context, pilots: Catalogue, upgrades: Catalogue, title: string -> string)
    requires c.upgradeId == "" && c.text == "" && c.ships == [] && c.shipText.None? && c.initiatives == []
    requires c.factions == [] && c.formats == []
    ensures RowHits(row, NoFilters, CardStats.PILOTS, pilots, upgrades) ==
            CardStats.RowHits(row, c, CardStats.PILOTS, pilots, upgrades, title)
  {
    var xws := row.0.listJson;
    if Truthy(xws) && xws.JObj? {
      var (w, g) := CardStats.Outcome(row.0);
      match Iter(GetOr(xws, "pilots", JList([])))
      case None =>
      case Some(ps) =>
        var lf := GetOr(xws, "faction", JStr("unknown"));
        var a := (p: Json) => PilotHit(p, lf, "", pilots, w, g);
        var b := (p: Json) => CardStats.PilotHit(p, lf, c, pilots, w, g);
        forall p | p in ps ensures a(p) == b(p) {
        }
        GatherSame(ps, a, b);
    }
  }

  /** Gathering with two readers that agree on every element gives the same hits. */
  lemma {:induction false} GatherSame<T>(xs: seq<T>, a: T -> Result<seq<CardStats.Hit>>, b: T -> Result<seq<CardStats.Hit>>)
    requires forall x :: x in xs ==> a(x) == b(x)
    ensures CardStats.Gather(xs, a) == CardStats.Gather(xs, b)
    decreases |xs|
  {
    if |xs| > 0 {
      GatherSame(xs[..|xs| - 1], a, b);
      assert xs[|xs| - 1] in xs;
    }
  }

  // ---------------------------------------------------------------- the row loop as written

  /** One row as the loop writes it. The two sums come before the mode test and add the
      cut counts unguarded, so a row that passes the format and list checks raises in
      every mode when either cut count is `None`. */
  function RowHitsAsWritten(row: Row, f: Filters, mode: CardStats.Mode, pilots: Catalogue, upgrades: Catalogue)
    : (r: Result<seq<CardStats.Hit>>)
    ensures !FormatAdmits(f.allowedFormats, row.1) || !Truthy(row.0.listJson) || !row.0.listJson.JObj? ==> r == Ok([])
    ensures (FormatAdmits(f.allowedFormats, row.1) && Truthy(row.0.listJson) && row.0.listJson.JObj? &&
             (row.0.cutWins.None? || row.0.cutLosses.None?)) ==> r.Err?
    ensures row.0.cutWins.Some? && row.0.cutLosses.Some? ==> r == RowHits(row, f, mode, pilots, upgrades)
  {
    var xws := row.0.listJson;
    if !FormatAdmits(f.allowedFormats, row.1) || !Truthy(xws) || !xws.JObj? then Ok([])
    else match CardStats.OutcomeAsWritten(row.0)
      case Err(m) => Err(m)
      case Ok(_) => RowHits(row, f, mode, pilots, upgrades)
  }

  function ReaderAsWritten(f: Filters, mode: CardStats.Mode, pilots: Catalogue, upgrades: Catalogue): Row -> Result<seq<CardStats.Hit>> {
    (row: Row) => RowHitsAsWritten(row, f, mode, pilots, upgrades)
  }

  function HitsAsWritten(rows: seq<Row>, f: Filters, mode: CardStats.Mode, pilots: Catalogue, upgrades: Catalogue)
    : Result<seq<CardStats.Hit>>
  {
    CardStats.Gather(rows, ReaderAsWritten(f, mode, pilots, upgrades))
  }

  /** `aggregate_card_stats` of this copy as written: wherever it returns, it returns what
      the corrected reading does. */
  function AggregateCardStatsAsWritten(rows: seq<Row>, f: Filters, s: CardStats.SortMode, mode: CardStats.Mode,
                                       pilots: Catalogue, upgrades: Catalogue): (r: Result<seq<CardStats.CardResult>>)
    ensures r.Ok? ==> r == AggregateCardStats(rows, f, s, mode, pilots, upgrades)
  {
    match HitsAsWritten(rows, f, mode, pilots, upgrades)
    case Err(m) => Err(m)
    case Ok(hits) =>
      GatherWhereOk(rows, ReaderAsWritten(f, mode, pilots, upgrades), Reader(f, mode, pilots, upgrades));
      AggregateCardStats(rows, f, s, mode, pilots, upgrades)
  }

  /** Two readers that agree wherever the first succeeds gather the same hits whenever the
      first gathering succeeds. */
  lemma {:induction false} GatherWhereOk<T>(xs: seq<T>, a: T -> Result<seq<CardStats.Hit>>, b: T -> Result<seq<CardStats.Hit>>)
    requires forall x :: x in xs && a(x).Ok? ==> a(x) == b(x)
    requires CardStats.Gather(xs, a).Ok?
    ensures CardStats.Gather(xs, b) == CardStats.Gather(xs, a)
    decreases |xs|
  {
    if |xs| > 0 {
      assert xs[|xs| - 1] in xs;
      GatherWhereOk(xs[..|xs| - 1], a, b);
    }
  }

  /** When every row has both cut counts, the code as written and the corrected reading
      give the same statistics. */
  lemma AsWrittenAgreesWithCuts(rows: seq<Row>, f: Filters, s: CardStats.SortMode, mode: CardStats.Mode,
                                pilots: Catalogue, upgrades: Catalogue)
    requires forall row :: row in rows ==> row.0.cutWins.Some? && row.0.cutLosses.Some?
    ensures AggregateCardStatsAsWritten(rows, f, s, mode, pilots, upgrades) == AggregateCardStats(rows, f, s, mode, pilots, upgrades)
  {
    GatherSame(rows, ReaderAsWritten(f, mode, pilots, upgrades), Reader(f, mode, pilots, upgrades));
  }

  /** As written, the first admitted dict-list row without cut counts ends the whole
      aggregation with the error, in every mode. */
  lemma CutlessRowAborts(rows: seq<Row>, i: nat, f: Filters, s: CardStats.SortMode, mode: CardStats.Mode,
                         pilots: Catalogue, upgrades: Catalogue)
    requires i < |rows| && HitsAsWritten(rows[..i], f, mode, pilots, upgrades).Ok?
    requires FormatAdmits(f.allowedFormats, rows[i].1) && Truthy(rows[i].0.listJson) && rows[i].0.listJson.JObj?
    requires rows[i].0.cutWins.None? || rows[i].0.cutLosses.None?
    ensures AggregateCardStatsAsWritten(rows, f, s, mode, pilots, upgrades).Err?
  {
    CardStats.GatherStops(rows, ReaderAsWritten(f, mode, pilots, upgrades), i, |rows|);
    assert rows[..|rows|] == rows;
  }

  /** A player who missed the cut, with a list of no pilots: as written the aggregation
      raises in every mode, where the corrected reading counts nothing for it. */
  lemma CutlessListRaises(name: string, t: Tournament, mode: CardStats.Mode, pilots: Catalogue, upgrades: Catalogue)
    ensures var p := NewPlayerResult(1, name, None).(swissWins := 3, swissLosses := 2,
                                                     listJson := JObj([("pilots", JList([]))]));
      HitsAsWritten([(p, t)], NoFilters, mode, pilots, upgrades).Err? &&
      Hits([(p, t)], NoFilters, mode, pilots, upgrades) == Ok([])
  {
    var p := NewPlayerResult(1, name, None).(swissWins := 3, swissLosses := 2,
                                             listJson := JObj([("pilots", JList([]))]));
    assert GetOr(p.listJson, "pilots", JList([])) == JList([]);
    assert Iter(JList([])) == Some([]);
    assert RowHits((p, t), NoFilters, mode, pilots, upgrades) == Ok([]);
    assert [(p, t)][..0] == [];
    var read := Reader(NoFilters, mode, pilots, upgrades);
    assert read((p, t)) == Ok([]);
    assert CardStats.Gather([(p, t)][..0], read) == Ok([]);
    var none: seq<CardStats.Hit> := [];
    assert CardStats.Gather([(p, t)], read) == Ok(none + none);
    assert none + none == none;
    assert Hits([(p, t)], NoFilters, mode, pilots, upgrades) == CardStats.Gather([(p, t)], read);
  }

  /** The loops of this copy, over the shared gathering and counting loops. */
  method AggregateCardStatsOf(rows: seq<Row>, f: Filters, s: CardStats.SortMode, mode: CardStats.Mode,
                              pilots: Catalogue, upgrades: Catalogue) returns (r: Result<seq<CardStats.CardResult>>)
    ensures r == AggregateCardStats(rows, f, s, mode, pilots, upgrades)
  {
    var d := CardStats.TallyOf(rows, Reader(f, mode, pilots, upgrades));
    if d.Err? {
      return Err(d.msg);
    }
    var rs := ResultsOf(d.value);
    r := Ok(SortBy(rs, CardStats.SortKey(s), true));
  }

  /** The results loop. */
  method ResultsOf(d: CardStats.Stats) returns (rs: seq<CardStats.CardResult>)
    ensures rs == Results(d)
  {
    rs := [];
    var i := 0;
    while i < |d|
      invariant 0 <= i <= |d|
      invariant |rs| == i && forall j :: 0 <= j < i ==> rs[j] == CardStats.Summarized(d[j].1)
    {
      rs := rs + [CardStats.Summarized(d[i].1)];
      i := i + 1;
    }
  }
}
