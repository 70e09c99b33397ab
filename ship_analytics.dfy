/** Ship statistics (`aggregate_ship_stats`): every (ship, faction) pair of the pilot
    catalogue is a group; each visible pilot of a counted list adds that list's wins and
    games to its ship's group, and a group counts the distinct lists it appeared in. */
module ShipAnalytics {
  import opened Wrappers
  import opened Strings
  import opened Json
  import opened Sorting
  import opened Models
  import SortingOrder
  import AnalyticsFilters
  import Dicts
  import Factions

  /** `load_all_pilots`: pilot xws id to pilot info, in insertion order. */
  type Catalogue = Dicts.Dict<string, Json>

  /** `(ship_xws, faction_xws)` */
  type ShipKey = (Json, string)

  /** `(tournament_id, player_name)` */
  type ListId = (int, string)

  /** A tournament's location record; a missing part is "". */
  datatype Place = Place(continent: string, country: string, city: string)

  /** One row of the query: a result, its tournament and the tournament's location. */
  type Row = (PlayerResult, Tournament, Option<Place>)

  /** The `filters` dict; an absent or empty date bound is `None`. */
  datatype Filters = Filters(
    allowedFormats: Option<seq<string>>,
    dateStart: Option<int>,
    dateEnd: Option<int>,
    continents: seq<string>,
    countries: seq<string>,
    cities: seq<string>,
    factions: seq<string>,
    ships: seq<string>)

  // ---------------------------------------------------------------- factions

  /** The faction key the code means to use: `Faction.from_xws(s).value`. */
  function FactionKey(s: string): (r: string)
    ensures Factions.Normal(r)
    ensures Factions.FromXws(r) == Factions.FromXws(s)
  {
    Factions.ValueNormal(Factions.FromXws(s));
    Factions.FromXwsIdempotent(s);
    Factions.Value(Factions.FromXws(s))
  }

  /** A faction field resolved as intended. A falsy value reads as UNKNOWN; any other
      value that is not text raises in `from_xws` and again in the handler's `.lower()`. */
  function ResolveFaction(v: Json): (r: Result<string>)
    ensures v.JStr? ==> r == Ok(FactionKey(v.s))
    ensures !v.JStr? ==> (r.Ok? <==> !Truthy(v))
    ensures r.Ok? ==> Factions.Normal(r.value)
  {
    match v
    case JStr(s) => Ok(FactionKey(s))
    case _ => if Truthy(v) then Err("exception") else Ok("unknown")
  }

  /** The faction field as the code resolves it. `Faction` members have no `xws`
      attribute, so `faction_enum.xws` always raises AttributeError and the handler's
      `faction.lower().replace(" ", "")` is the key; a value that is not text raises
      there. */
  function ResolveFactionAsWritten(v: Json): (r: Result<string>)
    ensures r.Ok? <==> v.JStr?
    ensures r.Ok? ==> ' ' !in r.value && |r.value| <= |v.s|
  {
    match v
    case JStr(s) =>
      ReplaceRemovesChar(Lower(s), ' ');
      Factions.ReplaceShrinks(Lower(s), ' ');
      Ok(Replace(Lower(s), " ", ""))
    case _ => Err("exception")
  }

  /** The alias "rebel" shows the difference: as written a list of faction "rebel" is
      keyed under "rebel", while the catalogue's "Rebel Alliance" keys its ships under
      "rebelalliance", so such a list reaches no group. */
  lemma AliasKeyLost()
    ensures ResolveFactionAsWritten(JStr("rebel")) == Ok("rebel")
    ensures ResolveFactionAsWritten(JStr("Rebel Alliance")) == Ok("rebelalliance")
  {
    RebelAsWritten();
    RebelAllianceAsWritten();
  }

  lemma RebelAsWritten()
    ensures ResolveFactionAsWritten(JStr("rebel")) == Ok("rebel")
  {
    AsWrittenText("rebel");
    assert Lower("rebel") == "rebel";
    ReplaceCharAbsent("rebel", ' ');
  }

  lemma RebelAllianceAsWritten()
    ensures ResolveFactionAsWritten(JStr("Rebel Alliance")) == Ok("rebelalliance")
  {
    var lowered := "rebel" + " " + "alliance";
    assert ResolveFactionAsWritten(JStr("Rebel Alliance")) == Ok(Replace(lowered, " ", "")) by {
      AsWrittenText("Rebel Alliance");
      LowerRebelAlliance();
    }
    RebelAllianceJoined();
  }

  lemma RebelAllianceJoined()
    ensures Replace("rebel" + " " + "alliance", " ", "") == "rebelalliance"
  {
    assert ' ' !in "rebel" && ' ' !in "alliance";
    DropSpace("rebel", "alliance");
    assert "rebel" + "alliance" == "rebelalliance";
  }

  lemma AsWrittenText(s: string)
    ensures ResolveFactionAsWritten(JStr(s)) == Ok(Replace(Lower(s), " ", ""))
  {
  }

  lemma LowerRebelAlliance()
    ensures Lower("Rebel Alliance") == "rebel" + " " + "alliance"
  {
    assert "Rebel Alliance" == "Rebel" + " Alliance";
    LowerAppend("Rebel", " Alliance");
  }

  lemma DropSpace(a: string, b: string)
    requires ' ' !in a && ' ' !in b
    ensures Replace(a + " " + b, " ", "") == a + b
  {
    ReplaceCharJoin(a, b, ' ');
  }

  /** Read through `from_xws`, the alias and the label give the same key. */
  lemma AliasKeyKept()
    ensures ResolveFaction(JStr("rebel")) == Ok("rebelalliance")
    ensures ResolveFaction(JStr("Rebel Alliance")) == Ok("rebelalliance")
  {
    RebelAlias();
    Factions.FromLabel(Factions.REBEL);
  }

  lemma RebelAlias()
    ensures Factions.FromXws("rebel") == Factions.REBEL
  {
    RebelNormal();
    RebelNotDirect();
    assert Factions.AliasMatch("rebel", Factions.Aliases) == Some(Factions.REBEL) by {
      ContainsSelf("rebel");
      assert Factions.Aliases[0] == ("rebel", Factions.REBEL);
    }
  }

  lemma RebelNormal()
    ensures Factions.Normalize("rebel") == "rebel"
  {
    RebelLower();
    Factions.WordNormalizes("rebel", "rebel");
  }

  lemma RebelLower()
    ensures Lower("rebel") == "rebel" && Factions.Normal("rebel")
  {
  }

  lemma RebelNotDirect()
    ensures Factions.DirectMatch("rebel", Factions.AllFactions) == None
  {
    Factions.IdLengths();
  }

  /** On the faction ids themselves the code as written and as intended agree. */
  lemma AsWrittenAgreesOnIds(f: Factions.Faction)
    ensures ResolveFactionAsWritten(JStr(Factions.Value(f))) == ResolveFaction(JStr(Factions.Value(f)))
    ensures ResolveFaction(JStr(Factions.Value(f))) == Ok(Factions.Value(f))
  {
    var v := Factions.Value(f);
    Factions.ValueNormal(f);
    assert Lower(v) == v;
    ReplaceCharAbsent(v, ' ');
    Factions.FromValue(f);
  }

  // ---------------------------------------------------------------- the groups

  /** A group: the ship and faction it was opened with, and its running totals. */
  datatype ShipStat = ShipStat(
    shipName: Json,
    shipXws: Json,
    faction: string,
    factionXws: string,
    wins: int,
    games: int,
    lists: set<ListId>)

  type Groups = Dicts.Dict<ShipKey, ShipStat>

  /** The group a catalogue pilot belongs to: `None` for a pilot without ship or faction,
      `Err` where `p_info.get`, the faction or the key's hash raises. */
  function CatalogueKey(info: Json): (r: Result<Option<ShipKey>>)
    ensures r == Ok(None) <==>
      info.JObj? && (!Truthy(GetOr(info, "ship_xws", JStr(""))) || !Truthy(GetOr(info, "faction", JStr(""))))
    ensures r.Ok? && r.value.Some? ==>
      r.value.value.0 == GetOr(info, "ship_xws", JStr("")) && Truthy(r.value.value.0) &&
      Factions.Normal(r.value.value.1)
  {
    if !info.JObj? then Err("exception")
    else
      var ship := GetOr(info, "ship_xws", JStr(""));
      var faction := GetOr(info, "faction", JStr(""));
      if !Truthy(ship) || !Truthy(faction) then Ok(None)
      else match ResolveFaction(faction)
        case Err(m) => Err(m)
        case Ok(fx) => if Hashable(ship) then Ok(Some((ship, fx))) else Err("exception")
  }

  /** A new group at zero. */
  function NewStat(info: Json, k: ShipKey): ShipStat {
    ShipStat(GetOr(info, "ship", JStr("Unknown Ship")), k.0, k.1, k.1, 0, 0, {})
  }

  /** How a catalogue pilot is keyed; the model reads it through `CatalogueKey`. */
  type CatKeyFn = Json -> Result<Option<ShipKey>>

  /** One catalogue pilot: opens its group when the key is new. */
  function Open(d: Groups, info: Json, key: CatKeyFn): Result<Groups> {
    match key(info)
    case Err(m) => Err(m)
    case Ok(None) => Ok(d)
    case Ok(Some(k)) => Ok(if Dicts.Has(d, k) then d else Dicts.Put(d, k, NewStat(info, k)))
  }

  /** The groups before any result is read. */
  function Init(cat: Catalogue, key: CatKeyFn): Result<Groups> {
    if |cat| == 0 then Ok([])
    else match Init(cat[..|cat| - 1], key)
      case Err(m) => Err(m)
      case Ok(d) => Open(d, cat[|cat| - 1].1, key)
  }

  /** Every group is at zero, with the ship and faction of its own key. */
  predicate Zeroed(d: Groups) {
    forall i :: 0 <= i < |d| ==>
      d[i].1.wins == 0 && d[i].1.games == 0 && d[i].1.lists == {} &&
      d[i].1.shipXws == d[i].0.0 && d[i].1.factionXws == d[i].0.1 && d[i].1.faction == d[i].0.1
  }

  predicate FromCatalogue(cat: Catalogue, key: CatKeyFn, k: ShipKey) {
    exists i :: 0 <= i < |cat| && key(cat[i].1) == Ok(Some(k))
  }

  /** Opening a group keeps the groups distinct and zeroed and adds exactly the
      pilot's key. */
  lemma OpenGroups(d: Groups, info: Json, key: CatKeyFn)
    requires Dicts.Distinct(d) && Zeroed(d) && Open(d, info, key).Ok?
    ensures Dicts.Distinct(Open(d, info, key).value) && Zeroed(Open(d, info, key).value)
    ensures forall k :: Dicts.Has(Open(d, info, key).value, k) <==> Dicts.Has(d, k) || key(info) == Ok(Some(k))
  {
    match key(info)
    case Ok(None) =>
    case Ok(Some(k)) =>
      if !Dicts.Has(d, k) {
        var r := d + [(k, NewStat(info, k))];
        assert Open(d, info, key).value == r;
        forall k' ensures Dicts.Has(r, k') <==> Dicts.Has(d, k') || k' == k {
          Dicts.HasAppend(d, k, NewStat(info, k), k');
        }
      }
  }

  /** The catalogue yields one zeroed group per distinct (ship, faction) pair it names,
      and no other. */
  lemma {:induction false} InitGroups(cat: Catalogue, key: CatKeyFn)
    requires Init(cat, key).Ok?
    ensures Dicts.Distinct(Init(cat, key).value) && Zeroed(Init(cat, key).value)
    ensures forall k :: Dicts.Has(Init(cat, key).value, k) <==> FromCatalogue(cat, key, k)
    decreases |cat|
  {
    if |cat| > 0 {
      var n := |cat| - 1;
      InitGroups(cat[..n], key);
      var d := Init(cat[..n], key).value;
      OpenGroups(d, cat[n].1, key);
      forall k ensures FromCatalogue(cat, key, k) <==> FromCatalogue(cat[..n], key, k) || key(cat[n].1) == Ok(Some(k)) {
        if FromCatalogue(cat, key, k) {
          var i :| 0 <= i < |cat| && key(cat[i].1) == Ok(Some(k));
          if i < n {
            assert cat[..n][i] == cat[i];
          }
        }
        if FromCatalogue(cat[..n], key, k) {
          var i :| 0 <= i < n && key(cat[..n][i].1) == Ok(Some(k));
          assert cat[..n][i] == cat[i];
        }
      }
    }
  }

  // ---------------------------------------------------------------- the rows

  /** The location filters: with any of them set, a tournament needs a location whose
      set parts are among the allowed ones. */
  predicate InPlaces(place: Option<Place>, f: Filters) {
    if |f.continents| == 0 && |f.countries| == 0 && |f.cities| == 0 then true
    else
      place.Some? &&
      (|f.continents| > 0 ==> place.value.continent != "" && place.value.continent in f.continents) &&
      (|f.countries| > 0 ==> place.value.country != "" && place.value.country in f.countries) &&
      (|f.cities| > 0 ==> place.value.city != "" && place.value.city in f.cities)
  }

  /** The tournament filters a row must pass: format (an allowed list that is present
      but empty admits nothing), date range and location. */
  predicate RowPasses(row: Row, f: Filters) {
    var t := row.1;
    (f.allowedFormats.Some? ==> AnalyticsFilters.TournamentFormat(t) in f.allowedFormats.value) &&
    (f.dateStart.Some? ==> t.date >= f.dateStart.value) &&
    (f.dateEnd.Some? ==> t.date <= f.dateEnd.value) &&
    InPlaces(row.2, f)
  }

  /** A flag of a pilot's info, read for truthiness; absent is false. */
  predicate Flag(info: Json, k: string) {
    Truthy(GetOr(info, k, JBool(false)))
  }

  /** Whether a pilot is shown, as the card browser decides. */
  predicate Visible(info: Json, allowed: Option<seq<string>>, src: DataSource) {
    var legal := Flag(info, "valid_in_standard");
    var wild := Flag(info, "wildspace");
    if allowed.Some? && |allowed.value| > 0 then
      var a := allowed.value;
      (("xwa" in a || "amg" in a) && legal) ||
      ("wildspace" in a && wild) ||
      (("xwa_epic" in a || "legacy_epic" in a) && Flag(info, "epic")) ||
      (src == LEGACY && ("legacy_x2po" in a || "legacy_xlc" in a || "ffg" in a))
    else legal || wild
  }

  /** With no format selected a pilot is shown exactly when it is standard-legal or
      wild space. */
  lemma VisibleWithoutFormats(info: Json, allowed: Option<seq<string>>, src: DataSource)
    requires allowed.None? || allowed.value == []
    ensures Visible(info, allowed, src) <==> Flag(info, "valid_in_standard") || Flag(info, "wildspace")
  {
  }

  /** A selected format shows a pilot only through one of the four rules. */
  lemma VisibleReasons(info: Json, a: seq<string>, src: DataSource)
    requires |a| > 0
    ensures Visible(info, Some(a), src) <==>
      (("xwa" in a || "amg" in a) && Flag(info, "valid_in_standard")) ||
      ("wildspace" in a && Flag(info, "wildspace")) ||
      (("xwa_epic" in a || "legacy_epic" in a) && Flag(info, "epic")) ||
      (src == LEGACY && ("legacy_x2po" in a || "legacy_xlc" in a || "ffg" in a))
  {
  }

  /** A legacy format shows every pilot of the legacy data, and none of the current
      data that carries no flag. */
  lemma LegacyFormatsShowAll(info: Json)
    ensures Visible(info, Some(["legacy_x2po"]), LEGACY)
    ensures !Flag(info, "valid_in_standard") && !Flag(info, "wildspace") && !Flag(info, "epic") ==>
      !Visible(info, Some(["legacy_x2po"]), XWA)
  {
  }

  /** `all_pilots.get(pid, {})`; an unhashable id raises. */
  function PilotInfo(cat: Catalogue, pid: Json): (r: Result<Json>)
    ensures r.Err? <==> !Hashable(pid)
    ensures pid.JStr? && Dicts.Has(cat, pid.s) ==> r == Ok(Dicts.Get(cat, pid.s).value)
    ensures r.Ok? && !(pid.JStr? && Dicts.Has(cat, pid.s)) ==> r == Ok(JObj([]))
  {
    if !Hashable(pid) then Err("exception")
    else if pid.JStr? then Ok(Dicts.Get(cat, pid.s).GetOr(JObj([])))
    else Ok(JObj([]))
  }

  /** The group a list's pilot counts for: `None` for a pilot without id, ship or
      visibility; `Err` where `pilot.get`, `p_info.get` or the key's hash raises. */
  function PilotKey(pilot: Json, fx: string, allowed: Option<seq<string>>, src: DataSource, cat: Catalogue): (r: Result<Option<ShipKey>>)
    ensures r.Ok? && r.value.Some? ==> r.value.value.1 == fx && Truthy(r.value.value.0)
  {
    if !pilot.JObj? then Err("exception")
    else
      var pid := Or(Get(pilot, "id"), Get(pilot, "name"));
      if !Truthy(pid) then Ok(None)
      else match PilotInfo(cat, pid)
        case Err(m) => Err(m)
        case Ok(info) =>
          if !info.JObj? then Err("exception")
          else
            var ship := GetOr(info, "ship_xws", JStr(""));
            if !Truthy(ship) || !Visible(info, allowed, src) then Ok(None)
            else if Hashable(ship) then Ok(Some((ship, fx))) else Err("exception")
  }

  /** A catalogued pilot with a ship counts for its ship exactly when it is visible. */
  lemma PilotCountedIff(pilot: Json, fx: string, allowed: Option<seq<string>>, src: DataSource, cat: Catalogue, pid: string)
    requires pilot.JObj? && Or(Get(pilot, "id"), Get(pilot, "name")) == JStr(pid) && pid != ""
    requires Dicts.Has(cat, pid) && Dicts.Get(cat, pid).value.JObj?
    requires var ship := GetOr(Dicts.Get(cat, pid).value, "ship_xws", JStr("")); Truthy(ship) && Hashable(ship)
    ensures var info := Dicts.Get(cat, pid).value;
      PilotKey(pilot, fx, allowed, src, cat) ==
        if Visible(info, allowed, src) then Ok(Some((GetOr(info, "ship_xws", JStr("")), fx))) else Ok(None)
  {
  }

  /** The keys of a list's pilots, in list order, one per counted pilot instance. */
  function PilotKeys(ps: seq<Json>, fx: string, allowed: Option<seq<string>>, src: DataSource, cat: Catalogue): (r: Result<seq<ShipKey>>)
    ensures r.Ok? ==> |r.value| <= |ps| && forall k :: k in r.value ==> k.1 == fx
  {
    if |ps| == 0 then Ok([])
    else match PilotKeys(ps[..|ps| - 1], fx, allowed, src, cat)
      case Err(m) => Err(m)
      case Ok(ks) =>
        match PilotKey(ps[|ps| - 1], fx, allowed, src, cat)
        case Err(m) => Err(m)
        case Ok(None) => Ok(ks)
        case Ok(Some(k)) => Ok(ks + [k])
  }

  /** What one row adds: its wins and games per pilot instance, its list id, and the
      keys of its counted pilots. */
  datatype Contribution = Contribution(wins: int, games: int, id: ListId, keys: seq<ShipKey>)

  /** One row: `None` for a row the filters skip or without a dict list; `Err` where the
      faction or the pilots raise. */
  function RowContribution(row: Row, f: Filters, src: DataSource, cat: Catalogue): (r: Result<Option<Contribution>>)
    ensures !RowPasses(row, f) ==> r == Ok(None)
    ensures r.Ok? && r.value.Some? ==>
      var c := r.value.value;
      c.wins == ResultWins(row.0) && c.games == ResultGames(row.0) &&
      c.id == (row.0.tournamentId, row.0.playerName)
  {
    if !RowPasses(row, f) then Ok(None)
    else
      var xws := row.0.listJson;
      if !Truthy(xws) || !xws.JObj? then Ok(None)
      else match ResolveFaction(GetOr(xws, "faction", JStr("unknown")))
        case Err(m) => Err(m)
        case Ok(fx) =>
          match Iter(GetOr(xws, "pilots", JList([])))
          case None => Err("exception")
          case Some(ps) =>
            match PilotKeys(ps, fx, f.allowedFormats, src, cat)
            case Err(m) => Err(m)
            case Ok(keys) =>
              Ok(Some(Contribution(ResultWins(row.0), ResultGames(row.0), (row.0.tournamentId, row.0.playerName), keys)))
  }

  // ---------------------------------------------------------------- accumulation

  /** `ship_stats[key]["wins"] += wins` and the same for games, for a key with a group. */
  function AddPilot(d: Groups, k: ShipKey, w: int, g: int): Groups {
    match Dicts.Get(d, k)
    case None => d
    case Some(e) => Dicts.Put(d, k, e.(wins := e.wins + w, games := e.games + g))
  }

  /** The pilot loop of one list. */
  function AddPilots(d: Groups, keys: seq<ShipKey>, w: int, g: int): Groups {
    if |keys| == 0 then d
    else AddPilot(AddPilots(d, keys[..|keys| - 1], w, g), keys[|keys| - 1], w, g)
  }

  /** `ship_stats[key]["lists"].add(list_id)` for every group the list's pilots reached. */
  function MarkList(d: Groups, keys: seq<ShipKey>, id: ListId): (r: Groups)
    ensures Dicts.KeysOf(r) == Dicts.KeysOf(d)
  {
    Mapped(d, (kv: (ShipKey, ShipStat)) => if kv.0 in keys then (kv.0, kv.1.(lists := kv.1.lists + {id})) else kv)
  }

  function Apply(d: Groups, c: Contribution): Groups {
    MarkList(AddPilots(d, c.keys, c.wins, c.games), c.keys, c.id)
  }

  /** How rows are read; the model reads them through `RowContribution`. */
  type ContribFn = Row -> Result<Option<Contribution>>

  /** The groups after every row, starting from `init`; `Err` when some row raises. */
  function Tally(rows: seq<Row>, contrib: ContribFn, init: Groups): Result<Groups> {
    if |rows| == 0 then Ok(init)
    else match Tally(rows[..|rows| - 1], contrib, init)
      case Err(m) => Err(m)
      case Ok(d) =>
        match contrib(rows[|rows| - 1])
        case Err(m) => Err(m)
        case Ok(None) => Ok(d)
        case Ok(Some(c)) => Ok(Apply(d, c))
  }

  /** `e` after `n` more pilot instances of a list with `w` wins and `g` games. */
  function Bump(e: ShipStat, n: nat, w: int, g: int): ShipStat {
    e.(wins := e.wins + n * w, games := e.games + n * g)
  }

  /** The reference totals of a key: every counted row adds its wins and games once per
      pilot instance of that key... */
  function WinsOf(rows: seq<Row>, contrib: ContribFn, k: ShipKey): int {
    if |rows| == 0 then 0
    else
      WinsOf(rows[..|rows| - 1], contrib, k) +
      match contrib(rows[|rows| - 1]) case Ok(Some(c)) => multiset(c.keys)[k] * c.wins case _ => 0
  }

  function GamesOf(rows: seq<Row>, contrib: ContribFn, k: ShipKey): int {
    if |rows| == 0 then 0
    else
      GamesOf(rows[..|rows| - 1], contrib, k) +
      match contrib(rows[|rows| - 1]) case Ok(Some(c)) => multiset(c.keys)[k] * c.games case _ => 0
  }

  /** ... and its lists are the ids of the counted rows with at least one such pilot. */
  function ListsOf(rows: seq<Row>, contrib: ContribFn, k: ShipKey): set<ListId> {
    if |rows| == 0 then {}
    else
      ListsOf(rows[..|rows| - 1], contrib, k) +
      match contrib(rows[|rows| - 1]) case Ok(Some(c)) => (if k in c.keys then {c.id} else {}) case _ => {}
  }

  /** One pilot instance bumps its own group and leaves every other group and the keys
      alone. */
  lemma AddPilotGroups(d: Groups, k: ShipKey, w: int, g: int)
    requires Dicts.Distinct(d)
    ensures Dicts.KeysOf(AddPilot(d, k, w, g)) == Dicts.KeysOf(d) && Dicts.Distinct(AddPilot(d, k, w, g))
    ensures forall k' :: Dicts.Has(AddPilot(d, k, w, g), k') <==> Dicts.Has(d, k')
    ensures forall k' :: Dicts.Has(d, k') && k' != k ==> Dicts.Get(AddPilot(d, k, w, g), k') == Dicts.Get(d, k')
    ensures Dicts.Has(d, k) ==> Dicts.Get(AddPilot(d, k, w, g), k) == Some(Bump(Dicts.Get(d, k).value, 1, w, g))
  {
    match Dicts.Get(d, k)
    case None =>
    case Some(e) =>
      var e' := e.(wins := e.wins + w, games := e.games + g);
      assert e' == Bump(e, 1, w, g);
      Dicts.PutSpec(d, k, e');
      forall k' ensures Dicts.Has(Dicts.Put(d, k, e'), k') <==> Dicts.Has(d, k') {
        Dicts.FindSameKeys(Dicts.Put(d, k, e'), d, k');
      }
  }

  /** A list's pilot loop bumps every group once per pilot instance of its key. */
  lemma {:induction false} AddPilotsGroups(d: Groups, keys: seq<ShipKey>, w: int, g: int)
    requires Dicts.Distinct(d)
    ensures Dicts.KeysOf(AddPilots(d, keys, w, g)) == Dicts.KeysOf(d) && Dicts.Distinct(AddPilots(d, keys, w, g))
    ensures forall k :: Dicts.Has(AddPilots(d, keys, w, g), k) <==> Dicts.Has(d, k)
    ensures forall k :: Dicts.Has(d, k) ==>
      Dicts.Get(AddPilots(d, keys, w, g), k) == Some(Bump(Dicts.Get(d, k).value, multiset(keys)[k], w, g))
    decreases |keys|
  {
    if |keys| > 0 {
      var n := |keys| - 1;
      AddPilotsGroups(d, keys[..n], w, g);
      var d' := AddPilots(d, keys[..n], w, g);
      var r := AddPilot(d', keys[n], w, g);
      assert AddPilots(d, keys, w, g) == r;
      AddPilotGroups(d', keys[n], w, g);
      assert keys == keys[..n] + [keys[n]];
      assert multiset(keys) == multiset(keys[..n]) + multiset{keys[n]};
      forall k | Dicts.Has(d, k)
        ensures Dicts.Get(r, k) == Some(Bump(Dicts.Get(d, k).value, multiset(keys)[k], w, g))
      {
        var e := Dicts.Get(d, k).value;
        var m := multiset(keys[..n])[k];
        var e' := Dicts.Get(d', k).value;
        assert e' == Bump(e, m, w, g);
        if k == keys[n] {
          assert multiset(keys)[k] == m + 1;
          assert Dicts.Get(r, k) == Some(Bump(e', 1, w, g));
          BumpStep(e, m, w, g);
        } else {
          assert multiset(keys)[k] == m;
        }
      }
    } else {
      forall k | Dicts.Has(d, k)
        ensures Dicts.Get(d, k) == Some(Bump(Dicts.Get(d, k).value, multiset(keys)[k], w, g))
      {
        assert multiset(keys)[k] == 0;
        BumpZero(Dicts.Get(d, k).value, w, g);
      }
    }
  }

  lemma BumpStep(e: ShipStat, m: nat, w: int, g: int)
    ensures Bump(Bump(e, m, w, g), 1, w, g) == Bump(e, m + 1, w, g)
  {
    assert (m + 1) * w == m * w + w && (m + 1) * g == m * g + g;
  }

  lemma BumpZero(e: ShipStat, w: int, g: int)
    ensures Bump(e, 0, w, g) == e
  {
  }

  /** Marking a list adds its id to exactly the groups its pilots reached. */
  lemma MarkListGroups(d: Groups, keys: seq<ShipKey>, id: ListId)
    ensures forall k :: Dicts.Has(MarkList(d, keys, id), k) <==> Dicts.Has(d, k)
    ensures forall k :: Dicts.Has(d, k) ==>
      Dicts.Get(MarkList(d, keys, id), k) ==
        Some(if k in keys then Dicts.Get(d, k).value.(lists := Dicts.Get(d, k).value.lists + {id}) else Dicts.Get(d, k).value)
  {
    var r := MarkList(d, keys, id);
    forall k ensures Dicts.Find(r, k) == Dicts.Find(d, k) {
      Dicts.FindSameKeys(r, d, k);
    }
  }

  /** A group after one more counted list. */
  function Credit(e: ShipStat, c: Contribution, k: ShipKey): ShipStat {
    Bump(e, multiset(c.keys)[k], c.wins, c.games).(lists := if k in c.keys then e.lists + {c.id} else e.lists)
  }

  /** A group after all rows, by the reference totals. */
  function Totals(e: ShipStat, rows: seq<Row>, contrib: ContribFn, k: ShipKey): ShipStat {
    e.(wins := e.wins + WinsOf(rows, contrib, k), games := e.games + GamesOf(rows, contrib, k),
       lists := e.lists + ListsOf(rows, contrib, k))
  }

  lemma ApplyGroups(d: Groups, c: Contribution)
    requires Dicts.Distinct(d)
    ensures Dicts.KeysOf(Apply(d, c)) == Dicts.KeysOf(d) && Dicts.Distinct(Apply(d, c))
    ensures forall k :: Dicts.Has(Apply(d, c), k) <==> Dicts.Has(d, k)
    ensures forall k :: Dicts.Has(d, k) ==> Dicts.Get(Apply(d, c), k) == Some(Credit(Dicts.Get(d, k).value, c, k))
  {
    var a := AddPilots(d, c.keys, c.wins, c.games);
    AddPilotsGroups(d, c.keys, c.wins, c.games);
    MarkListGroups(a, c.keys, c.id);
  }

  /** No row adds or removes a group, and after all rows every group holds its opening
      totals plus the reference totals of its key. */
  lemma {:induction false} TallyTotals(rows: seq<Row>, contrib: ContribFn, init: Groups)
    requires Dicts.Distinct(init) && Tally(rows, contrib, init).Ok?
    ensures Dicts.KeysOf(Tally(rows, contrib, init).value) == Dicts.KeysOf(init)
    ensures Dicts.Distinct(Tally(rows, contrib, init).value)
    ensures forall k :: Dicts.Has(Tally(rows, contrib, init).value, k) <==> Dicts.Has(init, k)
    ensures forall k :: Dicts.Has(init, k) ==>
      Dicts.Get(Tally(rows, contrib, init).value, k) == Some(Totals(Dicts.Get(init, k).value, rows, contrib, k))
    decreases |rows|
  {
    if |rows| == 0 {
      forall k | Dicts.Has(init, k)
        ensures Dicts.Get(init, k) == Some(Totals(Dicts.Get(init, k).value, rows, contrib, k))
      {
        var e := Dicts.Get(init, k).value;
        assert WinsOf(rows, contrib, k) == 0 && GamesOf(rows, contrib, k) == 0 && ListsOf(rows, contrib, k) == {};
        assert e.lists + {} == e.lists;
        assert Totals(e, rows, contrib, k) == e;
      }
    } else {
      var n := |rows| - 1;
      TallyTotals(rows[..n], contrib, init);
      var d := Tally(rows[..n], contrib, init).value;
      match contrib(rows[n])
      case Ok(None) =>
        assert Tally(rows, contrib, init) == Ok(d);
        forall k | Dicts.Has(init, k)
          ensures Dicts.Get(d, k) == Some(Totals(Dicts.Get(init, k).value, rows, contrib, k))
        {
          SkipTotals(Dicts.Get(init, k).value, rows, contrib, k);
        }
      case Ok(Some(c)) =>
        ApplyGroups(d, c);
        assert Tally(rows, contrib, init) == Ok(Apply(d, c));
        forall k | Dicts.Has(init, k)
          ensures Dicts.Get(Apply(d, c), k) == Some(Totals(Dicts.Get(init, k).value, rows, contrib, k))
        {
          var e := Dicts.Get(init, k).value;
          assert Dicts.Get(d, k) == Some(Totals(e, rows[..n], contrib, k));
          CreditTotals(e, rows, contrib, k, c);
        }
    }
  }

  /** A row that counts nothing leaves the reference totals alone. */
  lemma SkipTotals(e: ShipStat, rows: seq<Row>, contrib: ContribFn, k: ShipKey)
    requires |rows| > 0 && contrib(rows[|rows| - 1]) == Ok(None)
    ensures Totals(e, rows, contrib, k) == Totals(e, rows[..|rows| - 1], contrib, k)
  {
    var n := |rows| - 1;
    assert ListsOf(rows, contrib, k) == ListsOf(rows[..n], contrib, k) + {};
  }

  /** A counted row adds its contribution to the reference totals. */
  lemma CreditTotals(e: ShipStat, rows: seq<Row>, contrib: ContribFn, k: ShipKey, c: Contribution)
    requires |rows| > 0 && contrib(rows[|rows| - 1]) == Ok(Some(c))
    ensures Credit(Totals(e, rows[..|rows| - 1], contrib, k), c, k) == Totals(e, rows, contrib, k)
  {
  }

  // ---------------------------------------------------------------- results

  /** One output row; a win rate of `None` is the text "NA". */
  datatype ShipResult = ShipResult(
    shipName: Json,
    shipXws: Json,
    faction: string,
    factionXws: string,
    winRate: Option<real>,
    popularity: nat,
    games: int)

  function Summary(e: ShipStat): (r: ShipResult)
    ensures r.winRate.None? <==> e.games <= 0
    ensures r.winRate.Some? && 0 <= e.wins <= e.games ==> 0.0 <= r.winRate.value <= 100.0
    ensures r.popularity == |e.lists| && r.games == e.games
    ensures r.shipName == e.shipName && r.shipXws == e.shipXws && r.faction == e.faction && r.factionXws == e.factionXws
  {
    var wr := if e.games > 0 then Some((e.wins as real / e.games as real) * 100.0) else None;
    ShipResult(e.shipName, e.shipXws, e.faction, e.factionXws, wr, |e.lists|, e.games)
  }

  function Summaries(d: Groups): (r: seq<ShipResult>)
    ensures |r| == |d|
  {
    Mapped(d, (kv: (ShipKey, ShipStat)) => Summary(kv.1))
  }

  /** The faction filter's normalisation: lowercase, no spaces, no dashes. */
  predicate MatchesFaction(x: ShipResult, factions: seq<string>) {
    exists f :: f in factions && (Factions.Normalize(f) == Factions.Normalize(x.faction) ||
                                  Factions.Normalize(f) == Factions.Normalize(x.factionXws))
  }

  function ByFaction(rs: seq<ShipResult>, factions: seq<string>): (r: seq<ShipResult>)
    ensures |factions| == 0 ==> r == rs
    ensures |factions| > 0 ==> forall x :: x in r <==> x in rs && MatchesFaction(x, factions)
  {
    if |factions| == 0 then rs else Keep(rs, (x: ShipResult) => MatchesFaction(x, factions))
  }

  function ByShip(rs: seq<ShipResult>, ships: seq<string>): (r: seq<ShipResult>)
    ensures |ships| == 0 ==> r == rs
    ensures |ships| > 0 ==> forall x :: x in r <==> x in rs && x.shipXws.JStr? && x.shipXws.s in ships
  {
    if |ships| == 0 then rs else Keep(rs, (x: ShipResult) => x.shipXws.JStr? && x.shipXws.s in ships)
  }

  /** A faction filter given as a label matches the group of that faction: the label
      and the id normalise alike. */
  lemma LabelMatchesId(x: ShipResult, f: Factions.Faction)
    requires x.factionXws == Factions.Value(f)
    ensures MatchesFaction(x, [Factions.Label(f)])
    ensures MatchesFaction(x, [Factions.Value(f)])
  {
    Factions.NormalizeLabel(f);
    Factions.ValueNormal(f);
    Factions.NormalizeNormal(Factions.Value(f));
  }

  /** The sort key of each criterion; "NA" sorts as -1. */
  function SortKey(c: SortingOrder.SortingCriteria): ShipResult -> seq<real> {
    match c
    case WINRATE => (x: ShipResult) => [x.winRate.GetOr(-1.0), x.games as real]
    case GAMES => (x: ShipResult) => [x.games as real]
    case _ => (x: ShipResult) => [x.popularity as real]
  }

  function Contributor(f: Filters, src: DataSource, cat: Catalogue): ContribFn {
    (row: Row) => RowContribution(row, f, src, cat)
  }

  /** The groups after the catalogue and every row. */
  function ShipGroups(rows: seq<Row>, f: Filters, src: DataSource, cat: Catalogue): Result<Groups> {
    match Init(cat, CatalogueKey)
    case Err(m) => Err(m)
    case Ok(init) => Tally(rows, Contributor(f, src, cat), init)
  }

  /** `aggregate_ship_stats` over the rows the query returns. */
  function AggregateShipStats(rows: seq<Row>, f: Filters, crit: SortingOrder.SortingCriteria,
                              dir: SortingOrder.SortDirection, src: DataSource, cat: Catalogue)
    : (r: Result<seq<ShipResult>>)
    ensures r.Ok? ==> Ordered(r.value, SortKey(crit), dir.DESCENDING?)
  {
    match ShipGroups(rows, f, src, cat)
    case Err(m) => Err(m)
    case Ok(d) =>
      var xs := ByShip(ByFaction(Summaries(d), f.factions), f.ships);
      SortByOrdered(xs, SortKey(crit), dir.DESCENDING?);
      Ok(SortBy(xs, SortKey(crit), dir.DESCENDING?))
  }

  /** Every (ship, faction) pair of the catalogue has exactly one group, whether or not
      any list used it, and each group holds the reference totals of its key: wins and
      games once per visible pilot instance, and the distinct lists those pilots came
      from. */
  lemma GroupTotals(rows: seq<Row>, f: Filters, src: DataSource, cat: Catalogue)
    requires ShipGroups(rows, f, src, cat).Ok?
    ensures var d := ShipGroups(rows, f, src, cat).value;
      Dicts.Distinct(d) && Dicts.KeysOf(d) == Dicts.KeysOf(Init(cat, CatalogueKey).value) &&
      (forall k :: Dicts.Has(d, k) <==> FromCatalogue(cat, CatalogueKey, k)) &&
      (forall k :: Dicts.Has(d, k) ==>
        var e := Dicts.Get(d, k).value;
        e.shipXws == k.0 && e.factionXws == k.1 &&
        e.wins == WinsOf(rows, Contributor(f, src, cat), k) &&
        e.games == GamesOf(rows, Contributor(f, src, cat), k) &&
        e.lists == ListsOf(rows, Contributor(f, src, cat), k))
  {
    var init := Init(cat, CatalogueKey).value;
    InitGroups(cat, CatalogueKey);
    TallyTotals(rows, Contributor(f, src, cat), init);
    var d := ShipGroups(rows, f, src, cat).value;
    forall k | Dicts.Has(d, k)
      ensures var e := Dicts.Get(d, k).value;
        e.shipXws == k.0 && e.factionXws == k.1 &&
        e.wins == WinsOf(rows, Contributor(f, src, cat), k) &&
        e.games == GamesOf(rows, Contributor(f, src, cat), k) &&
        e.lists == ListsOf(rows, Contributor(f, src, cat), k)
    {
      var i := Dicts.Find(init, k).value;
      assert init[i].0 == k;
      assert {} + ListsOf(rows, Contributor(f, src, cat), k) == ListsOf(rows, Contributor(f, src, cat), k);
    }
  }

  /** A key no counted list reached has no wins and no games: its group reports "NA". */
  lemma {:induction false} NoListsNoGames(rows: seq<Row>, contrib: ContribFn, k: ShipKey)
    requires ListsOf(rows, contrib, k) == {}
    ensures WinsOf(rows, contrib, k) == 0 && GamesOf(rows, contrib, k) == 0
    decreases |rows|
  {
    if |rows| > 0 {
      var n := |rows| - 1;
      NoListsNoGames(rows[..n], contrib, k);
      match contrib(rows[n])
      case Ok(Some(c)) =>
        assert k !in c.keys;
        assert multiset(c.keys)[k] == 0;
      case _ =>
    }
  }

  /** The output is ordered by the chosen criterion, descending exactly for DESCENDING,
      and is a permutation of the filtered groups; without filters every group shows. */
  lemma Ranking(rows: seq<Row>, f: Filters, crit: SortingOrder.SortingCriteria, dir: SortingOrder.SortDirection,
                src: DataSource, cat: Catalogue)
    requires AggregateShipStats(rows, f, crit, dir, src, cat).Ok?
    ensures var r := AggregateShipStats(rows, f, crit, dir, src, cat).value;
      var d := ShipGroups(rows, f, src, cat).value;
      Ordered(r, SortKey(crit), dir.DESCENDING?) &&
      multiset(r) == multiset(ByShip(ByFaction(Summaries(d), f.factions), f.ships)) &&
      (f.factions == [] && f.ships == [] ==> |r| == |d|)
  {
    var d := ShipGroups(rows, f, src, cat).value;
    var xs := ByShip(ByFaction(Summaries(d), f.factions), f.ships);
    SortByOrdered(xs, SortKey(crit), dir.DESCENDING?);
    SortByMultiset(xs, SortKey(crit), dir.DESCENDING?);
    if f.factions == [] && f.ships == [] {
      assert |multiset(SortBy(xs, SortKey(crit), dir.DESCENDING?))| == |multiset(xs)|;
    }
  }

  // ---------------------------------------------------------------- the loops

  /** The catalogue loop that opens a group per new (ship, faction) pair. */
  method InitOf(cat: Catalogue) returns (r: Result<Groups>)
    ensures r == Init(cat, CatalogueKey)
  {
    var d: Groups := [];
    var i := 0;
    while i < |cat|
      invariant 0 <= i <= |cat|
      invariant Init(cat[..i], CatalogueKey) == Ok(d)
    {
      assert cat[..i + 1][..i] == cat[..i];
      var o := Open(d, cat[i].1, CatalogueKey);
      if o.Err? {
        InitStops(cat, CatalogueKey, i, |cat|);
        assert cat[..|cat|] == cat;
        return o;
      }
      d := o.value;
      i := i + 1;
    }
    assert cat[..i] == cat;
    r := Ok(d);
  }

  /** The first catalogue pilot that raises decides the error. */
  lemma {:induction false} InitStops(cat: Catalogue, key: CatKeyFn, i: nat, m: nat)
    requires i < m <= |cat| && Init(cat[..i], key).Ok? && Open(Init(cat[..i], key).value, cat[i].1, key).Err?
    ensures Init(cat[..m], key) == Open(Init(cat[..i], key).value, cat[i].1, key)
    decreases m
  {
    var p := cat[..m];
    assert p[..m - 1] == cat[..m - 1];
    assert p[m - 1] == cat[m - 1];
    if m > i + 1 {
      InitStops(cat, key, i, m - 1);
    }
  }

  /** The keys of a list's counted pilots. */
  method PilotKeysOf(ps: seq<Json>, fx: string, allowed: Option<seq<string>>, src: DataSource, cat: Catalogue)
    returns (r: Result<seq<ShipKey>>)
    ensures r == PilotKeys(ps, fx, allowed, src, cat)
  {
    var keys: seq<ShipKey> := [];
    var i := 0;
    while i < |ps|
      invariant 0 <= i <= |ps|
      invariant PilotKeys(ps[..i], fx, allowed, src, cat) == Ok(keys)
    {
      var pk := PilotKey(ps[i], fx, allowed, src, cat);
      match pk {
        case Err(m) =>
          PilotKeysStops(ps, fx, allowed, src, cat, i);
          return Err(m);
        case Ok(None) =>
          PilotKeysNext(ps, fx, allowed, src, cat, i, keys);
        case Ok(Some(k)) =>
          PilotKeysNext(ps, fx, allowed, src, cat, i, keys);
          keys := keys + [k];
      }
      i := i + 1;
    }
    assert ps[..i] == ps;
    r := Ok(keys);
  }

  /** One more pilot extends the keys by that pilot's key, if it has one. */
  lemma PilotKeysNext(ps: seq<Json>, fx: string, allowed: Option<seq<string>>, src: DataSource,
                      cat: Catalogue, i: nat, keys: seq<ShipKey>)
    requires i < |ps| && PilotKeys(ps[..i], fx, allowed, src, cat) == Ok(keys)
    ensures PilotKeys(ps[..i + 1], fx, allowed, src, cat)
            == match PilotKey(ps[i], fx, allowed, src, cat)
               case Err(m) => Err(m)
               case Ok(None) => Ok(keys)
               case Ok(Some(k)) => Ok(keys + [k])
  {
    var p := ps[..i + 1];
    assert p[..i] == ps[..i];
    assert p[i] == ps[i];
  }

  /** A failing pilot fails the keys of the prefix it ends. */
  lemma PilotKeysFails(ps: seq<Json>, fx: string, allowed: Option<seq<string>>, src: DataSource,
                       cat: Catalogue, i: nat)
    requires i < |ps| && PilotKeys(ps[..i], fx, allowed, src, cat).Ok? && PilotKey(ps[i], fx, allowed, src, cat).Err?
    ensures PilotKeys(ps[..i + 1], fx, allowed, src, cat) == Err(PilotKey(ps[i], fx, allowed, src, cat).msg)
  {
    var p := ps[..i + 1];
    assert p[..i] == ps[..i];
    assert p[i] == ps[i];
  }

  /** Once the keys have failed, further pilots keep the failure. */
  lemma PilotKeysErrStays(ps: seq<Json>, fx: string, allowed: Option<seq<string>>, src: DataSource,
                          cat: Catalogue, j: nat)
    requires j < |ps| && PilotKeys(ps[..j], fx, allowed, src, cat).Err?
    ensures PilotKeys(ps[..j + 1], fx, allowed, src, cat) == PilotKeys(ps[..j], fx, allowed, src, cat)
  {
    var p := ps[..j + 1];
    assert p[..j] == ps[..j];
  }

  /** The first pilot that fails decides the keys of the whole list. */
  lemma PilotKeysStops(ps: seq<Json>, fx: string, allowed: Option<seq<string>>, src: DataSource,
                       cat: Catalogue, i: nat)
    requires i < |ps| && PilotKeys(ps[..i], fx, allowed, src, cat).Ok? && PilotKey(ps[i], fx, allowed, src, cat).Err?
    ensures PilotKeys(ps, fx, allowed, src, cat) == Err(PilotKey(ps[i], fx, allowed, src, cat).msg)
  {
    PilotKeysFails(ps, fx, allowed, src, cat, i);
    PilotKeysErrPersists(ps, fx, allowed, src, cat, i + 1, |ps|);
    assert ps[..|ps|] == ps;
  }

  lemma {:induction false} PilotKeysErrPersists(ps: seq<Json>, fx: string, allowed: Option<seq<string>>, src: DataSource,
                                                cat: Catalogue, j: nat, m: nat)
    requires j <= m <= |ps| && PilotKeys(ps[..j], fx, allowed, src, cat).Err?
    ensures PilotKeys(ps[..m], fx, allowed, src, cat) == PilotKeys(ps[..j], fx, allowed, src, cat)
    decreases m
  {
    if m > j {
      PilotKeysErrPersists(ps, fx, allowed, src, cat, j, m - 1);
      PilotKeysErrStays(ps, fx, allowed, src, cat, m - 1);
    }
  }

  /** One row of the results loop, up to its pilot loop. */
  method ContributionOf(row: Row, f: Filters, src: DataSource, cat: Catalogue) returns (r: Result<Option<Contribution>>)
    ensures r == RowContribution(row, f, src, cat)
  {
    if !RowPasses(row, f) {
      return Ok(None);
    }
    var xws := row.0.listJson;
    if !Truthy(xws) || !xws.JObj? {
      return Ok(None);
    }
    var fx := ResolveFaction(GetOr(xws, "faction", JStr("unknown")));
    if fx.Err? {
      return Err(fx.msg);
    }
    var ps := Iter(GetOr(xws, "pilots", JList([])));
    if ps.None? {
      return Err("exception");
    }
    var keys := PilotKeysOf(ps.value, fx.value, f.allowedFormats, src, cat);
    if keys.Err? {
      return Err(keys.msg);
    }
    r := Ok(Some(Contribution(ResultWins(row.0), ResultGames(row.0), (row.0.tournamentId, row.0.playerName), keys.value)));
  }

  /** Adds one list's pilots to their groups, then marks the list on each group reached. */
  method ApplyOf(d: Groups, c: Contribution) returns (r: Groups)
    ensures r == Apply(d, c)
  {
    r := d;
    var j := 0;
    while j < |c.keys|
      invariant 0 <= j <= |c.keys|
      invariant r == AddPilots(d, c.keys[..j], c.wins, c.games)
    {
      assert c.keys[..j + 1][..j] == c.keys[..j];
      r := AddPilot(r, c.keys[j], c.wins, c.games);
      j := j + 1;
    }
    assert c.keys[..j] == c.keys;
    r := MarkList(r, c.keys, c.id);
  }

  /** The catalogue loop, then the results loop. */
  method GroupsOf(rows: seq<Row>, f: Filters, src: DataSource, cat: Catalogue) returns (r: Result<Groups>)
    ensures r == ShipGroups(rows, f, src, cat)
  {
    var init := InitOf(cat);
    if init.Err? {
      return Err(init.msg);
    }
    var contrib := Contributor(f, src, cat);
    var d := init.value;
    var i := 0;
    while i < |rows|
      invariant 0 <= i <= |rows|
      invariant Tally(rows[..i], contrib, init.value) == Ok(d)
    {
      var c := ContributionOf(rows[i], f, src, cat);
      match c {
        case Err(m) =>
          TallyStops(rows, contrib, init.value, i, |rows|);
          assert rows[..|rows|] == rows;
          return Err(m);
        case Ok(None) =>
          TallyNext(rows, contrib, init.value, i, d);
        case Ok(Some(x)) =>
          TallyNext(rows, contrib, init.value, i, d);
          d := ApplyOf(d, x);
      }
      i := i + 1;
    }
    assert rows[..i] == rows;
    r := Ok(d);
  }

  /** The whole aggregation: the groups, their output rows, the filters and the sort. */
  method AggregateShips(rows: seq<Row>, f: Filters, crit: SortingOrder.SortingCriteria,
                        dir: SortingOrder.SortDirection, src: DataSource, cat: Catalogue) returns (r: Result<seq<ShipResult>>)
    ensures r == AggregateShipStats(rows, f, crit, dir, src, cat)
  {
    var d := GroupsOf(rows, f, src, cat);
    if d.Err? {
      return Err(d.msg);
    }
    var results := Summaries(d.value);
    results := ByFaction(results, f.factions);
    results := ByShip(results, f.ships);
    r := Ok(SortBy(results, SortKey(crit), dir.DESCENDING?));
  }

  /** One more row extends the tally by that row's contribution, if it has one. */
  lemma TallyNext(rows: seq<Row>, contrib: ContribFn, init: Groups, i: nat, d: Groups)
    requires i < |rows| && Tally(rows[..i], contrib, init) == Ok(d) && contrib(rows[i]).Ok?
    ensures Tally(rows[..i + 1], contrib, init) ==
      match contrib(rows[i]).value
      case None => Ok(d)
      case Some(c) => Ok(Apply(d, c))
  {
    var p := rows[..i + 1];
    assert p[..i] == rows[..i];
    assert p[i] == rows[i];
  }

  lemma {:induction false} TallyStops(rows: seq<Row>, contrib: ContribFn, init: Groups, i: nat, m: nat)
    requires i < m <= |rows| && Tally(rows[..i], contrib, init).Ok? && contrib(rows[i]).Err?
    ensures Tally(rows[..m], contrib, init) == Err(contrib(rows[i]).msg)
    decreases m
  {
    var p := rows[..m];
    assert p[..m - 1] == rows[..m - 1];
    assert p[m - 1] == rows[m - 1];
    if m > i + 1 {
      TallyStops(rows, contrib, init, i, m - 1);
    }
  }
}
