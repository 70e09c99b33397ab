/** The pilot and upgrade statistics behind the card pages: every counted occurrence of
    a pilot (or an upgrade) in a list of a kept result adds one to the card's count and
    the list's wins and games to its totals. A card's metadata is taken from the
    catalogue when its first occurrence is counted. */
module CardStats {
  import opened Wrappers
  import opened Strings
  import opened Json
  import opened Sorting
  import opened Models
  import AnalyticsFilters
  import Dicts
  import XwingData
  import XwingParser

  type Catalogue = XwingData.Catalogue

  /** A result joined with its tournament. */
  type Row = (PlayerResult, Tournament)

  /** What is counted: pilots, upgrades, or (any other mode) nothing. */
  datatype Mode = PILOTS | UPGRADES | OTHER_MODE

  /** `sort_mode`: "win_rate", or anything else for popularity. */
  datatype SortMode = ByWinRate | ByPopularity

  // ---------------------------------------------------------------- filters

  /** A filter value as the code tells them apart: absent, one text value, or a list. */
  datatype Choice = Unset | One(v: string) | Many(vs: seq<string>)

  /** `value and value != "all"` */
  predicate Active(c: Choice) {
    match c
    case Unset => false
    case One(v) => v != "" && v != "all"
    case Many(vs) => |vs| > 0
  }

  /** The values an active choice selects: the list itself, or the one value. */
  function Chosen(c: Choice): (r: seq<string>)
    ensures !Active(c) ==> r == []
    ensures Active(c) && c.One? ==> r == [c.v]
    ensures c.Many? ==> r == c.vs
  {
    match c
    case Unset => []
    case One(v) => if v != "" && v != "all" then [v] else []
    case Many(vs) => vs
  }

  /** The request's filter values. An empty list of formats filters nothing; an empty
      pilot or upgrade id is no id. */
  datatype Filters = Filters(
    allowedFormats: seq<string>,
    faction: Choice,
    upgradeType: Choice,
    searchText: string,
    ship: Choice,
    initiative: Choice,
    pilotId: string,
    upgradeId: string)

  /** The filters in force once the request is read: `ships` is used when the ship
      filter is a list, `shipText` when it is one comma-separated text. */
  datatype Context = Context(
    formats: seq<string>,
    factions: seq<string>,
    types: seq<string>,
    text: string,
    ships: seq<string>,
    shipText: Option<string>,
    initiatives: seq<int>,
    pilotId: string,
    upgradeId: string)

  /** `s.strip(c)` */
  function StripChar(s: string, c: char): (r: string)
    ensures |r| <= |s|
    ensures |r| > 0 ==> r[0] != c && r[|r| - 1] != c
    decreases |s|
  {
    if |s| > 0 && s[0] == c then StripChar(s[1..], c)
    else if |s| > 0 && s[|s| - 1] == c then StripChar(s[..|s| - 1], c)
    else s
  }

  /** `.strip('"').strip("'")`: the quotes an id was pasted with. */
  function StripQuotes(s: string): (r: string)
    ensures |r| > 0 ==> r[0] != '\'' && r[|r| - 1] != '\''
  {
    StripChar(StripChar(s, '"'), '\'')
  }

  /** An id that neither starts nor ends with a quote is used as given. */
  lemma BareIdKept(s: string)
    requires |s| > 0 ==> s[0] !in "\"'" && s[|s| - 1] !in "\"'"
    ensures StripQuotes(s) == s
  {
  }

  /** One pair of quotes of either kind is removed. */
  lemma QuotedIdStripped(s: string)
    requires |s| > 0 && s[0] !in "\"'" && s[|s| - 1] !in "\"'"
    ensures StripQuotes("\"" + s + "\"") == s
    ensures StripQuotes("'" + s + "'") == s
  {
    var a := "\"" + s + "\"";
    assert StripChar(s, '"') == s;
    assert a[1..] == s + "\"";
    assert (s + "\"")[..|s|] == s;
    assert StripChar(s + "\"", '"') == s;
    assert StripChar(a, '"') == s;
    assert StripChar(s, '\'') == s;
    var b := "'" + s + "'";
    assert StripChar(b, '"') == b;
    assert b[1..] == s + "'";
    assert (s + "'")[..|s|] == s;
    assert StripChar(s + "'", '\'') == s;
  }

  /** `int(v)` of every value that reads as an integer; the others are skipped. */
  function ParsedInts(vs: seq<string>): (r: seq<int>)
    ensures forall n :: n in r <==> exists v :: v in vs && ParseInt(v) == Some(n)
  {
    if |vs| == 0 then []
    else
      var rest := ParsedInts(vs[..|vs| - 1]);
      assert forall v :: v in vs <==> v in vs[..|vs| - 1] || v == vs[|vs| - 1];
      match ParseInt(vs[|vs| - 1])
      case Some(n) => rest + [n]
      case None => rest
  }

  /** The legacy ship search terms: the comma-separated parts, stripped and lowercased,
      empty ones dropped. */
  function Terms(v: string): seq<string> {
    TermsOf(Split(v, ','))
  }

  function TermsOf(parts: seq<string>): seq<string> {
    if |parts| == 0 then []
    else
      var t := Lower(Strip(parts[0]));
      (if t != "" then [t] else []) + TermsOf(parts[1..])
  }

  /** Reading the request's filters. */
  function Setup(f: Filters): (c: Context)
    ensures c.factions == Chosen(f.faction)
    ensures forall t :: t in c.types <==> exists v :: v in Chosen(f.upgradeType) && Lower(v) == t
    ensures |c.ships| > 0 ==> c.shipText.None?
    ensures (|c.ships| > 0 || c.shipText.Some?) <==> Active(f.ship)
    ensures forall n :: n in c.initiatives <==> exists v :: v in Chosen(f.initiative) && ParseInt(v) == Some(n)
    ensures c.pilotId == StripQuotes(f.pilotId) && c.upgradeId == StripQuotes(f.upgradeId)
  {
    var types := Mapped(Chosen(f.upgradeType), Lower);
    LowerAll(Chosen(f.upgradeType));
    var ships := if f.ship.Many? then f.ship.vs else [];
    var text := if f.ship.One? && Active(f.ship) then Some(f.ship.v) else None;
    Context(f.allowedFormats, Chosen(f.faction), types, Lower(f.searchText), ships, text,
            ParsedInts(Chosen(f.initiative)), StripQuotes(f.pilotId), StripQuotes(f.upgradeId))
  }

  lemma LowerAll(vs: seq<string>)
    ensures forall t :: t in Mapped(vs, Lower) <==> exists v :: v in vs && Lower(v) == t
  {
    var m := Mapped(vs, Lower);
    forall t | t in m ensures exists v :: v in vs && Lower(v) == t {
      var i :| 0 <= i < |m| && m[i] == t;
      assert vs[i] in vs;
    }
  }

  /** A type filter of "Talent" keeps the slots "talent" and "TALENT" alike. */
  lemma TypeFilterIgnoresCase(f: Filters, slot: string)
    ensures Lower(slot) in Setup(f).types <==> exists v :: v in Chosen(f.upgradeType) && Lower(v) == Lower(slot)
  {
  }

  /** The format filter of the row loop. */
  predicate FormatAdmits(formats: seq<string>, t: Tournament) {
    |formats| == 0 || AnalyticsFilters.TournamentFormat(t) in formats
  }

  // ---------------------------------------------------------------- outcome

  /** The wins and games a list adds per counted card; a missing cut count adds nothing,
      and cut draws are not counted. */
  function Outcome(p: PlayerResult): (r: (int, int))
    ensures r.0 == ResultWins(p)
    ensures r.1 == ResultGames(p) - p.cutDraws.GetOr(0)
  {
    var wins := p.swissWins + p.cutWins.GetOr(0);
    (wins, wins + p.swissLosses + p.cutLosses.GetOr(0) + p.swissDraws)
  }

  /** The same two sums as the code writes them: `swiss_wins + cut_wins` raises when a
      cut count is `None`. */
  function OutcomeAsWritten(p: PlayerResult): (r: Result<(int, int)>)
    ensures r.Ok? <==> p.cutWins.Some? && p.cutLosses.Some?
    ensures r.Ok? ==> r.value == Outcome(p)
  {
    if p.cutWins.None? then Err("exception")
    else
      var wins := p.swissWins + p.cutWins.value;
      if p.cutLosses.None? then Err("exception")
      else Ok((wins, wins + p.swissLosses + p.cutLosses.value + p.swissDraws))
  }

  /** A player who did not make the cut has no cut counts: as written, their list ends
      the whole aggregation with an error, where it should count its swiss record. */
  lemma CutlessResultRaises(name: string, xws: Json)
    ensures var p := NewPlayerResult(1, name, None).(swissWins := 3, swissLosses := 2, listJson := xws);
      OutcomeAsWritten(p).Err? && Outcome(p) == (3, 5)
  {
  }

  // ---------------------------------------------------------------- hits

  /** The metadata a card's stats entry is opened with. */
  datatype Meta =
    | PilotMeta(name: Json, faction: Json, ship: Json, shipIcon: Json, image: Json, cost: Json)
    | UpgradeMeta(name: Json, kind: string, image: Json, cost: Json)

  /** One counted occurrence of a card. */
  datatype Hit = Hit(key: Json, meta: Meta, wins: int, games: int)

  /** `all_pilots.get(pid, {})` followed by `.get`: an unhashable id or an entry that
      is not a dict raises. */
  function Info(cat: Catalogue, id: Json): (r: Result<Json>)
    ensures r.Err? <==> !Hashable(id) || (id.JStr? && Dicts.Has(cat, id.s) && !Dicts.Get(cat, id.s).value.JObj?)
    ensures r.Ok? ==> r.value.JObj?
    ensures r.Ok? && id.JStr? && Dicts.Has(cat, id.s) ==> r.value == Dicts.Get(cat, id.s).value
  {
    if !Hashable(id) then Err("exception")
    else
      var e := if id.JStr? then Dicts.Get(cat, id.s).GetOr(JObj([])) else JObj([]);
      if e.JObj? then Ok(e) else Err("exception")
  }

  /** The card's name as the entry was opened with it: the catalogue's, else the id. */
  predicate NamedFrom(cat: Catalogue, h: Hit) {
    Info(cat, h.key).Ok? && h.meta.name == GetOr(Info(cat, h.key).value, "name", h.key)
  }

  /** `p.get("id") or p.get("name")` */
  function PilotId(p: Json): Json {
    Or(Get(p, "id"), Get(p, "name"))
  }

  /** `p.get("upgrades", {}) or {}` */
  function UpgradesOf(p: Json): Json {
    Or(GetOr(p, "upgrades", JObj([])), JObj([]))
  }

  /** The search over a pilot's slots: the first slot holding `x` ends it. */
  function Carries(x: string, slots: seq<(string, Json)>): (r: Result<bool>)
    ensures r == Ok(false) ==> forall i :: 0 <= i < |slots| ==> InJson(x, slots[i].1) == Ok(false)
    ensures r == Ok(true) ==> exists i :: 0 <= i < |slots| && InJson(x, slots[i].1) == Ok(true)
    ensures r.Err? ==> exists i :: 0 <= i < |slots| && InJson(x, slots[i].1).Err?
  {
    if |slots| == 0 then Ok(false)
    else match InJson(x, slots[0].1)
      case Err(m) => Err(m)
      case Ok(true) => Ok(true)
      case Ok(false) =>
        var r := Carries(x, slots[1..]);
        assert forall i :: 0 < i < |slots| ==> slots[i] == slots[1..][i - 1];
        r
  }

  /** Does the pilot carry the upgrade `x`? A loadout that is not a dict raises. */
  function HasUpgrade(p: Json, x: string): (r: Result<bool>)
    ensures !UpgradesOf(p).JObj? ==> r.Err?
    ensures UpgradesOf(p).JObj? ==> r == Carries(x, UpgradesOf(p).fields)
  {
    var u := UpgradesOf(p);
    if u.JObj? then Carries(x, u.fields) else Err("exception")
  }

  /** `v in s` for a set of texts; an unhashable value raises. */
  function Member(v: Json, s: seq<string>): (r: Result<bool>)
    ensures r.Err? <==> !Hashable(v)
    ensures r == Ok(true) <==> v.JStr? && v.s in s
  {
    if !Hashable(v) then Err("exception") else Ok(v.JStr? && v.s in s)
  }

  /** `v in s` for a set of integers: booleans and integral floats compare as numbers. */
  function InitiativeIn(v: Json, s: seq<int>): (r: Result<bool>)
    ensures r.Err? <==> !Hashable(v)
    ensures v.JInt? ==> r == Ok(v.i in s)
    ensures v.JStr? || v.JNull? ==> r == Ok(false)
  {
    match v
    case JInt(i) => Ok(i in s)
    case JBool(b) => Ok((if b then 1 else 0) in s)
    case JFloat(x) => Ok(x == x.Floor as real && x.Floor in s)
    case JList(_) => Err("exception")
    case JObj(_) => Err("exception")
    case _ => Ok(false)
  }

  /** `a` and then `b`, stopping at the first check that fails or raises. */
  function AndThen(a: Result<bool>, b: Result<bool>): (r: Result<bool>)
    ensures r == Ok(true) <==> a == Ok(true) && b == Ok(true)
    ensures a != Ok(true) ==> r == a
  {
    if a == Ok(true) then b else a
  }

  /** The upgrade-id filter of the pilots mode. */
  function UpgradeCheck(p: Json, c: Context): (r: Result<bool>)
    ensures c.upgradeId == "" ==> r == Ok(true)
    ensures c.upgradeId != "" ==> r == HasUpgrade(p, c.upgradeId)
  {
    if c.upgradeId == "" then Ok(true) else HasUpgrade(p, c.upgradeId)
  }

  /** Some term occurs in the catalogue ship name; a ship name that is not text raises. */
  function ShipTermsMatch(info: Json, terms: seq<string>): (r: Result<bool>)
    ensures var s := GetOr(info, "ship", JStr(""));
      (r.Err? <==> !s.JStr?) && (r == Ok(true) <==> s.JStr? && exists t :: t in terms && Contains(Lower(s.s), t))
  {
    var s := GetOr(info, "ship", JStr(""));
    if s.JStr? then Ok(exists t :: t in terms && Contains(Lower(s.s), t)) else Err("exception")
  }

  /** The ship filter: the catalogue ship id against the listed ships, or else the legacy
      term search over the ship name. */
  function ShipCheck(pid: Json, c: Context, cat: Catalogue): (r: Result<bool>)
    ensures |c.ships| == 0 && c.shipText.None? ==> r == Ok(true)
    ensures |c.ships| > 0 && r == Ok(true) ==>
      Info(cat, pid).Ok? && Member(GetOr(Info(cat, pid).value, "ship_xws", JStr("")), c.ships) == Ok(true)
    ensures |c.ships| == 0 && c.shipText.Some? && r == Ok(true) ==>
      Info(cat, pid).Ok? && ShipTermsMatch(Info(cat, pid).value, Terms(c.shipText.value)) == Ok(true)
  {
    if |c.ships| > 0 then
      match Info(cat, pid)
      case Err(m) => Err(m)
      case Ok(info) => Member(GetOr(info, "ship_xws", JStr("")), c.ships)
    else if c.shipText.Some? then
      match Info(cat, pid)
      case Err(m) => Err(m)
      case Ok(info) => ShipTermsMatch(info, Terms(c.shipText.value))
    else Ok(true)
  }

  /** The initiative filter: the catalogue initiative among the allowed ones. */
  function InitiativeCheck(pid: Json, c: Context, cat: Catalogue): (r: Result<bool>)
    ensures |c.initiatives| == 0 ==> r == Ok(true)
    ensures |c.initiatives| > 0 && r == Ok(true) ==>
      Info(cat, pid).Ok? && InitiativeIn(Get(Info(cat, pid).value, "initiative"), c.initiatives) == Ok(true)
  {
    if |c.initiatives| == 0 then Ok(true)
    else match Info(cat, pid)
      case Err(m) => Err(m)
      case Ok(info) => InitiativeIn(Get(info, "initiative"), c.initiatives)
  }

  /** The search text in the pilot's name (the id when uncatalogued), ability or ship;
      each of the three is lowercased first, so one that is not text raises. */
  function PilotTextMatch(info: Json, pid: Json, text: string): (r: Result<bool>)
    ensures var n := GetOr(info, "name", pid);
      var a := GetOr(info, "ability", JStr(""));
      var s := GetOr(info, "ship", JStr(""));
      (r.Err? <==> !(n.JStr? && a.JStr? && s.JStr?)) &&
      var hit := n.JStr? && a.JStr? && s.JStr? &&
        (Contains(Lower(n.s), text) || Contains(Lower(a.s), text) || Contains(Lower(s.s), text));
      (r == Ok(true) <==> hit)
  {
    var n := GetOr(info, "name", pid);
    var a := GetOr(info, "ability", JStr(""));
    var s := GetOr(info, "ship", JStr(""));
    if n.JStr? && a.JStr? && s.JStr? then
      Ok(Contains(Lower(n.s), text) || Contains(Lower(a.s), text) || Contains(Lower(s.s), text))
    else Err("exception")
  }

  function PilotTextCheck(pid: Json, c: Context, cat: Catalogue): (r: Result<bool>)
    ensures c.text == "" ==> r == Ok(true)
    ensures c.text != "" && r == Ok(true) ==> Info(cat, pid).Ok? && PilotTextMatch(Info(cat, pid).value, pid, c.text) == Ok(true)
  {
    if c.text == "" then Ok(true)
    else match Info(cat, pid)
      case Err(m) => Err(m)
      case Ok(info) => PilotTextMatch(info, pid, c.text)
  }

  /** The pilot filters in the code's order; a pilot passes exactly when each check
      passes, and with no pilot filter set every pilot passes. */
  function PilotAdmitted(p: Json, pid: Json, c: Context, cat: Catalogue): (r: Result<bool>)
    ensures r == Ok(true) <==>
      (UpgradeCheck(p, c) == Ok(true) && ShipCheck(pid, c, cat) == Ok(true) &&
       InitiativeCheck(pid, c, cat) == Ok(true) && PilotTextCheck(pid, c, cat) == Ok(true))
    ensures c.upgradeId == "" && |c.ships| == 0 && c.shipText.None? && |c.initiatives| == 0 && c.text == "" ==> r == Ok(true)
  {
    AndThen(UpgradeCheck(p, c), AndThen(ShipCheck(pid, c, cat), AndThen(InitiativeCheck(pid, c, cat), PilotTextCheck(pid, c, cat))))
  }

  /** The entry a pilot opens: catalogue fields, the list's faction when the catalogue
      has none. */
  function PilotMetaOf(info: Json, pid: Json, lf: Json): Meta {
    PilotMeta(GetOr(info, "name", pid), GetOr(info, "faction", lf), GetOr(info, "ship", JStr("")),
              GetOr(info, "ship_icon", JStr("")), GetOr(info, "image", JStr("")), GetOr(info, "cost", JInt(0)))
  }

  /** One pilot of a list in the pilots mode: no hit for a pilot without id or one the
      filters drop; `p.get` on a pilot that is not a dict raises. */
  function PilotHit(p: Json, lf: Json, c: Context, cat: Catalogue, w: int, g: int): (r: Result<seq<Hit>>)
    ensures !p.JObj? ==> r.Err?
    ensures p.JObj? && !Truthy(PilotId(p)) ==> r == Ok([])
    ensures p.JObj? && PilotAdmitted(p, PilotId(p), c, cat) == Ok(false) ==> r == Ok([])
    ensures r.Ok? && |r.value| > 0 ==> PilotAdmitted(p, PilotId(p), c, cat) == Ok(true)
    ensures r.Ok? ==> |r.value| <= 1 && forall h :: h in r.value ==>
      h.key == PilotId(p) && Truthy(h.key) && h.wins == w && h.games == g && NamedFrom(cat, h)
  {
    if !p.JObj? then Err("exception")
    else
      var pid := PilotId(p);
      if !Truthy(pid) then Ok([])
      else match PilotAdmitted(p, pid, c, cat)
        case Err(m) => Err(m)
        case Ok(false) => Ok([])
        case Ok(true) =>
          match Info(cat, pid)
          case Err(m) => Err(m)
          case Ok(info) => Ok([Hit(pid, PilotMetaOf(info, pid, lf), w, g)])
  }

  /** The search text in the upgrade's name (the id when uncatalogued) or text. */
  function UpgradeTextMatch(info: Json, u: Json, text: string): (r: Result<bool>)
    ensures var n := GetOr(info, "name", u);
      var t := GetOr(info, "text", JStr(""));
      (r.Err? <==> !(n.JStr? && t.JStr?)) &&
      (r == Ok(true) <==> n.JStr? && t.JStr? && (Contains(Lower(n.s), text) || Contains(Lower(t.s), text)))
  {
    var n := GetOr(info, "name", u);
    var t := GetOr(info, "text", JStr(""));
    if n.JStr? && t.JStr? then Ok(Contains(Lower(n.s), text) || Contains(Lower(t.s), text)) else Err("exception")
  }

  /** `u_type.replace("-", " ").replace("_", " ")` */
  function TypeText(t: string): string {
    Replace(Replace(t, "-", " "), "_", " ")
  }

  /** One upgrade of a slot in the upgrades mode: the paired-upgrade target itself is
      skipped, and so is an upgrade the search text misses. */
  function UpgradeHit(u: Json, t: string, c: Context, cat: Catalogue, title: string -> string, w: int, g: int)
    : (r: Result<seq<Hit>>)
    ensures c.upgradeId != "" && u == JStr(c.upgradeId) ==> r == Ok([])
    ensures r.Ok? ==> |r.value| <= 1 && forall h :: h in r.value ==>
      h.key == u && h.wins == w && h.games == g && NamedFrom(cat, h) && h.meta.UpgradeMeta? && h.meta.kind == title(TypeText(t))
  {
    if c.upgradeId != "" && u == JStr(c.upgradeId) then Ok([])
    else
      match Info(cat, u)
      case Err(m) => Err(m)
      case Ok(info) =>
        var ok := if c.text == "" then Ok(true) else UpgradeTextMatch(info, u, c.text);
        match ok
        case Err(m) => Err(m)
        case Ok(false) => Ok([])
        case Ok(true) =>
          var meta := UpgradeMeta(GetOr(info, "name", u), title(TypeText(t)), GetOr(info, "image", JStr("")), GetOr(info, "cost", JInt(0)));
          Ok([Hit(u, meta, w, g)])
  }

  /** What every upgrade-mode hit of a pilot carries: the list's outcome, the catalogue
      name, and never the paired-upgrade target. */
  predicate UpgradeHitKept(h: Hit, c: Context, cat: Catalogue, w: int, g: int) {
    h.wins == w && h.games == g && NamedFrom(cat, h) && (c.upgradeId != "" ==> h.key != JStr(c.upgradeId))
  }

  /** One slot of a loadout: a slot the type filter drops adds nothing; a slot value that
      cannot be iterated raises. */
  function SlotHits(slot: (string, Json), c: Context, cat: Catalogue, title: string -> string, w: int, g: int)
    : (r: Result<seq<Hit>>)
    ensures |c.types| > 0 && Lower(slot.0) !in c.types ==> r == Ok([])
    ensures r.Ok? ==> forall h :: h in r.value ==> UpgradeHitKept(h, c, cat, w, g)
  {
    if |c.types| > 0 && Lower(slot.0) !in c.types then Ok([])
    else match Iter(slot.1)
      case None => Err("exception")
      case Some(us) =>
        var f := (u: Json) => UpgradeHit(u, slot.0, c, cat, title, w, g);
        var r := Gather(us, f);
        GatherKeeps(us, f, (h: Hit) => UpgradeHitKept(h, c, cat, w, g));
        r
  }

  /** One pilot of a list in the upgrades mode: with a pilot id set only that pilot
      counts, and with an upgrade id set only pilots carrying it count. */
  function UpgradePilotHits(p: Json, c: Context, cat: Catalogue, title: string -> string, w: int, g: int)
    : (r: Result<seq<Hit>>)
    ensures !p.JObj? ==> r.Err?
    ensures p.JObj? && c.pilotId != "" && PilotId(p) != JStr(c.pilotId) ==> r == Ok([])
    ensures p.JObj? && r.Ok? && |r.value| > 0 ==> UpgradeCheck(p, c) == Ok(true)
    ensures r.Ok? ==> forall h :: h in r.value ==> UpgradeHitKept(h, c, cat, w, g)
  {
    if !p.JObj? then Err("exception")
    else if c.pilotId != "" && PilotId(p) != JStr(c.pilotId) then Ok([])
    else match UpgradeCheck(p, c)
      case Err(m) => Err(m)
      case Ok(false) => Ok([])
      case Ok(true) =>
        var u := UpgradesOf(p);
        if !u.JObj? then Err("exception")
        else
          var f := (slot: (string, Json)) => SlotHits(slot, c, cat, title, w, g);
          var r := Gather(u.fields, f);
          GatherKeeps(u.fields, f, (h: Hit) => UpgradeHitKept(h, c, cat, w, g));
          r
  }

  /** The faction filter of the pilots mode: the faction id the list's faction reads as,
      among the allowed ones. */
  function FactionCheck(xws: Json, c: Context): (r: Result<bool>)
    ensures |c.factions| == 0 ==> r == Ok(true)
    ensures |c.factions| > 0 ==> r == match XwingParser.NormalizeFaction(GetOr(xws, "faction", JStr("unknown")))
      case Ok(v) => Ok(v in c.factions)
      case Err(m) => Err(m)
  {
    if |c.factions| == 0 then Ok(true)
    else match XwingParser.NormalizeFaction(GetOr(xws, "faction", JStr("unknown")))
      case Ok(v) => Ok(v in c.factions)
      case Err(m) => Err(m)
  }

  /** The catalogue names are read from in a mode. */
  function ModeCatalogue(mode: Mode, pilots: Catalogue, upgrades: Catalogue): Catalogue {
    if mode == PILOTS then pilots else upgrades
  }

  /** One row: nothing for a tournament of another format, a result without a dict list,
      or another mode; otherwise one hit per counted card occurrence, each carrying the
      row's outcome. */
  function RowHits(row: Row, c: Context, mode: Mode, pilots: Catalogue, upgrades: Catalogue, title: string -> string)
    : (r: Result<seq<Hit>>)
    ensures !FormatAdmits(c.formats, row.1) ==> r == Ok([])
    ensures !Truthy(row.0.listJson) || !row.0.listJson.JObj? || mode == OTHER_MODE ==> r == Ok([])
    ensures mode == PILOTS && FactionCheck(row.0.listJson, c) == Ok(false) ==> r == Ok([])
    ensures r.Ok? ==> forall h :: h in r.value ==>
      (h.wins, h.games) == Outcome(row.0) && NamedFrom(ModeCatalogue(mode, pilots, upgrades), h)
    ensures r.Ok? && mode == UPGRADES && c.upgradeId != "" ==> forall h :: h in r.value ==> h.key != JStr(c.upgradeId)
  {
    var xws := row.0.listJson;
    if !FormatAdmits(c.formats, row.1) || !Truthy(xws) || !xws.JObj? || mode == OTHER_MODE then Ok([])
    else
      var (w, g) := Outcome(row.0);
      if mode == PILOTS then
        match FactionCheck(xws, c)
        case Err(m) => Err(m)
        case Ok(false) => Ok([])
        case Ok(true) =>
          match Iter(GetOr(xws, "pilots", JList([])))
          case None => Err("exception")
          case Some(ps) =>
            var lf := GetOr(xws, "faction", JStr("unknown"));
            var f := (p: Json) => PilotHit(p, lf, c, pilots, w, g);
            var r := Gather(ps, f);
            GatherKeeps(ps, f, (h: Hit) => h.wins == w && h.games == g && NamedFrom(pilots, h));
            r
      else
        match Iter(GetOr(xws, "pilots", JList([])))
        case None => Err("exception")
        case Some(ps) =>
          var f := (p: Json) => UpgradePilotHits(p, c, upgrades, title, w, g);
          var r := Gather(ps, f);
          GatherKeeps(ps, f, (h: Hit) => UpgradeHitKept(h, c, upgrades, w, g));
          r
  }

  // ---------------------------------------------------------------- gathering

  /** The hits of a loop over `xs`, in order; the first element that raises ends it. */
  function Gather<T>(xs: seq<T>, f: T -> Result<seq<Hit>>): Result<seq<Hit>> {
    if |xs| == 0 then Ok([])
    else match Gather(xs[..|xs| - 1], f)
      case Err(m) => Err(m)
      case Ok(hs) =>
        match f(xs[|xs| - 1])
        case Err(m) => Err(m)
        case Ok(more) => Ok(hs + more)
  }

  /** What holds of every hit of every element holds of every gathered hit. */
  lemma {:induction false} GatherKeeps<T>(xs: seq<T>, f: T -> Result<seq<Hit>>, P: Hit -> bool)
    requires forall x :: x in xs && f(x).Ok? ==> forall h :: h in f(x).value ==> P(h)
    ensures Gather(xs, f).Ok? ==> forall h :: h in Gather(xs, f).value ==> P(h)
    decreases |xs|
  {
    if |xs| > 0 {
      GatherKeeps(xs[..|xs| - 1], f, P);
      assert xs[|xs| - 1] in xs;
    }
  }

  /** The loop itself. */
  method GatherOf<T>(xs: seq<T>, f: T -> Result<seq<Hit>>) returns (r: Result<seq<Hit>>)
    ensures r == Gather(xs, f)
  {
    var hs: seq<Hit> := [];
    var i := 0;
    while i < |xs|
      invariant 0 <= i <= |xs|
      invariant Gather(xs[..i], f) == Ok(hs)
    {
      assert xs[..i + 1][..i] == xs[..i];
      var more := f(xs[i]);
      if more.Err? {
        GatherStops(xs, f, i, |xs|);
        assert xs[..|xs|] == xs;
        return Err(more.msg);
      }
      hs := hs + more.value;
      i := i + 1;
    }
    assert xs[..i] == xs;
    r := Ok(hs);
  }

  /** The first element that raises decides the error. */
  lemma {:induction false} GatherStops<T>(xs: seq<T>, f: T -> Result<seq<Hit>>, i: nat, m: nat)
    requires i < m <= |xs| && Gather(xs[..i], f).Ok? && f(xs[i]).Err?
    ensures Gather(xs[..m], f) == Err(f(xs[i]).msg)
    decreases m
  {
    var p := xs[..m];
    assert p[..m - 1] == xs[..m - 1];
    assert p[m - 1] == xs[m - 1];
    if m > i + 1 {
      GatherStops(xs, f, i, m - 1);
    } else {
      assert xs[..i + 1][..i] == xs[..i];
    }
  }

  /** Gathering over two parts gathers their hits one after the other. */
  lemma {:induction false} GatherAppend<T>(xs: seq<T>, x: T, f: T -> Result<seq<Hit>>)
    requires Gather(xs, f).Ok? && f(x).Ok?
    ensures Gather(xs + [x], f) == Ok(Gather(xs, f).value + f(x).value)
  {
    assert (xs + [x])[..|xs|] == xs;
  }

  // ---------------------------------------------------------------- accumulation

  /** A card's stats entry. */
  datatype CardStat = CardStat(xws: Json, meta: Meta, count: int, wins: int, games: int)

  type Stats = Dicts.Dict<Json, CardStat>

  /** `if key not in stats: stats[key] = {…, "count": 0, …}` then `count += 1`,
      `wins += w`, `games += g`. */
  function AddHit(d: Stats, h: Hit): Stats {
    var e := Dicts.Get(d, h.key).GetOr(CardStat(h.key, h.meta, 0, 0, 0));
    Dicts.Put(d, h.key, e.(count := e.count + 1, wins := e.wins + h.wins, games := e.games + h.games))
  }

  /** `d` after the hits, in order. */
  function AddHits(d: Stats, hits: seq<Hit>): Stats {
    if |hits| == 0 then d else AddHit(AddHits(d, hits[..|hits| - 1]), hits[|hits| - 1])
  }

  /** The stats dict built from nothing. */
  function Tally(hits: seq<Hit>): Stats {
    AddHits([], hits)
  }

  lemma {:induction false} AddHitsAppend(d: Stats, a: seq<Hit>, b: seq<Hit>)
    ensures AddHits(d, a + b) == AddHits(AddHits(d, a), b)
    decreases |b|
  {
    if |b| == 0 {
      assert a + b == a;
    } else {
      var n := |b| - 1;
      assert (a + b)[..|a + b| - 1] == a + b[..n];
      AddHitsAppend(d, a, b[..n]);
    }
  }

  // Reference definitions: what the entry of each card should hold.

  /** The cards hit, in the order of their first hit. */
  function Seen(hits: seq<Hit>): seq<Json> {
    if |hits| == 0 then []
    else
      var s := Seen(hits[..|hits| - 1]);
      if hits[|hits| - 1].key in s then s else s + [hits[|hits| - 1].key]
  }

  /** The number of hits of `k`. */
  function Count(hits: seq<Hit>, k: Json): nat {
    if |hits| == 0 then 0
    else Count(hits[..|hits| - 1], k) + (if hits[|hits| - 1].key == k then 1 else 0)
  }

  function WinsOf(hits: seq<Hit>, k: Json): int {
    if |hits| == 0 then 0
    else WinsOf(hits[..|hits| - 1], k) + (if hits[|hits| - 1].key == k then hits[|hits| - 1].wins else 0)
  }

  function GamesOf(hits: seq<Hit>, k: Json): int {
    if |hits| == 0 then 0
    else GamesOf(hits[..|hits| - 1], k) + (if hits[|hits| - 1].key == k then hits[|hits| - 1].games else 0)
  }

  /** The metadata of the first hit of `k`. */
  function FirstMeta(hits: seq<Hit>, k: Json): Option<Meta> {
    if |hits| == 0 then None
    else match FirstMeta(hits[..|hits| - 1], k)
      case Some(m) => Some(m)
      case None => if hits[|hits| - 1].key == k then Some(hits[|hits| - 1].meta) else None
  }

  /** The entry `k` should have: none for a card never hit. */
  function Expected(hits: seq<Hit>, k: Json): Option<CardStat> {
    match FirstMeta(hits, k)
    case None => None
    case Some(m) => Some(CardStat(k, m, Count(hits, k), WinsOf(hits, k), GamesOf(hits, k)))
  }

  /** A card without a first hit has no hits at all. */
  lemma {:induction false} NoFirstNoHits(hits: seq<Hit>, k: Json)
    requires FirstMeta(hits, k).None?
    ensures Count(hits, k) == 0 && WinsOf(hits, k) == 0 && GamesOf(hits, k) == 0
    ensures k !in Seen(hits)
    decreases |hits|
  {
    if |hits| > 0 {
      NoFirstNoHits(hits[..|hits| - 1], k);
    }
  }

  /** A card with a first hit was seen. */
  lemma {:induction false} FirstSeen(hits: seq<Hit>, k: Json)
    requires FirstMeta(hits, k).Some?
    ensures k in Seen(hits) && Count(hits, k) > 0
    decreases |hits|
  {
    var n := |hits| - 1;
    if FirstMeta(hits[..n], k).Some? {
      FirstSeen(hits[..n], k);
    }
  }

  /** What the tally of `hits` should be, key by key. */
  ghost predicate TallyHolds(hits: seq<Hit>, d: Stats) {
    Dicts.Distinct(d) && Dicts.KeysOf(d) == Seen(hits) && forall k :: Dicts.Get(d, k) == Expected(hits, k)
  }

  /** A hit of another card changes nothing of `k`'s reference entry. */
  lemma ExpectedOther(prev: seq<Hit>, h: Hit, k: Json)
    requires k != h.key
    ensures Expected(prev + [h], k) == Expected(prev, k)
  {
    assert (prev + [h])[..|prev|] == prev;
  }

  /** A hit of `h.key` opens its reference entry or adds one occurrence to it. */
  lemma ExpectedSame(prev: seq<Hit>, h: Hit)
    ensures var e := Expected(prev, h.key).GetOr(CardStat(h.key, h.meta, 0, 0, 0));
      Expected(prev + [h], h.key) == Some(e.(count := e.count + 1, wins := e.wins + h.wins, games := e.games + h.games))
  {
    assert (prev + [h])[..|prev|] == prev;
    if FirstMeta(prev, h.key).None? {
      NoFirstNoHits(prev, h.key);
    }
  }

  lemma SeenStep(prev: seq<Hit>, h: Hit)
    ensures Seen(prev + [h]) == if h.key in Seen(prev) then Seen(prev) else Seen(prev) + [h.key]
  {
    assert (prev + [h])[..|prev|] == prev;
  }

  /** One counting step keeps the tally equal to its reference. */
  lemma TallyStep(prev: seq<Hit>, h: Hit, d: Stats)
    requires TallyHolds(prev, d)
    ensures TallyHolds(prev + [h], AddHit(d, h))
  {
    var e := Dicts.Get(d, h.key).GetOr(CardStat(h.key, h.meta, 0, 0, 0));
    var v := e.(count := e.count + 1, wins := e.wins + h.wins, games := e.games + h.games);
    assert AddHit(d, h) == Dicts.Put(d, h.key, v);
    Dicts.PutSpec(d, h.key, v);
    StepKeys(prev, h, d, v);
    StepValues(prev, h, d, v);
  }

  lemma StepKeys(prev: seq<Hit>, h: Hit, d: Stats, v: CardStat)
    requires Dicts.KeysOf(d) == Seen(prev)
    ensures Dicts.KeysOf(Dicts.Put(d, h.key, v)) == Seen(prev + [h])
  {
    Dicts.PutKeys(d, h.key, v);
    Dicts.HasIffKey(d, h.key);
    SeenStep(prev, h);
  }

  lemma StepValues(prev: seq<Hit>, h: Hit, d: Stats, v: CardStat)
    requires Dicts.Distinct(d) && forall k :: Dicts.Get(d, k) == Expected(prev, k)
    requires var e := Dicts.Get(d, h.key).GetOr(CardStat(h.key, h.meta, 0, 0, 0));
      v == e.(count := e.count + 1, wins := e.wins + h.wins, games := e.games + h.games)
    ensures forall k :: Dicts.Get(Dicts.Put(d, h.key, v), k) == Expected(prev + [h], k)
  {
    Dicts.PutSpec(d, h.key, v);
    ExpectedSame(prev, h);
    forall k | k != h.key ensures Dicts.Get(Dicts.Put(d, h.key, v), k) == Expected(prev + [h], k) {
      ExpectedOther(prev, h, k);
    }
  }

  /** The stats dict holds one entry per card hit, in the order of first hits, and each
      entry holds the card's first metadata, its number of hits and the sums of their
      wins and games. */
  lemma {:induction false} TallySpec(hits: seq<Hit>)
    ensures Dicts.Distinct(Tally(hits))
    ensures Dicts.KeysOf(Tally(hits)) == Seen(hits)
    ensures forall k :: Dicts.Get(Tally(hits), k) == Expected(hits, k)
    decreases |hits|
  {
    if |hits| > 0 {
      var n := |hits| - 1;
      TallySpec(hits[..n]);
      assert hits == hits[..n] + [hits[n]];
      TallyStep(hits[..n], hits[n], Tally(hits[..n]));
    }
  }

  /** The stats loop: rows, then the hits of each row into the dict. */
  method TallyOf(rows: seq<Row>, reader: Row -> Result<seq<Hit>>) returns (r: Result<Stats>)
    ensures r == match Gather(rows, reader) case Err(m) => Err(m) case Ok(hits) => Ok(Tally(hits))
  {
    var d: Stats := [];
    ghost var hs: seq<Hit> := [];
    var i := 0;
    while i < |rows|
      invariant 0 <= i <= |rows|
      invariant Gather(rows[..i], reader) == Ok(hs) && d == Tally(hs)
    {
      assert rows[..i + 1] == rows[..i] + [rows[i]];
      var more := reader(rows[i]);
      if more.Err? {
        GatherStops(rows, reader, i, |rows|);
        assert rows[..|rows|] == rows;
        return Err(more.msg);
      }
      GatherAppend(rows[..i], rows[i], reader);
      d := AddHitsOf(d, more.value);
      AddHitsAppend([], hs, more.value);
      hs := hs + more.value;
      i := i + 1;
    }
    assert rows[..i] == rows;
    r := Ok(d);
  }

  /** The counting statements for the hits of one row. */
  method AddHitsOf(d: Stats, hits: seq<Hit>) returns (r: Stats)
    ensures r == AddHits(d, hits)
  {
    r := d;
    var i := 0;
    while i < |hits|
      invariant 0 <= i <= |hits|
      invariant r == AddHits(d, hits[..i])
    {
      assert hits[..i + 1][..i] == hits[..i];
      r := AddHit(r, hits[i]);
      i := i + 1;
    }
    assert hits[..i] == hits;
  }

  // ---------------------------------------------------------------- results

  /** One output row, before rounding of the win rate. */
  datatype CardResult = CardResult(xws: Json, meta: Meta, count: int, wins: int, games: int, winRate: real)

  /** `wins / games * 100`, or 0.0 without games. */
  function WinRate(wins: int, games: int): (r: real)
    ensures games <= 0 ==> r == 0.0
    ensures 0 <= wins <= games ==> 0.0 <= r <= 100.0
    ensures 0 < games && wins == games ==> r == 100.0
  {
    if games > 0 then (wins as real / games as real) * 100.0 else 0.0
  }

  /** The post-processing of one entry: the win rate, and the catalogue name in place of
      a name that is empty or just the id. */
  function Summary(e: CardStat, cat: Catalogue): (r: Result<CardResult>)
    ensures r.Ok? ==> var x := r.value;
      x.xws == e.xws && x.count == e.count && x.wins == e.wins && x.games == e.games &&
      x.winRate == WinRate(e.wins, e.games)
    ensures Info(cat, e.xws).Ok? && e.meta.name == GetOr(Info(cat, e.xws).value, "name", e.xws) ==> r == Ok(CardResult(e.xws, e.meta, e.count, e.wins, e.games, WinRate(e.wins, e.games)))
  {
    var name := e.meta.name;
    if !Truthy(name) || name == e.xws then
      match Info(cat, e.xws)
      case Err(m) => Err(m)
      case Ok(info) => Ok(CardResult(e.xws, e.meta.(name := GetOr(info, "name", e.xws)), e.count, e.wins, e.games, WinRate(e.wins, e.games)))
    else Ok(CardResult(e.xws, e.meta, e.count, e.wins, e.games, WinRate(e.wins, e.games)))
  }

  /** The results loop over the entries, in dict order. */
  function Summaries(d: Stats, cat: Catalogue): (r: Result<seq<CardResult>>)
    ensures r.Ok? ==> |r.value| == |d| && forall i :: 0 <= i < |d| ==> Summary(d[i].1, cat) == Ok(r.value[i])
  {
    if |d| == 0 then Ok([])
    else match Summaries(d[..|d| - 1], cat)
      case Err(m) => Err(m)
      case Ok(rs) =>
        match Summary(d[|d| - 1].1, cat)
        case Err(m) => Err(m)
        case Ok(x) => Ok(rs + [x])
  }

  method SummariesOf(d: Stats, cat: Catalogue) returns (r: Result<seq<CardResult>>)
    ensures r == Summaries(d, cat)
  {
    var rs: seq<CardResult> := [];
    var i := 0;
    while i < |d|
      invariant 0 <= i <= |d|
      invariant Summaries(d[..i], cat) == Ok(rs)
    {
      assert d[..i + 1][..i] == d[..i];
      var x := Summary(d[i].1, cat);
      if x.Err? {
        SummariesStop(d, cat, i, |d|);
        assert d[..|d|] == d;
        return Err(x.msg);
      }
      rs := rs + [x.value];
      i := i + 1;
    }
    assert d[..i] == d;
    r := Ok(rs);
  }

  lemma {:induction false} SummariesStop(d: Stats, cat: Catalogue, i: nat, m: nat)
    requires i < m <= |d| && Summaries(d[..i], cat).Ok? && Summary(d[i].1, cat).Err?
    ensures Summaries(d[..m], cat) == Err(Summary(d[i].1, cat).msg)
    decreases m
  {
    var p := d[..m];
    assert p[..m - 1] == d[..m - 1];
    assert p[m - 1] == d[m - 1];
    if m > i + 1 {
      SummariesStop(d, cat, i, m - 1);
    } else {
      assert d[..i + 1][..i] == d[..i];
    }
  }

  /** The sort key: (more than five games, win rate, count), or the count. */
  function SortKey(s: SortMode): CardResult -> seq<real> {
    match s
    case ByWinRate => (x: CardResult) => [if x.games > 5 then 1.0 else 0.0, x.winRate, x.count as real]
    case ByPopularity => (x: CardResult) => [x.count as real]
  }

  function Reader(c: Context, mode: Mode, pilots: Catalogue, upgrades: Catalogue, title: string -> string): Row -> Result<seq<Hit>> {
    (row: Row) => RowHits(row, c, mode, pilots, upgrades, title)
  }

  /** The hits of every row the query returns. */
  function Hits(rows: seq<Row>, f: Filters, mode: Mode, pilots: Catalogue, upgrades: Catalogue, title: string -> string)
    : Result<seq<Hit>>
  {
    Gather(rows, Reader(Setup(f), mode, pilots, upgrades, title))
  }

  /** `aggregate_card_stats` over the rows the query returns; `title` is `str.title`. */
  function AggregateCardStats(rows: seq<Row>, f: Filters, s: SortMode, mode: Mode, pilots: Catalogue,
                              upgrades: Catalogue, title: string -> string): (r: Result<seq<CardResult>>)
    ensures r.Ok? ==> Ordered(r.value, SortKey(s), true)
  {
    match Hits(rows, f, mode, pilots, upgrades, title)
    case Err(m) => Err(m)
    case Ok(hits) =>
      match Summaries(Tally(hits), ModeCatalogue(mode, pilots, upgrades))
      case Err(m) => Err(m)
      case Ok(rs) =>
        SortByOrdered(rs, SortKey(s), true);
        Ok(SortBy(rs, SortKey(s), true))
  }

  /** Every counted occurrence names its card as the entry would, so the name fallback
      of the results loop never changes a name and never raises. */
  lemma {:induction false} FirstMetaNamed(hits: seq<Hit>, cat: Catalogue, k: Json)
    requires forall h :: h in hits ==> NamedFrom(cat, h)
    requires FirstMeta(hits, k).Some?
    ensures Info(cat, k).Ok? && FirstMeta(hits, k).value.name == GetOr(Info(cat, k).value, "name", k)
    decreases |hits|
  {
    var n := |hits| - 1;
    if FirstMeta(hits[..n], k).Some? {
      assert forall h :: h in hits[..n] ==> h in hits;
      FirstMetaNamed(hits[..n], cat, k);
    } else {
      assert hits[n] in hits;
    }
  }

  /** The results loop over a tally of well-named hits succeeds and keeps each entry's
      metadata. */
  lemma SummariesOfTally(hits: seq<Hit>, cat: Catalogue)
    requires forall h :: h in hits ==> NamedFrom(cat, h)
    ensures Summaries(Tally(hits), cat).Ok?
    ensures forall i :: 0 <= i < |Tally(hits)| ==>
      Summaries(Tally(hits), cat).value[i] == Summarized(Tally(hits)[i].1)
  {
    var d := Tally(hits);
    TallySpec(hits);
    forall i | 0 <= i < |d| ensures Summary(d[i].1, cat) == Ok(Summarized(d[i].1)) {
      Dicts.FindDistinct(d, d[i].0, i);
      assert Dicts.Get(d, d[i].0) == Some(d[i].1);
      assert FirstMeta(hits, d[i].0).Some?;
      FirstMetaNamed(hits, cat, d[i].0);
    }
    SummariesAll(d, cat);
  }

  /** An entry as the results loop reports it when its name needs no fallback. */
  function Summarized(e: CardStat): CardResult {
    CardResult(e.xws, e.meta, e.count, e.wins, e.games, WinRate(e.wins, e.games))
  }

  lemma {:induction false} SummariesAll(d: Stats, cat: Catalogue)
    requires forall i :: 0 <= i < |d| ==> Summary(d[i].1, cat) == Ok(Summarized(d[i].1))
    ensures Summaries(d, cat) == Ok(Mapped(d, (kv: (Json, CardStat)) => Summarized(kv.1)))
    decreases |d|
  {
    if |d| > 0 {
      var n := |d| - 1;
      SummariesAll(d[..n], cat);
      assert Mapped(d, (kv: (Json, CardStat)) => Summarized(kv.1)) ==
        Mapped(d[..n], (kv: (Json, CardStat)) => Summarized(kv.1)) + [Summarized(d[n].1)];
    }
  }

  /** A result holds its card's reference totals. */
  predicate Reported(hits: seq<Hit>, x: CardResult) {
    x.xws in Seen(hits) && FirstMeta(hits, x.xws) == Some(x.meta) &&
    x.count == Count(hits, x.xws) && x.wins == WinsOf(hits, x.xws) &&
    x.games == GamesOf(hits, x.xws) && x.winRate == WinRate(x.wins, x.games)
  }

  lemma EntryReported(hits: seq<Hit>, cat: Catalogue, i: nat)
    requires forall h :: h in hits ==> NamedFrom(cat, h)
    requires i < |Tally(hits)|
    ensures Summaries(Tally(hits), cat).Ok? && Reported(hits, Summaries(Tally(hits), cat).value[i])
  {
    var d := Tally(hits);
    SummariesOfTally(hits, cat);
    TallySpec(hits);
    Dicts.FindDistinct(d, d[i].0, i);
    assert Dicts.KeysOf(d)[i] == d[i].0;
    assert Dicts.Get(d, d[i].0) == Expected(hits, d[i].0);
  }

  /** The results: ordered by the sort key, descending; one per card hit; and each one
      holding its card's number of counted occurrences, the sums of their wins and
      games, the metadata of its first occurrence and its win rate. */
  lemma Ranking(rows: seq<Row>, f: Filters, s: SortMode, mode: Mode, pilots: Catalogue, upgrades: Catalogue,
                title: string -> string)
    requires Hits(rows, f, mode, pilots, upgrades, title).Ok?
    ensures AggregateCardStats(rows, f, s, mode, pilots, upgrades, title).Ok?
    ensures var r := AggregateCardStats(rows, f, s, mode, pilots, upgrades, title).value;
      var hits := Hits(rows, f, mode, pilots, upgrades, title).value;
      Ordered(r, SortKey(s), true) && |r| == |Seen(hits)| && forall x :: x in r ==> Reported(hits, x)
  {
    var hits := Hits(rows, f, mode, pilots, upgrades, title).value;
    var cat := ModeCatalogue(mode, pilots, upgrades);
    var c := Setup(f);
    GatherKeeps(rows, Reader(c, mode, pilots, upgrades, title), (h: Hit) => NamedFrom(cat, h));
    SummariesOfTally(hits, cat);
    TallySpec(hits);
    var d := Tally(hits);
    var xs := Summaries(d, cat).value;
    SortByOrdered(xs, SortKey(s), true);
    SortByMultiset(xs, SortKey(s), true);
    var r := SortBy(xs, SortKey(s), true);
    assert |multiset(r)| == |multiset(xs)|;
    SummariesReported(hits, cat);
    forall x | x in r ensures x in xs {
      assert x in multiset(r);
    }
  }

  /** Every summary of the tally is reported by some hit. */
  lemma SummariesReported(hits: seq<Hit>, cat: Catalogue)
    requires forall h :: h in hits ==> NamedFrom(cat, h)
    ensures Summaries(Tally(hits), cat).Ok?
    ensures forall x :: x in Summaries(Tally(hits), cat).value ==> Reported(hits, x)
  {
    SummariesOfTally(hits, cat);
    var xs := Summaries(Tally(hits), cat).value;
    forall x | x in xs ensures Reported(hits, x) {
      var i :| 0 <= i < |xs| && xs[i] == x;
      EntryReported(hits, cat, i);
    }
  }

  /** The whole aggregation, loop by loop. */
  method AggregateCardStatsOf(rows: seq<Row>, f: Filters, s: SortMode, mode: Mode, pilots: Catalogue,
                              upgrades: Catalogue, title: string -> string) returns (r: Result<seq<CardResult>>)
    ensures r == AggregateCardStats(rows, f, s, mode, pilots, upgrades, title)
  {
    var d := TallyOf(rows, Reader(Setup(f), mode, pilots, upgrades, title));
    if d.Err? {
      return Err(d.msg);
    }
    var rs := SummariesOf(d.value, ModeCatalogue(mode, pilots, upgrades));
    if rs.Err? {
      return Err(rs.msg);
    }
    r := Ok(SortBy(rs.value, SortKey(s), true));
  }
}
