/** The `/api/lists` endpoint: player lists are grouped by their list signature, the
    groups are filtered by faction, points and loadout, counted, enriched from the card
    catalogues, sorted by the requested metric and cut to one page. */
module ApiLists {
  import opened Wrappers
  import opened Strings
  import opened Json
  import opened Sorting
  import opened Models
  import Dicts
  import Factions
  import Squadron

  /** A row of the query: a player result with its tournament. */
  type Row = (PlayerResult, Tournament)

  /** The query parameters. A missing faction list is the empty list. */
  datatype Query = Query(
    page: nat,
    size: nat,
    dataSource: string,
    factions: seq<string>,
    pointsMin: int,
    pointsMax: int,
    minGames: int,
    loadoutMin: int,
    loadoutMax: int,
    sortMetric: string,
    sortDirection: string)

  /** The range the endpoint validates before running: `page >= 0`, `1 <= size <= 100`. */
  predicate ValidQuery(q: Query) {
    1 <= q.size <= 100
  }

  /** The catalogues the endpoint reads: pilot and upgrade entries (a dict, or a falsy
      value for an unknown id) and the primary slot of an upgrade. */
  datatype Catalogues = Catalogues(pilotInfo: Squadron.Catalogue, upgradeInfo: Squadron.Catalogue, upgradeSlot: Json -> string)

  // ---------------------------------------------------------------- admitting a row

  /** The points of a list; missing or `None` points count as 0. */
  function PointsOf(xws: Json): (r: Json)
    ensures Get(xws, "points").JNull? ==> r == JInt(0)
    ensures !Get(xws, "points").JNull? ==> r == Get(xws, "points")
  {
    var p := Get(xws, "points");
    if p.JNull? then JInt(0) else p
  }

  /** The points window: never below `pointsMin`, and above `pointsMax` only when
      `pointsMax` is at least 200. */
  predicate PointsInRange(pv: real, q: Query) {
    !(pv < q.pointsMin as real) && !(q.pointsMax < 200 && pv > q.pointsMax as real)
  }

  /** An empty faction list lets every faction through. */
  predicate FactionAllowed(faction: Json, q: Query) {
    |q.factions| == 0 || (faction.JStr? && faction.s in q.factions)
  }

  /** The faction key of a list, "unknown" when absent. */
  function FactionKey(xws: Json): Json {
    GetOr(xws, "faction", JStr("unknown"))
  }

  /** What a row contributes before the loadout step: `Ok(None)` when it is skipped
      (no squad, no signature, faction or points outside the query), `Err` where Python
      raises (a signature that raises, points that do not compare with a number),
      otherwise its signature. */
  function Admit(row: Row, q: Query, c: Catalogues): (r: Result<Option<string>>)
    ensures r.Ok? && r.value.Some? ==>
      var xws := row.0.listJson;
      xws.JObj? && Squadron.ListSignature(xws, c.pilotInfo) == Ok(Some(r.value.value)) && r.value.value != "" &&
      FactionAllowed(FactionKey(xws), q) &&
      Number(PointsOf(xws)).Some? && PointsInRange(Number(PointsOf(xws)).value, q)
  {
    var xws := row.0.listJson;
    if !Truthy(xws) || !xws.JObj? then Ok(None)
    else
      match Squadron.ListSignature(xws, c.pilotInfo)
      case Err(m) => Err(m)
      case Ok(sig) =>
        if sig.None? || sig.value == "" then Ok(None)
        else if !FactionAllowed(FactionKey(xws), q) then Ok(None)
        else
          match Number(PointsOf(xws))
          case None => Err("exception")
          case Some(pv) => if PointsInRange(pv, q) then Ok(Some(sig.value)) else Ok(None)
  }

  /** With `pointsMax` at 200 or more there is no upper bound. */
  lemma NoUpperBound(pv: real, q: Query)
    requires q.pointsMax >= 200
    ensures PointsInRange(pv, q) <==> pv >= q.pointsMin as real
  {
  }

  // ---------------------------------------------------------------- loadout

  /** `total += v` for an integer total: integers and booleans add, anything else
      raises. */
  function LoadoutValue(v: Json): Option<int> {
    match v
    case JInt(i) => Some(i)
    case JBool(b) => Some(if b then 1 else 0)
    case _ => None
  }

  /** One pilot's loadout: 0 without an id or a catalogue entry. */
  function PilotLoadout(p: Json, info: Squadron.Catalogue): (r: Result<int>)
    ensures !p.JObj? ==> r.Err?
    ensures p.JObj? && (!Truthy(Squadron.PilotId(p)) || !Truthy(info(Squadron.PilotId(p)))) ==> r == Ok(0)
  {
    if !p.JObj? then Err("exception")
    else
      var pid := Squadron.PilotId(p);
      if !Truthy(pid) then Ok(0)
      else
        var pinfo := info(pid);
        if !Truthy(pinfo) then Ok(0)
        else if !pinfo.JObj? then Err("exception")
        else
          match LoadoutValue(GetOr(pinfo, "loadout", JInt(0)))
          case None => Err("exception")
          case Some(v) => Ok(v)
  }

  /** The sum of the pilots' loadouts; `Err` when one of them raises. */
  function LoadoutSum(ps: seq<Json>, info: Squadron.Catalogue): (r: Result<int>)
    ensures r.Ok? <==> forall i :: 0 <= i < |ps| ==> PilotLoadout(ps[i], info).Ok?
    ensures r.Err? ==> r.msg == "exception"
  {
    if |ps| == 0 then Ok(0)
    else
      var n := |ps| - 1;
      var rest := LoadoutSum(ps[..n], info);
      assert forall i :: 0 <= i < n ==> ps[..n][i] == ps[i];
      match rest
      case Err(m) => Err(m)
      case Ok(t) =>
        match PilotLoadout(ps[n], info)
        case Err(m) => Err(m)
        case Ok(v) => Ok(t + v)
  }

  /** The total loadout of a list. */
  function TotalLoadout(xws: Json, info: Squadron.Catalogue): Result<int> {
    match Iter(GetOr(xws, "pilots", JList([])))
    case None => Err("exception")
    case Some(ps) => LoadoutSum(ps, info)
  }

  /** The loadout a group is judged by: computed for the XWA source while the group's
      total is still 0, kept otherwise. */
  function Reloaded(s: SigStats, xws: Json, q: Query, info: Squadron.Catalogue): (r: Result<SigStats>)
    ensures r.Ok? ==> r.value == s.(totalLoadout := r.value.totalLoadout)
    ensures s.totalLoadout != 0 || q.dataSource != "xwa" ==> r == Ok(s)
  {
    if s.totalLoadout == 0 && q.dataSource == "xwa" then
      match TotalLoadout(xws, info)
      case Err(m) => Err(m)
      case Ok(t) => Ok(s.(totalLoadout := t))
    else Ok(s)
  }

  /** The loadout window, which only the XWA source applies; a bound of 0 is no bound. */
  predicate LoadoutRejected(s: SigStats, q: Query) {
    q.dataSource == "xwa" &&
    ((q.loadoutMin > 0 && s.totalLoadout < q.loadoutMin) || (q.loadoutMax > 0 && s.totalLoadout > q.loadoutMax))
  }

  // ---------------------------------------------------------------- games and wins

  /** The games a result contributes: its swiss W+L+D, or 3 when those are all 0, for a
      ranked result; nothing for an unranked one. */
  function RankedGames(p: PlayerResult): (g: int)
    ensures p.swissRank <= 0 ==> g == 0
    ensures p.swissRank > 0 ==> g != 0
  {
    if p.swissRank > 0 then
      var played := p.swissWins + p.swissLosses + p.swissDraws;
      if played == 0 then 3 else played
    else 0
  }

  /** The wins a result contributes: its swiss wins for a ranked result, a negative
      placeholder read as 0. */
  function RankedWins(p: PlayerResult): (w: nat)
    ensures p.swissRank <= 0 || p.swissWins < 0 ==> w == 0
    ensures p.swissRank > 0 && p.swissWins >= 0 ==> w == p.swissWins
  {
    if p.swissRank > 0 && p.swissWins >= 0 then p.swissWins else 0
  }

  /** A ranked result without reported games counts as three games. */
  lemma UnplayedCountsThree(p: PlayerResult)
    requires p.swissRank > 0 && p.swissWins == 0 && p.swissLosses == 0 && p.swissDraws == 0
    ensures RankedGames(p) == 3 && RankedWins(p) == 0
  {
  }

  // ---------------------------------------------------------------- grouping

  /** A group: the faction, points and squad of its first admitted list, its counters
      and its loadout. */
  datatype SigStats = SigStats(faction: Json, points: Json, count: int, games: int, wins: int, rawXws: Json, totalLoadout: int)

  type Groups = Dicts.Dict<string, SigStats>

  /** The group `sig` as the row finds it, opened from this row's list when new. */
  function Opened(d: Groups, sig: string, xws: Json): SigStats {
    match Dicts.Get(d, sig)
    case Some(s) => s
    case None => SigStats(FactionKey(xws), PointsOf(xws), 0, 0, 0, xws, 0)
  }

  /** Count an admitted row: the count goes up, the loadout may be computed, and then
      either the loadout window rejects the row and the count goes back down, or its
      games and wins are added. */
  function Counted(s: SigStats, row: Row, q: Query, info: Squadron.Catalogue): Result<SigStats> {
    var up := s.(count := s.count + 1);
    match Reloaded(up, row.0.listJson, q, info)
    case Err(m) => Err(m)
    case Ok(s1) =>
      if LoadoutRejected(s1, q) then Ok(s1.(count := s1.count - 1))
      else Ok(s1.(games := s1.games + RankedGames(row.0), wins := s1.wins + RankedWins(row.0)))
  }

  /** One row of the loop over the query result. */
  function Step(d: Groups, row: Row, q: Query, c: Catalogues): Result<Groups> {
    match Admit(row, q, c)
    case Err(m) => Err(m)
    case Ok(None) => Ok(d)
    case Ok(Some(sig)) =>
      match Counted(Opened(d, sig, row.0.listJson), row, q, c.pilotInfo)
      case Err(m) => Err(m)
      case Ok(s) => Ok(Dicts.Put(d, sig, s))
  }

  /** The groups of all rows; `Err` when some row raises. */
  function Tally(rows: seq<Row>, q: Query, c: Catalogues): Result<Groups> {
    if |rows| == 0 then Ok([])
    else
      var n := |rows| - 1;
      match Tally(rows[..n], q, c)
      case Err(m) => Err(m)
      case Ok(d) => Step(d, rows[n], q, c)
  }

  /** A counted row: the group's count is up by one and its games and wins grow by the
      row's, unless the loadout window rejects it, which leaves the count as it was. The
      descriptive fields never change, and a non-zero loadout is never recomputed. */
  lemma CountedEffect(s: SigStats, row: Row, q: Query, info: Squadron.Catalogue)
    requires Counted(s, row, q, info).Ok?
    ensures var t := Counted(s, row, q, info).value;
      t.faction == s.faction && t.points == s.points && t.rawXws == s.rawXws &&
      (s.totalLoadout != 0 ==> t.totalLoadout == s.totalLoadout) &&
      (q.dataSource != "xwa" ==> t.totalLoadout == s.totalLoadout) &&
      if LoadoutRejected(t, q) then t.count == s.count && t.games == s.games && t.wins == s.wins
      else t.count == s.count + 1 && t.games == s.games + RankedGames(row.0) && t.wins == s.wins + RankedWins(row.0)
  {
  }

  /** The loadout window rejects nothing outside the XWA source. */
  lemma OtherSourcesIgnoreLoadout(s: SigStats, q: Query)
    requires q.dataSource != "xwa"
    ensures !LoadoutRejected(s, q)
  {
  }

  /** What every group built by the loop satisfies: no signature is repeated, counts
      are never negative, and the points the group keeps are a number that lies
      within the query's window. */
  predicate GroupsValid(d: Groups, q: Query) {
    Dicts.Distinct(d) && forall i :: 0 <= i < |d| ==> GroupOk(d[i].1, q)
  }

  predicate GroupOk(s: SigStats, q: Query) {
    s.count >= 0 && Number(s.points).Some? && PointsInRange(Number(s.points).value, q)
  }

  lemma {:induction false} TallyValid(rows: seq<Row>, q: Query, c: Catalogues)
    requires Tally(rows, q, c).Ok?
    ensures GroupsValid(Tally(rows, q, c).value, q)
    decreases |rows|
  {
    if |rows| > 0 {
      var n := |rows| - 1;
      TallyValid(rows[..n], q, c);
      var d := Tally(rows[..n], q, c).value;
      StepValid(d, rows[n], q, c);
    }
  }

  lemma StepValid(d: Groups, row: Row, q: Query, c: Catalogues)
    requires GroupsValid(d, q) && Step(d, row, q, c).Ok?
    ensures GroupsValid(Step(d, row, q, c).value, q)
  {
    match Admit(row, q, c)
    case Ok(None) =>
    case Ok(Some(sig)) =>
      var s0 := Opened(d, sig, row.0.listJson);
      assert GroupOk(s0, q) by {
        match Dicts.Find(d, sig)
        case Some(i) =>
        case None =>
      }
      CountedEffect(s0, row, q, c.pilotInfo);
      var s := Counted(s0, row, q, c.pilotInfo).value;
      assert GroupOk(s, q);
      Dicts.PutSpec(d, sig, s);
      var r := Dicts.Put(d, sig, s);
      forall i | 0 <= i < |r|
        ensures GroupOk(r[i].1, q)
      {
        Dicts.PutEntry(d, sig, s, i);
      }
  }

  /** In a row the step admits, the group of its signature ends where `Counted` takes
      it, and every other group is untouched. */
  lemma StepOthersUnchanged(d: Groups, row: Row, q: Query, c: Catalogues, other: string)
    requires Dicts.Distinct(d) && Step(d, row, q, c).Ok?
    requires Admit(row, q, c).Ok? && Admit(row, q, c).value.Some? ==> other != Admit(row, q, c).value.value
    ensures Dicts.Get(Step(d, row, q, c).value, other) == Dicts.Get(d, other)
  {
    match Admit(row, q, c)
    case Ok(None) =>
    case Ok(Some(sig)) =>
      Dicts.PutSpec(d, sig, Counted(Opened(d, sig, row.0.listJson), row, q, c.pilotInfo).value);
  }

  // ---------------------------------------------------------------- enrichment

  datatype UpgradeData = UpgradeData(name: Json, xws: Json, slot: string, points: Json)

  datatype PilotData = PilotData(name: Json, xws: Json, shipName: Json, points: Json, loadout: Json, upgrades: seq<UpgradeData>)

  datatype ListData = ListData(
    signature: string,
    faction: string,
    factionKey: Json,
    points: Json,
    count: int,
    games: int,
    winRate: real,
    totalLoadout: int,
    pilots: seq<PilotData>)

  /** `info or {}` */
  function Info(v: Json): Json {
    if Truthy(v) then v else JObj([])
  }

  /** A slot name in lower case, "configuration" shortened to "config". */
  function NormSlot(slot: string): (r: string)
    ensures r != "configuration"
    ensures Lower(slot) != "configuration" ==> r == Lower(slot)
    ensures Lower(slot) == "configuration" ==> r == "config"
  {
    var l := Lower(slot);
    if l == "configuration" then "config" else l
  }

  /** An upgrade's points: the `value` of a cost dict, an integer cost, and 0 for
      anything else. */
  function UpgradePoints(ui: Json): (r: Json)
    ensures r.JInt? || r.JBool? || r == GetOr(GetOr(ui, "cost", JObj([])), "value", JInt(0))
  {
    var raw := GetOr(ui, "cost", JObj([]));
    if raw.JObj? then GetOr(raw, "value", JInt(0))
    else if raw.JInt? || raw.JBool? then raw
    else JInt(0)
  }

  function RichUpgrade(item: Json, slot: string, upgradeInfo: Squadron.Catalogue): (r: Result<UpgradeData>)
    ensures r.Ok? ==> r.value.xws == item && r.value.slot == NormSlot(slot)
  {
    var ui := Info(upgradeInfo(item));
    if !ui.JObj? then Err("exception")
    else Ok(UpgradeData(GetOr(ui, "name", item), item, NormSlot(slot), UpgradePoints(ui)))
  }

  /** The upgrades of a list of ids, each with the slot `slotOf` gives it. */
  function RichItems(items: seq<Json>, slotOf: Json -> string, upgradeInfo: Squadron.Catalogue): (r: Result<seq<UpgradeData>>)
    ensures r.Ok? ==> |r.value| == |items| && forall i :: 0 <= i < |items| ==> r.value[i].xws == items[i]
  {
    if |items| == 0 then Ok([])
    else
      var n := |items| - 1;
      match RichItems(items[..n], slotOf, upgradeInfo)
      case Err(m) => Err(m)
      case Ok(us) =>
        match RichUpgrade(items[n], slotOf(items[n]), upgradeInfo)
        case Err(m) => Err(m)
        case Ok(u) => Ok(us + [u])
  }

  /** The upgrades of a dict of slots; a slot that is not a list is skipped. */
  function RichSlots(slots: seq<(string, Json)>, upgradeInfo: Squadron.Catalogue): Result<seq<UpgradeData>> {
    if |slots| == 0 then Ok([])
    else
      var n := |slots| - 1;
      match RichSlots(slots[..n], upgradeInfo)
      case Err(m) => Err(m)
      case Ok(us) =>
        var (slot, items) := slots[n];
        if !items.JList? then Ok(us)
        else
          match RichItems(items.items, _ => slot, upgradeInfo)
          case Err(m) => Err(m)
          case Ok(more) => Ok(us + more)
  }

  /** A pilot's upgrades: from a dict of slots, or a list of ids whose slots the
      catalogue gives. */
  function RichUpgrades(p: Json, c: Catalogues): Result<seq<UpgradeData>> {
    var ud := GetOr(p, "upgrades", JObj([]));
    if ud.JObj? then RichSlots(ud.fields, c.upgradeInfo)
    else if ud.JList? then RichItems(ud.items, c.upgradeSlot, c.upgradeInfo)
    else Ok([])
  }

  /** One pilot of the list returned; the pilot's own points win over the catalogue
      cost. */
  function RichPilot(p: Json, c: Catalogues): (r: Result<PilotData>)
    ensures r.Ok? ==> r.value.xws == Squadron.PilotId(p)
    ensures r.Ok? && Has(p, "points") ==> r.value.points == Get(p, "points")
  {
    if !p.JObj? then Err("exception")
    else
      var pid := Squadron.PilotId(p);
      var info := Info(c.pilotInfo(pid));
      if !info.JObj? then Err("exception")
      else
        match RichUpgrades(p, c)
        case Err(m) => Err(m)
        case Ok(ups) =>
          Ok(PilotData(
            GetOr(info, "name", pid), pid, GetOr(info, "ship", JStr("Unknown Ship")),
            GetOr(p, "points", GetOr(info, "cost", JInt(0))), GetOr(info, "loadout", JInt(0)), ups))
  }

  function RichPilotList(ps: seq<Json>, c: Catalogues): (r: Result<seq<PilotData>>)
    ensures r.Ok? ==> |r.value| == |ps|
  {
    if |ps| == 0 then Ok([])
    else
      var n := |ps| - 1;
      match RichPilotList(ps[..n], c)
      case Err(m) => Err(m)
      case Ok(rs) =>
        match RichPilot(ps[n], c)
        case Err(m) => Err(m)
        case Ok(r) => Ok(rs + [r])
  }

  /** The faction label of a group; a key that is not text raises. */
  function FactionLabel(key: Json): Result<string> {
    if key.JStr? then Ok(Factions.Label(Factions.FromXws(key.s))) else Err("exception")
  }

  /** wins / games · 100, and 0.0 without games. */
  function WinRate(wins: int, games: int): (r: real)
    ensures games <= 0 ==> r == 0.0
    ensures 0 <= wins <= games && games > 0 ==> 0.0 <= r <= 100.0
  {
    if games > 0 then (wins as real / games as real) * 100.0 else 0.0
  }

  /** A group as returned: `None` when it has no count or fewer games than asked. */
  function Final(sig: string, s: SigStats, q: Query, c: Catalogues): (r: Result<Option<ListData>>)
    ensures s.games < q.minGames || s.count == 0 ==> r == Ok(None)
    ensures r.Ok? && r.value.Some? ==>
      var x := r.value.value;
      x.signature == sig && x.count == s.count && x.count != 0 && x.games == s.games && x.games >= q.minGames &&
      x.points == s.points && x.factionKey == s.faction && x.totalLoadout == s.totalLoadout &&
      x.winRate == WinRate(s.wins, s.games)
  {
    if s.games < q.minGames || s.count == 0 then Ok(None)
    else
      match Iter(GetOr(s.rawXws, "pilots", JList([])))
      case None => Err("exception")
      case Some(ps) =>
        match RichPilotList(ps, c)
        case Err(m) => Err(m)
        case Ok(pilots) =>
          match FactionLabel(s.faction)
          case Err(m) => Err(m)
          case Ok(name) =>
            Ok(Some(ListData(sig, name, s.faction, s.points, s.count, s.games, WinRate(s.wins, s.games), s.totalLoadout, pilots)))
  }

  /** The returned groups, in the order the groups were opened. */
  function FinalList(d: Groups, q: Query, c: Catalogues): Result<seq<ListData>> {
    if |d| == 0 then Ok([])
    else
      var n := |d| - 1;
      match FinalList(d[..n], q, c)
      case Err(m) => Err(m)
      case Ok(xs) =>
        match Final(d[n].0, d[n].1, q, c)
        case Err(m) => Err(m)
        case Ok(None) => Ok(xs)
        case Ok(Some(x)) => Ok(xs + [x])
  }

  /** Every returned group has a count and at least `minGames` games, comes from a
      group of `d`, and no group is returned twice. */
  lemma {:induction false} FinalListSpec(d: Groups, q: Query, c: Catalogues)
    requires FinalList(d, q, c).Ok?
    ensures var xs := FinalList(d, q, c).value;
      |xs| <= |d| &&
      (forall i :: 0 <= i < |xs| ==> xs[i].count != 0 && xs[i].games >= q.minGames) &&
      (forall i :: 0 <= i < |xs| ==> exists j :: 0 <= j < |d| && d[j].0 == xs[i].signature && d[j].1.count == xs[i].count && d[j].1.games == xs[i].games)
    decreases |d|
  {
    if |d| > 0 {
      var n := |d| - 1;
      FinalListSpec(d[..n], q, c);
      assert forall j :: 0 <= j < n ==> d[..n][j] == d[j];
    }
  }

  // ---------------------------------------------------------------- sort and page

  /** The sum of the returned pilots' loadouts; a value that is not a number reads
      as 0. */
  function PilotLoadoutSum(ps: seq<PilotData>): real {
    if |ps| == 0 then 0.0
    else PilotLoadoutSum(ps[..|ps| - 1]) + Number(ps[|ps| - 1].loadout).GetOr(0.0)
  }

  /** The sort key of a metric: "Win Rate", "Points Cost", "Total Loadout", and games
      for anything else. */
  function MetricKey(metric: string): ListData -> seq<real> {
    if metric == "Win Rate" then (x: ListData) => [x.winRate]
    else if metric == "Points Cost" then (x: ListData) => [Number(x.points).GetOr(0.0)]
    else if metric == "Total Loadout" then (x: ListData) => [PilotLoadoutSum(x.pilots)]
    else (x: ListData) => [x.games as real]
  }

  datatype ListsPage = ListsPage(items: seq<ListData>, total: nat, page: nat, size: nat)

  /** The sorted groups and the page of them the query asks for, from `page · size` to
      `(page + 1) · size`. */
  /** Where the requested page starts among the sorted groups: `page · size`. */
  function PageStart(q: Query): nat {
    q.page * q.size
  }

  function Paged(xs: seq<ListData>, q: Query): ListsPage {
    var sorted := SortBy(xs, MetricKey(q.sortMetric), q.sortDirection == "desc");
    var start := PageStart(q);
    ListsPage(Slice(sorted, start, start + q.size), |xs|, q.page, q.size)
  }

  /** `get_lists` */
  function GetLists(rows: seq<Row>, q: Query, c: Catalogues): (r: Result<ListsPage>)
    requires ValidQuery(q)
    ensures r.Ok? ==> |r.value.items| <= q.size && r.value.page == q.page && r.value.size == q.size
    ensures r.Ok? ==>
      Tally(rows, q, c).Ok? && FinalList(Tally(rows, q, c).value, q, c).Ok? &&
      r.value.total == |FinalList(Tally(rows, q, c).value, q, c).value|
  {
    match Tally(rows, q, c)
    case Err(m) => Err(m)
    case Ok(d) =>
      match FinalList(d, q, c)
      case Err(m) => Err(m)
      case Ok(xs) =>
        PageSpec(xs, q);
        Ok(Paged(xs, q))
  }

  /** The page holds at most `size` groups, `total` counts every returned group, and the
      page is the run of the sorted groups starting at `page · size`. */
  lemma PageSpec(xs: seq<ListData>, q: Query)
    requires ValidQuery(q)
    ensures var pg := Paged(xs, q);
      var sorted := SortBy(xs, MetricKey(q.sortMetric), q.sortDirection == "desc");
      pg.total == |xs| && |pg.items| <= q.size &&
      (PageStart(q) < |sorted| ==> pg.items == sorted[PageStart(q)..Min(PageStart(q) + q.size, |sorted|)]) &&
      (PageStart(q) >= |sorted| ==> pg.items == [])
  {
    var sorted := SortBy(xs, MetricKey(q.sortMetric), q.sortDirection == "desc");
    Window(sorted, PageStart(q), q.size);
  }

  /** The groups are sorted by the requested metric, descending exactly when the
      direction is "desc", and none is lost or duplicated. */
  lemma SortedByMetric(xs: seq<ListData>, q: Query)
    ensures var sorted := SortBy(xs, MetricKey(q.sortMetric), q.sortDirection == "desc");
      Ordered(sorted, MetricKey(q.sortMetric), q.sortDirection == "desc") &&
      multiset(sorted) == multiset(xs) && |sorted| == |xs|
  {
    var key := MetricKey(q.sortMetric);
    var desc := q.sortDirection == "desc";
    SortByOrdered(xs, key, desc);
    SortByMultiset(xs, key, desc);
    var sorted := SortBy(xs, key, desc);
    assert |sorted| == |multiset(sorted)| == |xs|;
  }

  /** `s[lo:lo + size]` for a non-negative start. */
  lemma Window<T>(s: seq<T>, lo: nat, size: nat)
    ensures |Slice(s, lo, lo + size)| <= size
    ensures lo < |s| ==> Slice(s, lo, lo + size) == s[lo..Min(lo + size, |s|)]
    ensures lo >= |s| ==> Slice(s, lo, lo + size) == []
  {
  }

  function Min(a: int, b: int): int {
    if a < b then a else b
  }

  // ---------------------------------------------------------------- the loops

  /** The loop computing a list's total loadout. */
  method TotalLoadoutOf(xws: Json, info: Squadron.Catalogue) returns (r: Result<int>)
    ensures r == TotalLoadout(xws, info)
  {
    var items := Iter(GetOr(xws, "pilots", JList([])));
    if items.None? {
      return Err("exception");
    }
    r := LoadoutSumOf(items.value, info);
  }

  /** The loop summing the pilots' loadouts. */
  method LoadoutSumOf(ps: seq<Json>, info: Squadron.Catalogue) returns (r: Result<int>)
    ensures r == LoadoutSum(ps, info)
  {
    var total := 0;
    var i := 0;
    while i < |ps|
      invariant 0 <= i <= |ps|
      invariant LoadoutSum(ps[..i], info) == Ok(total)
    {
      var v := PilotLoadoutOf(ps[i], info);
      if v.Err? {
        LoadoutStops(ps, info, i, |ps|);
        assert ps[..|ps|] == ps;
        return Err("exception");
      }
      LoadoutNext(ps, info, i, total);
      total := total + v.value;
      i := i + 1;
    }
    assert ps[..i] == ps;
    r := Ok(total);
  }

  /** One pilot's loadout, as the loop body reads it. */
  method PilotLoadoutOf(p: Json, info: Squadron.Catalogue) returns (r: Result<int>)
    ensures r == PilotLoadout(p, info)
  {
    if !p.JObj? {
      return Err("exception");
    }
    var pid := Squadron.PilotId(p);
    if !Truthy(pid) {
      return Ok(0);
    }
    var pinfo := info(pid);
    if !Truthy(pinfo) {
      return Ok(0);
    }
    if !pinfo.JObj? {
      return Err("exception");
    }
    var v := LoadoutValue(GetOr(pinfo, "loadout", JInt(0)));
    if v.None? {
      return Err("exception");
    }
    r := Ok(v.value);
  }

  /** The first pilot that raises decides the error of every longer prefix. */
  lemma LoadoutStops(ps: seq<Json>, info: Squadron.Catalogue, i: nat, m: nat)
    requires i < m <= |ps| && PilotLoadout(ps[i], info).Err?
    ensures LoadoutSum(ps[..m], info) == Err("exception")
  {
    assert ps[..m][i] == ps[i];
  }

  /** A pilot whose loadout is read adds it to the running total. */
  lemma LoadoutNext(ps: seq<Json>, info: Squadron.Catalogue, i: nat, total: int)
    requires i < |ps| && LoadoutSum(ps[..i], info) == Ok(total) && PilotLoadout(ps[i], info).Ok?
    ensures LoadoutSum(ps[..i + 1], info) == Ok(total + PilotLoadout(ps[i], info).value)
  {
    assert ps[..i + 1][..i] == ps[..i];
  }

  /** The loop over the query result, as `get_lists` writes it. */
  method TallyOf(rows: seq<Row>, q: Query, c: Catalogues) returns (r: Result<Groups>)
    ensures r == Tally(rows, q, c)
  {
    var groups: Groups := [];
    var i := 0;
    while i < |rows|
      invariant 0 <= i <= |rows|
      invariant Tally(rows[..i], q, c) == Ok(groups)
    {
      assert rows[..i + 1][..i] == rows[..i];
      var next := StepOf(groups, rows[i], q, c);
      if next.Err? {
        TallyStops(rows, q, c, i, |rows|);
        assert rows[..|rows|] == rows;
        return next;
      }
      groups := next.value;
      i := i + 1;
    }
    assert rows[..i] == rows;
    r := Ok(groups);
  }

  /** The first row that raises decides the error of every longer prefix. */
  lemma {:induction false} TallyStops(rows: seq<Row>, q: Query, c: Catalogues, i: nat, m: nat)
    requires i < m <= |rows| && Tally(rows[..i], q, c).Ok? && Step(Tally(rows[..i], q, c).value, rows[i], q, c).Err?
    ensures Tally(rows[..m], q, c) == Step(Tally(rows[..i], q, c).value, rows[i], q, c)
    decreases m
  {
    var p := rows[..m];
    assert p[..m - 1] == rows[..m - 1];
    assert p[m - 1] == rows[m - 1];
    if m > i + 1 {
      TallyStops(rows, q, c, i, m - 1);
    } else {
      assert rows[..m - 1] == rows[..i];
    }
  }

  /** One pass of the loop: the filters, the group update and the loadout rollback. */
  method StepOf(groups: Groups, row: Row, q: Query, c: Catalogues) returns (r: Result<Groups>)
    ensures r == Step(groups, row, q, c)
  {
    var admitted := AdmitOf(row, q, c);
    if admitted.Err? {
      return Err(admitted.msg);
    }
    if admitted.value.None? {
      return Ok(groups);
    }
    var sig := admitted.value.value;
    var stats := CountedOf(Opened(groups, sig, row.0.listJson), row, q, c.pilotInfo);
    if stats.Err? {
      return Err(stats.msg);
    }
    r := Ok(Dicts.Put(groups, sig, stats.value));
  }

  /** The filters a row goes through before it is counted. */
  method AdmitOf(row: Row, q: Query, c: Catalogues) returns (r: Result<Option<string>>)
    ensures r == Admit(row, q, c)
  {
    var xws := row.0.listJson;
    if !Truthy(xws) || !xws.JObj? {
      return Ok(None);
    }
    var signature := Squadron.GetListSignature(xws, c.pilotInfo);
    if signature.Err? {
      return Err(signature.msg);
    }
    if signature.value.None? || signature.value.value == "" {
      return Ok(None);
    }
    if !FactionAllowed(FactionKey(xws), q) {
      return Ok(None);
    }
    var pv := Number(PointsOf(xws));
    if pv.None? {
      return Err("exception");
    }
    if !PointsInRange(pv.value, q) {
      return Ok(None);
    }
    r := Ok(Some(signature.value.value));
  }

  /** The group update of an admitted row, with the loadout computed on first need and
      the rollback of a row the loadout window rejects. */
  method CountedOf(s: SigStats, row: Row, q: Query, info: Squadron.Catalogue) returns (r: Result<SigStats>)
    ensures r == Counted(s, row, q, info)
  {
    var stats := s.(count := s.count + 1);
    if stats.totalLoadout == 0 && q.dataSource == "xwa" {
      var total := TotalLoadoutOf(row.0.listJson, info);
      if total.Err? {
        return Err(total.msg);
      }
      stats := stats.(totalLoadout := total.value);
    }
    if LoadoutRejected(stats, q) {
      return Ok(stats.(count := stats.count - 1));
    }
    r := Ok(stats.(games := stats.games + RankedGames(row.0), wins := stats.wins + RankedWins(row.0)));
  }

  /** The loop building the returned groups. */
  method FinalListOf(d: Groups, q: Query, c: Catalogues) returns (r: Result<seq<ListData>>)
    ensures r == FinalList(d, q, c)
  {
    var xs: seq<ListData> := [];
    var i := 0;
    while i < |d|
      invariant 0 <= i <= |d|
      invariant FinalList(d[..i], q, c) == Ok(xs)
    {
      var x := Final(d[i].0, d[i].1, q, c);
      FinalListNext(d, q, c, i, xs);
      if x.Err? {
        FinalStops(d, q, c, i, |d|);
        assert d[..|d|] == d;
        return Err(x.msg);
      }
      if x.value.Some? {
        xs := xs + [x.value.value];
      }
      i := i + 1;
    }
    assert d[..i] == d;
    r := Ok(xs);
  }

  /** One more group of the loop building the returned groups. */
  lemma FinalListNext(d: Groups, q: Query, c: Catalogues, i: nat, xs: seq<ListData>)
    requires i < |d| && FinalList(d[..i], q, c) == Ok(xs)
    ensures Final(d[i].0, d[i].1, q, c).Ok? && Final(d[i].0, d[i].1, q, c).value.None? ==>
      FinalList(d[..i + 1], q, c) == Ok(xs)
    ensures Final(d[i].0, d[i].1, q, c).Ok? && Final(d[i].0, d[i].1, q, c).value.Some? ==>
      FinalList(d[..i + 1], q, c) == Ok(xs + [Final(d[i].0, d[i].1, q, c).value.value])
  {
    assert d[..i + 1][..i] == d[..i];
  }

  lemma {:induction false} FinalStops(d: Groups, q: Query, c: Catalogues, i: nat, m: nat)
    requires i < m <= |d| && FinalList(d[..i], q, c).Ok? && Final(d[i].0, d[i].1, q, c).Err?
    ensures FinalList(d[..m], q, c) == Err(Final(d[i].0, d[i].1, q, c).msg)
    decreases m
  {
    var p := d[..m];
    assert p[..m - 1] == d[..m - 1];
    assert p[m - 1] == d[m - 1];
    if m > i + 1 {
      FinalStops(d, q, c, i, m - 1);
    } else {
      assert d[..m - 1] == d[..i];
    }
  }

  /** `get_lists`, with its loops. */
  method GetListsOf(rows: seq<Row>, q: Query, c: Catalogues) returns (r: Result<ListsPage>)
    requires ValidQuery(q)
    ensures r == GetLists(rows, q, c)
  {
    var groups := TallyOf(rows, q, c);
    if groups.Err? {
      return Err(groups.msg);
    }
    var xs := FinalListOf(groups.value, q, c);
    if xs.Err? {
      return Err(xs.msg);
    }
    r := Ok(Paged(xs.value, q));
  }
}
