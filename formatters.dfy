/** `enrich_list_data` of the list API: one aggregated list row becomes the response
    record, each pilot and upgrade filled in from the card catalogue. Values the row
    carries as loose JSON are coerced with Python's `int()` and `float()`, falling back
    to 0 where those raise. */
module Formatters {
  import opened Wrappers
  import opened Strings
  import opened Json
  import Factions

  /** `UpgradeData` */
  datatype UpgradeData = UpgradeData(name: Json, xws: Json, slot: string, slotIcon: string,
                                     image: Json, points: int)

  /** `PilotData` */
  datatype PilotData = PilotData(name: Json, xws: Json, shipName: Json, shipIcon: Json,
                                 image: Json, points: int, loadout: int,
                                 upgrades: seq<UpgradeData>)

  /** `ListData` */
  datatype ListData = ListData(signature: Json, faction: string, factionKey: Json,
                               points: int, count: int, games: int, winRate: real,
                               totalLoadout: int, pilots: seq<PilotData>)

  /** The card-data lookups the formatter calls: `get_pilot_info`, `get_upgrade_info`
      (`None` where the lookup raises), `get_upgrade_slot` and `get_ship_icon_name`. */
  datatype Lookups = Lookups(pilotInfo: Json -> Option<Json>, upgradeInfo: Json -> Option<Json>,
                             upgradeSlot: Json -> string, shipIcon: Json -> Json)

  const Raised: string := "exception"

  /** `int(v)`, and 0 where `int()` raises. */
  function IntOrZero(v: Json): (r: int)
    ensures Int(v).Some? ==> r == Int(v).value
    ensures Int(v).None? ==> r == 0
  {
    Int(v).GetOr(0)
  }

  // ---------------------------------------------------------------- upgrades

  /** The slot name of an upgrade: lowercased, with "configuration" shortened to
      "config". */
  function NormSlot(slot: string): (r: string)
    ensures Lower(r) == r
    ensures r == "config" <==> Lower(slot) == "configuration" || Lower(slot) == "config"
    ensures r != "config" ==> r == Lower(slot)
    ensures r != "configuration"
  {
    LowerIdempotent(slot);
    if Lower(slot) == "configuration" then "config" else Lower(slot)
  }

  /** Slot names are read without regard to case. */
  lemma NormSlotCase(slot: string)
    ensures NormSlot(Lower(slot)) == NormSlot(slot)
    ensures NormSlot(Upper(slot)) == NormSlot(slot)
  {
    LowerIdempotent(slot);
    LowerOfUpper(slot);
  }

  /** `lower(upper(s)) == lower(s)` for the ASCII case mapping. */
  lemma {:induction false} LowerOfUpper(s: string)
    ensures Lower(Upper(s)) == Lower(s)
    decreases |s|
  {
    if |s| > 0 {
      LowerOfUpper(s[1..]);
      assert Upper(s) == [UpperChar(s[0])] + Upper(s[1..]);
      LowerAppend([UpperChar(s[0])], Upper(s[1..]));
      LowerAppend([s[0]], s[1..]);
      assert s == [s[0]] + s[1..];
    }
  }

  /** The price of an upgrade from its catalogue entry: the "value" of a dict-valued
      "cost", else the cost itself with a falsy cost read as 0, coerced by `int()`
      with 0 when that raises. */
  function UpgradeCost(info: Json): (r: int)
    ensures Get(info, "cost").JInt? ==> r == Get(info, "cost").i
    ensures Get(info, "cost").JObj? && Get(Get(info, "cost"), "value").JInt? ==>
      r == Get(Get(info, "cost"), "value").i
    ensures Get(info, "cost").JObj? && !Has(Get(info, "cost"), "value") ==> r == 0
    ensures !Truthy(Get(info, "cost")) ==> r == 0
    ensures Get(info, "cost").JList? || Get(info, "cost").JNull? ==> r == 0
  {
    var c := Get(info, "cost");
    var raw := if c.JObj? then GetOr(c, "value", JInt(0)) else Or(GetOr(info, "cost", JInt(0)), JInt(0));
    IntOrZero(raw)
  }

  /** One upgrade of a pilot, read from its catalogue entry (`{}` when the lookup finds
      nothing). */
  function Upgrade(item: Json, slot: string, lk: Lookups): (r: Result<UpgradeData>)
    ensures r.Err? ==> r == Err(Raised)
    ensures r.Ok? ==> r.value.xws == item && r.value.slot == NormSlot(slot) && r.value.slotIcon == ""
    ensures r.Ok? <==> lk.upgradeInfo(item).Some? && (!Truthy(lk.upgradeInfo(item).value) || lk.upgradeInfo(item).value.JObj?)
    ensures r.Ok? && !Truthy(lk.upgradeInfo(item).value) ==>
      r.value == UpgradeData(item, item, NormSlot(slot), "", JStr(""), 0)
  {
    match lk.upgradeInfo(item)
    case None => Err(Raised)
    case Some(found) =>
      var info := Or(found, JObj([]));
      if !info.JObj? then Err(Raised)
      else Ok(UpgradeData(GetOr(info, "name", item), item, NormSlot(slot), "",
                          GetOr(info, "image", JStr("")), UpgradeCost(info)))
  }

  /** Where an item's slot comes from: the key of the dict form, or the catalogue for the
      list form. */
  datatype SlotRule = Keyed(slot: string) | Catalogued

  function SlotOf(rule: SlotRule, item: Json, lk: Lookups): string {
    match rule
    case Keyed(s) => s
    case Catalogued => lk.upgradeSlot(item)
  }

  /** The upgrades of a list of items, each in the slot `rule` gives it: the items'
      upgrades in order, or the exception when one of them raises. */
  function Items(items: seq<Json>, rule: SlotRule, lk: Lookups): (r: Result<seq<UpgradeData>>)
    ensures r.Err? ==> r == Err(Raised)
    ensures r.Ok? <==> forall i :: 0 <= i < |items| ==> Upgrade(items[i], SlotOf(rule, items[i], lk), lk).Ok?
    ensures r.Ok? ==> (|r.value| == |items| &&
      forall i :: 0 <= i < |items| ==> Upgrade(items[i], SlotOf(rule, items[i], lk), lk) == Ok(r.value[i]))
  {
    var read := (x: Json) => Upgrade(x, SlotOf(rule, x, lk), lk);
    CollectPointwise(items, read);
    CollectErr(items, read, Raised);
    Collect(items, read)
  }

  /** How many upgrades the dict form names: the lengths of its list-valued slots. */
  function Named(slots: seq<(string, Json)>): nat {
    if |slots| == 0 then 0
    else
      var n := |slots| - 1;
      Named(slots[..n]) + (if slots[n].1.JList? then |slots[n].1.items| else 0)
  }

  /** The dict form: the upgrades of each slot whose value is a list, slot after slot;
      a slot whose value is not a list is skipped. */
  function Slots(slots: seq<(string, Json)>, lk: Lookups): (r: Result<seq<UpgradeData>>)
    ensures r.Err? ==> r == Err(Raised)
    ensures r.Ok? ==> |r.value| == Named(slots)
    ensures r.Ok? ==> forall u :: u in r.value ==>
      exists j :: 0 <= j < |slots| && slots[j].1.JList? && u.slot == NormSlot(slots[j].0) && u.xws in slots[j].1.items
    decreases |slots|
  {
    if |slots| == 0 then Ok([])
    else
      var n := |slots| - 1;
      var init := slots[..n];
      assert forall j :: 0 <= j < n ==> init[j] == slots[j];
      match Slots(init, lk)
      case Err(m) => Err(m)
      case Ok(us) =>
        if !slots[n].1.JList? then Ok(us)
        else
          var items := slots[n].1.items;
          match Items(items, Keyed(slots[n].0), lk)
          case Err(m) => Err(m)
          case Ok(vs) =>
            assert forall u :: u in vs ==> u.slot == NormSlot(slots[n].0) && u.xws in items by {
              forall u | u in vs ensures u.slot == NormSlot(slots[n].0) && u.xws in items {
                var i :| 0 <= i < |vs| && vs[i] == u;
                assert Upgrade(items[i], slots[n].0, lk) == Ok(u);
              }
            }
            Ok(us + vs)
  }

  /** The upgrades of one pilot: a dict of slot to items, or a list of items whose slots
      the catalogue gives; anything else has none. */
  function PilotUpgrades(data: Json, lk: Lookups): (r: Result<seq<UpgradeData>>)
    ensures r.Err? ==> r == Err(Raised)
    ensures !data.JObj? && !data.JList? ==> r == Ok([])
    ensures data.JObj? && r.Ok? ==> |r.value| == Named(data.fields)
    ensures data.JList? && r.Ok? ==> (|r.value| == |data.items| &&
      forall i :: 0 <= i < |data.items| ==> (r.value[i].xws == data.items[i] &&
        r.value[i].slot == NormSlot(lk.upgradeSlot(data.items[i]))))
  {
    if data.JObj? then Slots(data.fields, lk)
    else if data.JList? then Items(data.items, Catalogued, lk)
    else Ok([])
  }

  /** Every slot name the formatter emits is lowercase. */
  lemma SlotsAreLower(data: Json, lk: Lookups)
    requires PilotUpgrades(data, lk).Ok?
    ensures forall u :: u in PilotUpgrades(data, lk).value ==> Lower(u.slot) == u.slot && u.slot != "configuration"
  {
    var us := PilotUpgrades(data, lk).value;
    forall u | u in us ensures Lower(u.slot) == u.slot && u.slot != "configuration" {
      if data.JList? {
        var i :| 0 <= i < |us| && us[i] == u;
        assert u.slot == NormSlot(lk.upgradeSlot(data.items[i]));
      } else {
        var j :| 0 <= j < |data.fields| && data.fields[j].1.JList? && u.slot == NormSlot(data.fields[j].0)
          && u.xws in data.fields[j].1.items;
      }
    }
  }

  // ---------------------------------------------------------------- pilots

  /** The id a pilot is looked up by: its "id", else its "name". */
  function PilotId(p: Json): Json {
    Or(Get(p, "id"), Get(p, "name"))
  }

  /** The catalogue entry of a pilot, `{}` when the lookup finds nothing; `None` where
      the lookup raises or finds an entry that is not a dict. */
  function PilotInfo(p: Json, lk: Lookups): (r: Option<Json>)
    ensures r.Some? ==> r.value.JObj?
  {
    match lk.pilotInfo(PilotId(p))
    case None => None
    case Some(found) =>
      var info := Or(found, JObj([]));
      if info.JObj? then Some(info) else None
  }

  /** The points a pilot is listed at: its own "points", else the catalogue's "cost",
      else 0, as `int()` reads it. */
  function PilotPointsRaw(p: Json, info: Json): Json {
    GetOr(p, "points", GetOr(info, "cost", JInt(0)))
  }

  /** One pilot of the list, or the exception where a lookup raises or the pilot is not
      a dict. */
  function Pilot(p: Json, lk: Lookups): (r: Result<PilotData>)
    ensures r.Err? ==> r == Err(Raised)
  {
    if !p.JObj? then Err(Raised)
    else match PilotInfo(p, lk)
      case None => Err(Raised)
      case Some(info) =>
        var pid := PilotId(p);
        match PilotUpgrades(GetOr(p, "upgrades", JObj([])), lk)
        case Err(m) => Err(m)
        case Ok(ups) =>
          Ok(PilotData(GetOr(info, "name", pid), pid, GetOr(info, "ship", JStr("Unknown Ship")),
                       lk.shipIcon(GetOr(info, "ship_xws", JStr(""))), GetOr(info, "image", JStr("")),
                       IntOrZero(PilotPointsRaw(p, info)), IntOrZero(GetOr(info, "loadout", JInt(0))), ups))
  }

  /** A pilot reads when it is a dict whose catalogue entry and upgrades read; it keeps
      the id it was looked up by and carries its coerced points and loadout. */
  lemma PilotReads(p: Json, lk: Lookups)
    ensures Pilot(p, lk).Ok? <==> p.JObj? && PilotInfo(p, lk).Some? && PilotUpgrades(GetOr(p, "upgrades", JObj([])), lk).Ok?
    ensures Pilot(p, lk).Ok? ==> (Pilot(p, lk).value.xws == PilotId(p) &&
      Pilot(p, lk).value.points == IntOrZero(PilotPointsRaw(p, PilotInfo(p, lk).value)) &&
      Pilot(p, lk).value.loadout == IntOrZero(GetOr(PilotInfo(p, lk).value, "loadout", JInt(0))) &&
      Pilot(p, lk).value.upgrades == PilotUpgrades(GetOr(p, "upgrades", JObj([])), lk).value)
  {
  }

  /** The pilots of a list, in order; the exception when one of them raises. */
  function Pilots(ps: seq<Json>, lk: Lookups): (r: Result<seq<PilotData>>)
    ensures r.Err? ==> r == Err(Raised)
  {
    CollectErr(ps, p => Pilot(p, lk), Raised);
    Collect(ps, p => Pilot(p, lk))
  }

  /** The pilots are read one for one: the list reads exactly when every pilot does,
      and then the i-th enriched pilot is the reading of the i-th raw one. */
  lemma PilotsPointwise(ps: seq<Json>, lk: Lookups)
    ensures Pilots(ps, lk).Ok? <==> forall i :: 0 <= i < |ps| ==> Pilot(ps[i], lk).Ok?
    ensures Pilots(ps, lk).Ok? ==> (|Pilots(ps, lk).value| == |ps| &&
      forall i :: 0 <= i < |ps| ==> Pilot(ps[i], lk) == Ok(Pilots(ps, lk).value[i]))
  {
    CollectPointwise(ps, p => Pilot(p, lk));
  }

  /** Reading one more pilot extends the reading of the ones before it. */
  lemma PilotsGrow(ps: seq<Json>, i: nat, lk: Lookups)
    requires i < |ps| && Pilots(ps[..i], lk).Ok? && Pilot(ps[i], lk).Ok?
    ensures Pilots(ps[..i + 1], lk) == Ok(Pilots(ps[..i], lk).value + [Pilot(ps[i], lk).value])
  {
    assert ps[..i + 1][..i] == ps[..i];
  }

  /** A pilot that raises makes the whole list raise. */
  lemma PilotsStop(ps: seq<Json>, i: nat, lk: Lookups)
    requires i < |ps| && Pilot(ps[i], lk).Err?
    ensures Pilots(ps, lk) == Err(Raised)
  {
    PilotsPointwise(ps, lk);
  }

  /** The sum of the pilots' loadout values. */
  function TotalLoadout(rich: seq<PilotData>): int {
    if |rich| == 0 then 0 else TotalLoadout(rich[..|rich| - 1]) + rich[|rich| - 1].loadout
  }

  /** The total over a concatenation is the sum of the totals. */
  lemma {:induction false} TotalLoadoutAppend(a: seq<PilotData>, b: seq<PilotData>)
    ensures TotalLoadout(a + b) == TotalLoadout(a) + TotalLoadout(b)
    decreases |b|
  {
    if |b| > 0 {
      var n := |b| - 1;
      assert (a + b)[..|a + b| - 1] == a + b[..n];
      TotalLoadoutAppend(a, b[..n]);
    } else {
      assert a + b == a;
    }
  }

  /** The total is the same whatever order the pilots come in. */
  lemma {:induction false} TotalLoadoutSwap(a: seq<PilotData>, x: PilotData, y: PilotData, b: seq<PilotData>)
    ensures TotalLoadout(a + [x, y] + b) == TotalLoadout(a + [y, x] + b)
  {
    TotalLoadoutAppend(a + [x, y], b);
    TotalLoadoutAppend(a + [y, x], b);
    TotalLoadoutAppend(a, [x, y]);
    TotalLoadoutAppend(a, [y, x]);
    assert [x, y][..1] == [x];
    assert [y, x][..1] == [y];
  }

  /** No pilot with a negative loadout makes a negative total. */
  lemma {:induction false} TotalLoadoutBounds(rich: seq<PilotData>)
    requires forall i :: 0 <= i < |rich| ==> rich[i].loadout >= 0
    ensures TotalLoadout(rich) >= 0
    ensures forall i :: 0 <= i < |rich| ==> rich[i].loadout <= TotalLoadout(rich)
    decreases |rich|
  {
    if |rich| > 0 {
      var n := |rich| - 1;
      TotalLoadoutBounds(rich[..n]);
      assert forall i :: 0 <= i < n ==> rich[..n][i] == rich[i];
    }
  }

  // ---------------------------------------------------------------- the list

  /** The faction label: the label of the faction `Faction.from_xws` reads. Where
      `from_xws` raises (a truthy value that is not text) the fallback `title()` raises
      too, so the fallback never supplies a label. */
  function FactionLabel(key: Json): (r: Result<string>)
    ensures r.Err? <==> Truthy(key) && !key.JStr?
    ensures r.Err? ==> r == Err(Raised)
    ensures r.Ok? ==> exists f :: r.value == Factions.Label(f)
    ensures key.JStr? ==> r == Ok(Factions.Label(Factions.FromXws(key.s)))
  {
    if !Truthy(key) then Ok(Factions.Label(Factions.UNKNOWN))
    else if key.JStr? then Ok(Factions.Label(Factions.FromXws(key.s)))
    else Err(Raised)
  }

  /** The label names the faction it was read as. */
  lemma FactionLabelRoundTrip(key: Json)
    requires FactionLabel(key).Ok?
    ensures Factions.FromXws(FactionLabel(key).value) == (if key.JStr? then Factions.FromXws(key.s) else Factions.UNKNOWN)
  {
    if key.JStr? {
      Factions.FromLabel(Factions.FromXws(key.s));
    } else {
      Factions.FromLabel(Factions.UNKNOWN);
    }
  }

  /** `float(v)`, and 0.0 where `float()` raises. */
  function RealOrZero(v: Json): (r: real)
    ensures Float(v).Some? ==> r == Float(v).value
    ensures Float(v).None? ==> r == 0.0
  {
    Float(v).GetOr(0.0)
  }

  /** `enrich_list_data`: the pilots in order with their upgrades, the summed loadout,
      the faction label and the coerced figures of the row. */
  function EnrichListData(stats: Json, lk: Lookups): (r: Result<ListData>)
    ensures r.Err? ==> r == Err(Raised)
    ensures r.Ok? <==> (stats.JObj? && Iter(GetOr(stats, "pilots", JList([]))).Some? &&
      Pilots(Iter(GetOr(stats, "pilots", JList([]))).value, lk).Ok? &&
      FactionLabel(GetOr(stats, "faction", JStr("unknown"))).Ok?)
    ensures r.Ok? ==> (r.value.pilots == Pilots(Iter(GetOr(stats, "pilots", JList([]))).value, lk).value &&
      r.value.totalLoadout == TotalLoadout(r.value.pilots))
  {
    if !stats.JObj? then Err(Raised)
    else match Iter(GetOr(stats, "pilots", JList([])))
      case None => Err(Raised)
      case Some(ps) =>
        match Pilots(ps, lk)
        case Err(m) => Err(m)
        case Ok(rich) =>
          var fkey := GetOr(stats, "faction", JStr("unknown"));
          match FactionLabel(fkey)
          case Err(m) => Err(m)
          case Ok(flabel) =>
            Ok(ListData(Or(GetOr(stats, "name", JStr("Unknown List")), JStr("Unknown List")), flabel, fkey,
                        IntOrZero(GetOr(stats, "points", JInt(0))), IntOrZero(GetOr(stats, "popularity", JInt(0))),
                        IntOrZero(GetOr(stats, "games", JInt(0))), RealOrZero(GetOr(stats, "win_rate", JFloat(0.0))),
                        TotalLoadout(rich), rich))
  }

  /** The figures of the response: count is the row's "popularity" and the signature its
      "name", both read through the coercions; a missing or falsy name is "Unknown List",
      so the signature is never empty; a row without a faction is "Unknown". */
  lemma ListFigures(stats: Json, lk: Lookups)
    requires EnrichListData(stats, lk).Ok?
    ensures var d := EnrichListData(stats, lk).value;
      d.count == IntOrZero(GetOr(stats, "popularity", JInt(0))) &&
      d.points == IntOrZero(GetOr(stats, "points", JInt(0))) &&
      d.games == IntOrZero(GetOr(stats, "games", JInt(0))) &&
      d.winRate == RealOrZero(GetOr(stats, "win_rate", JFloat(0.0))) &&
      Truthy(d.signature) &&
      (Truthy(Get(stats, "name")) ==> d.signature == Get(stats, "name")) &&
      (!Truthy(Get(stats, "name")) ==> d.signature == JStr("Unknown List")) &&
      (!Has(stats, "faction") ==> d.faction == "Unknown")
  {
    var ps := Iter(GetOr(stats, "pilots", JList([]))).value;
    var rich := Pilots(ps, lk).value;
    var fkey := GetOr(stats, "faction", JStr("unknown"));
    var d := EnrichListData(stats, lk).value;
    assert d.signature == Or(GetOr(stats, "name", JStr("Unknown List")), JStr("Unknown List"));
    assert d.faction == FactionLabel(fkey).value;
    if !Has(stats, "faction") {
      assert fkey == JStr("unknown");
      UnknownLabel();
    }
  }

  /** The default faction key reads as the "Unknown" label. */
  lemma UnknownLabel()
    ensures FactionLabel(JStr("unknown")) == Ok("Unknown")
  {
    Factions.UnknownId();
  }

  /** Numbers that `int()` cannot read count as 0: text that is not an integer, `None`,
      lists and dicts. An integer is kept and a float truncates toward zero. */
  lemma Coercions(v: Json)
    ensures v.JStr? && ParseInt(v.s).None? ==> IntOrZero(v) == 0
    ensures v.JNull? || v.JList? || v.JObj? ==> IntOrZero(v) == 0
    ensures v.JInt? ==> IntOrZero(v) == v.i
    ensures v.JFloat? && v.f >= 0.0 ==> IntOrZero(v) == v.f.Floor
    ensures v.JFloat? && v.f < 0.0 ==> IntOrZero(v) == -((-v.f).Floor)
    ensures v.JNull? || v.JList? || v.JObj? ==> RealOrZero(v) == 0.0
  {
  }

  /** Every pilot is kept, in order, under the id it was looked up by, and the summed
      loadout is the sum of the coerced catalogue loadouts. */
  lemma PilotsKept(ps: seq<Json>, lk: Lookups)
    requires Pilots(ps, lk).Ok?
    ensures var rich := Pilots(ps, lk).value;
      |rich| == |ps| &&
      (forall i :: 0 <= i < |ps| ==> (rich[i].xws == PilotId(ps[i]) && PilotInfo(ps[i], lk).Some? &&
        rich[i].loadout == IntOrZero(GetOr(PilotInfo(ps[i], lk).value, "loadout", JInt(0))))) &&
      TotalLoadout(rich) == LoadoutSum(ps, lk)
  {
    var rich := Pilots(ps, lk).value;
    PilotsPointwise(ps, lk);
    forall i | 0 <= i < |ps|
      ensures rich[i].xws == PilotId(ps[i]) && PilotInfo(ps[i], lk).Some?
      ensures rich[i].loadout == IntOrZero(GetOr(PilotInfo(ps[i], lk).value, "loadout", JInt(0)))
    {
      PilotReads(ps[i], lk);
    }
    LoadoutSumIs(ps, lk);
  }

  /** The reference total: the coerced catalogue loadout of each pilot, summed over the
      raw pilots (0 for a pilot the catalogue cannot read). */
  function LoadoutSum(ps: seq<Json>, lk: Lookups): int {
    if |ps| == 0 then 0
    else
      var p := ps[|ps| - 1];
      LoadoutSum(ps[..|ps| - 1], lk) +
        (match PilotInfo(p, lk) case Some(info) => IntOrZero(GetOr(info, "loadout", JInt(0))) case None => 0)
  }

  lemma {:induction false} LoadoutSumIs(ps: seq<Json>, lk: Lookups)
    requires Pilots(ps, lk).Ok?
    ensures TotalLoadout(Pilots(ps, lk).value) == LoadoutSum(ps, lk)
    decreases |ps|
  {
    if |ps| > 0 {
      var n := |ps| - 1;
      PilotsLast(ps, lk);
      LoadoutSumIs(ps[..n], lk);
      PilotReads(ps[n], lk);
      var rich := Pilots(ps[..n], lk).value;
      var x := Pilot(ps[n], lk).value;
      assert (rich + [x])[..|rich + [x]| - 1] == rich;
    }
  }

  /** A list that reads is the reading of all but its last pilot, then the last one. */
  lemma PilotsLast(ps: seq<Json>, lk: Lookups)
    requires |ps| > 0 && Pilots(ps, lk).Ok?
    ensures Pilots(ps[..|ps| - 1], lk).Ok? && Pilot(ps[|ps| - 1], lk).Ok?
    ensures Pilots(ps, lk).value == Pilots(ps[..|ps| - 1], lk).value + [Pilot(ps[|ps| - 1], lk).value]
  {
    var n := |ps| - 1;
    PilotsPointwise(ps, lk);
    assert Pilot(ps[n], lk).Ok?;
    PilotsPointwise(ps[..n], lk);
    assert forall i :: 0 <= i < n ==> ps[..n][i] == ps[i];
    PilotsGrow(ps, n, lk);
    assert ps[..n + 1] == ps;
  }

  // ---------------------------------------------------------------- the loops

  /** The item loop of either upgrade form. */
  method ItemsOf(items: seq<Json>, rule: SlotRule, lk: Lookups) returns (r: Result<seq<UpgradeData>>)
    ensures r == Items(items, rule, lk)
  {
    var acc: seq<UpgradeData> := [];
    var i := 0;
    while i < |items|
      invariant 0 <= i <= |items|
      invariant |acc| == i
      invariant forall k :: 0 <= k < i ==> Upgrade(items[k], SlotOf(rule, items[k], lk), lk) == Ok(acc[k])
    {
      var u := Upgrade(items[i], SlotOf(rule, items[i], lk), lk);
      if u.Err? {
        assert !Items(items, rule, lk).Ok?;
        return Err(Raised);
      }
      acc := acc + [u.value];
      i := i + 1;
    }
    assert Items(items, rule, lk).value == acc;
    r := Ok(acc);
  }

  /** The slot loop of the dict form. */
  method SlotsOf(slots: seq<(string, Json)>, lk: Lookups) returns (r: Result<seq<UpgradeData>>)
    ensures r == Slots(slots, lk)
  {
    var acc: seq<UpgradeData> := [];
    var j := 0;
    while j < |slots|
      invariant 0 <= j <= |slots|
      invariant Slots(slots[..j], lk) == Ok(acc)
    {
      assert slots[..j + 1][..j] == slots[..j];
      var (slot, items) := slots[j];
      if items.JList? {
        var vs := ItemsOf(items.items, Keyed(slot), lk);
        if vs.Err? {
          SlotsStop(slots, j, lk);
          return Err(Raised);
        }
        acc := acc + vs.value;
      }
      j := j + 1;
    }
    assert slots[..j] == slots;
    r := Ok(acc);
  }

  /** A slot that raises makes the whole dict form raise. */
  lemma {:induction false} SlotsStop(slots: seq<(string, Json)>, j: nat, lk: Lookups)
    requires j < |slots| && slots[j].1.JList?
    requires Items(slots[j].1.items, Keyed(slots[j].0), lk).Err?
    ensures Slots(slots, lk) == Err(Raised)
    decreases |slots|
  {
    var n := |slots| - 1;
    if j < n {
      assert slots[..n][j] == slots[j];
      SlotsStop(slots[..n], j, lk);
    }
  }

  method PilotUpgradesOf(data: Json, lk: Lookups) returns (r: Result<seq<UpgradeData>>)
    ensures r == PilotUpgrades(data, lk)
  {
    if data.JObj? {
      r := SlotsOf(data.fields, lk);
    } else if data.JList? {
      r := ItemsOf(data.items, Catalogued, lk);
    } else {
      r := Ok([]);
    }
  }

  /** The body of the pilot loop: the pilot's catalogue entry, its coerced points and
      loadout, and its upgrades. */
  method PilotOf(p: Json, lk: Lookups) returns (r: Result<PilotData>)
    ensures r == Pilot(p, lk)
  {
    if !p.JObj? {
      return Err(Raised);
    }
    var info := PilotInfo(p, lk);
    if info.None? {
      return Err(Raised);
    }
    var pid := PilotId(p);
    var points := IntOrZero(PilotPointsRaw(p, info.value));
    var loadout := IntOrZero(GetOr(info.value, "loadout", JInt(0)));
    var ups := PilotUpgradesOf(GetOr(p, "upgrades", JObj([])), lk);
    if ups.Err? {
      return Err(Raised);
    }
    r := Ok(PilotData(GetOr(info.value, "name", pid), pid, GetOr(info.value, "ship", JStr("Unknown Ship")),
                      lk.shipIcon(GetOr(info.value, "ship_xws", JStr(""))), GetOr(info.value, "image", JStr("")),
                      points, loadout, ups.value));
  }

  /** The pilot loop of `enrich_list_data`: each enriched pilot appended in turn, its
      loadout added to the running total. */
  method PilotsOf(ps: seq<Json>, lk: Lookups) returns (r: Result<seq<PilotData>>, total: int)
    ensures r == Pilots(ps, lk)
    ensures r.Ok? ==> total == TotalLoadout(r.value)
  {
    var rich: seq<PilotData> := [];
    total := 0;
    var i := 0;
    while i < |ps|
      invariant 0 <= i <= |ps|
      invariant Pilots(ps[..i], lk) == Ok(rich)
      invariant total == TotalLoadout(rich)
    {
      var x := PilotOf(ps[i], lk);
      if x.Err? {
        PilotsStop(ps, i, lk);
        return Err(Raised), total;
      }
      PilotsGrow(ps, i, lk);
      total := total + x.value.loadout;
      var grown := rich + [x.value];
      assert grown[..|grown| - 1] == rich;
      rich := grown;
      i := i + 1;
    }
    assert ps[..i] == ps;
    r := Ok(rich);
  }

  /** `enrich_list_data` as written: the pilot loop, then the faction label and the
      coerced figures. */
  method EnrichListDataOf(stats: Json, lk: Lookups) returns (r: Result<ListData>)
    ensures r == EnrichListData(stats, lk)
  {
    if !stats.JObj? {
      return Err(Raised);
    }
    var pilots := Iter(GetOr(stats, "pilots", JList([])));
    if pilots.None? {
      return Err(Raised);
    }
    var rich, total := PilotsOf(pilots.value, lk);
    if rich.Err? {
      return Err(Raised);
    }
    var fkey := GetOr(stats, "faction", JStr("unknown"));
    var flabel := FactionLabel(fkey);
    if flabel.Err? {
      return Err(Raised);
    }
    r := Ok(ListData(Or(GetOr(stats, "name", JStr("Unknown List")), JStr("Unknown List")), flabel.value, fkey,
                     IntOrZero(GetOr(stats, "points", JInt(0))), IntOrZero(GetOr(stats, "popularity", JInt(0))),
                     IntOrZero(GetOr(stats, "games", JInt(0))), RealOrZero(GetOr(stats, "win_rate", JFloat(0.0))),
                     total, rich.value));
  }
}
