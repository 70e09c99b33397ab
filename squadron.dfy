/** Squadron signatures: the `faction|ship,ship,...` key that groups lists by their ships,
    its parser, the full-list signature with pilots and upgrades, and the reading of
    squad-builder links.

    The three Python copies of these functions (`backend/utils/squadron.py`,
    `m3tacron/backend/utils/squadron.py`, `m3tacron/backend/squadron_utils.py`) compute the
    same values and are modelled once. */
module Squadron {
  import opened Wrappers
  import opened Strings
  import opened Json
  import opened Sorting
  import Factions

  /** `get_pilot_info(pid)`: the catalogue entry of a pilot id, `None` when unknown. */
  type Catalogue = Json -> Json

  /** `parse_qs(urlparse(url).query)`; `None` where parsing raises. */
  type QueryParser = string -> Option<map<string, seq<string>>>

  /** The outcome of a call that raised. */
  const Raised: Result<Option<string>> := Err("exception")

  // ---------------------------------------------------------------- builder links

  /** `_parse_lbn` */
  function LbnXws(url: string): (r: Json)
    ensures VendorLink(r, ["vendor", "link"]) == JStr(url) && Keys(r) == ["vendor"]
    ensures !Truthy(Get(r, "pilots"))
  {
    var link := [("link", JStr(url))];
    LookupAt(link, "link", 0);
    LookupAt([("vendor", JObj(link))], "vendor", 0);
    JObj([("vendor", JObj(link))])
  }

  /** `params.get(k, [default])[0]`: `None` for an empty value list (the IndexError). */
  function FirstParam(params: map<string, seq<string>>, k: string, default: string): Option<string> {
    if k !in params then Some(default)
    else if |params[k]| > 0 then Some(params[k][0])
    else None
  }

  /** The link recorded under a vendor entry. */
  function VendorLink(xws: Json, path: seq<string>): Json
    decreases |path|
  {
    if |path| == 0 then xws else VendorLink(Get(xws, path[0]), path[1..])
  }

  /** `_parse_yasb`: the faction read from the `f` parameter (default "Unknown"), no pilots
      and the link under `vendor.yasb.link`; `{}` when anything raises. */
  function ParseYasb(url: string, query: QueryParser): (r: Json)
    ensures r == JObj([]) <==>
      (query(url).None? || FirstParam(query(url).value, "d", "").None? ||
       FirstParam(query(url).value, "f", "Unknown").None?)
    ensures r != JObj([]) ==>
      Get(r, "pilots") == JList([]) &&
      VendorLink(r, ["vendor", "yasb", "link"]) == JStr(url) &&
      Get(r, "faction") == JStr(Factions.Value(Factions.FromXws(FirstParam(query(url).value, "f", "Unknown").value)))
  {
    match query(url)
    case None => JObj([])
    case Some(params) =>
      match (FirstParam(params, "d", ""), FirstParam(params, "f", "Unknown"))
      case (Some(_), Some(f)) => YasbXws(url, Factions.Value(Factions.FromXws(f)))
      case _ => JObj([])
  }

  /** The squad `_parse_yasb` builds from a link and a faction id. */
  function YasbXws(url: string, faction: string): (r: Json)
    ensures r != JObj([])
    ensures Get(r, "pilots") == JList([]) && Get(r, "faction") == JStr(faction)
    ensures VendorLink(r, ["vendor", "yasb", "link"]) == JStr(url)
  {
    var link := [("link", JStr(url))];
    var yasb := [("yasb", JObj(link))];
    var fs := [("faction", JStr(faction)), ("pilots", JList([])), ("vendor", JObj(yasb))];
    LookupAt(fs, "faction", 0);
    LookupAt(fs, "pilots", 1);
    LookupAt(fs, "vendor", 2);
    LookupAt(yasb, "yasb", 0);
    LookupAt(link, "link", 0);
    JObj(fs)
  }

  /** A YASB link without an `f` parameter reads as the unknown faction. */
  lemma YasbDefaultFaction(url: string, query: QueryParser)
    requires query(url).Some? && "f" !in query(url).value && "d" !in query(url).value
    ensures Get(ParseYasb(url, query), "faction") == JStr("unknown")
  {
    Factions.FromLabel(Factions.UNKNOWN);
    assert FirstParam(query(url).value, "f", "Unknown") == Some(Factions.Label(Factions.UNKNOWN));
  }

  /** `parse_builder_url`: YASB links are parsed, Launch Bay Next links are recorded, and
      anything else gives `{}`. */
  function ParseBuilderUrl(url: string, query: QueryParser): (r: Json)
    ensures Contains(url, "yasb.app") ==> r == ParseYasb(url, query)
    ensures !Contains(url, "yasb.app") && Contains(url, "launchbaynext.app") ==>
      VendorLink(r, ["vendor", "link"]) == JStr(url) && Keys(r) == ["vendor"]
    ensures !Contains(url, "yasb.app") && !Contains(url, "launchbaynext.app") ==> r == JObj([])
  {
    if Contains(url, "yasb.app") then ParseYasb(url, query)
    else if Contains(url, "launchbaynext.app") then LbnXws(url)
    else JObj([])
  }

  /** Whatever a builder link gives is either `{}` or a squad that records the link and has
      no pilots of its own. */
  lemma BuilderUrlRecordsLink(url: string, query: QueryParser)
    ensures var r := ParseBuilderUrl(url, query);
      r == JObj([]) ||
      (VendorLink(r, ["vendor", "link"]) == JStr(url) && !Truthy(Get(r, "pilots"))) ||
      (VendorLink(r, ["vendor", "yasb", "link"]) == JStr(url) && Get(r, "pilots") == JList([]))
  {
  }

  // ---------------------------------------------------------------- all or nothing

  /** Apply `f` to every element; `None` as soon as one application raises. */
  function Traverse<T>(s: seq<T>, f: T -> Option<string>): (r: Option<seq<string>>)
    ensures r.Some? <==> forall i :: 0 <= i < |s| ==> f(s[i]).Some?
    ensures r.Some? ==> |r.value| == |s| && forall i :: 0 <= i < |s| ==> r.value[i] == f(s[i]).value
  {
    if |s| == 0 then Some([])
    else
      var init := s[..|s| - 1];
      assert forall i :: 0 <= i < |init| ==> init[i] == s[i];
      match Traverse(init, f)
      case None => None
      case Some(rs) =>
        match f(s[|s| - 1])
        case None => None
        case Some(x) => Some(rs + [x])
  }

  lemma TraverseOne<T>(x: T, f: T -> Option<string>)
    requires f(x).Some?
    ensures Traverse([x], f) == Some([f(x).value])
  {
    var r := Traverse([x], f);
    assert [x][0] == x;
    assert r.Some? && |r.value| == 1 && r.value[0] == f(x).value;
    assert r.value == [f(x).value];
  }

  /** Once an application raises, later elements change nothing. */
  /** One more element that succeeds appends its result. */
  lemma TraverseNext<T>(s: seq<T>, i: nat, f: T -> Option<string>, rs: seq<string>)
    requires i < |s| && Traverse(s[..i], f) == Some(rs) && f(s[i]).Some?
    ensures Traverse(s[..i + 1], f) == Some(rs + [f(s[i]).value])
  {
    assert s[..i + 1][..i] == s[..i];
  }

  lemma TraverseStops<T>(s: seq<T>, i: nat, f: T -> Option<string>)
    requires i < |s| && f(s[i]).None?
    ensures Traverse(s, f).None?
  {
  }

  /** Traversing a permutation raises exactly when the original does, and otherwise
      gives a permutation of the original's results. */
  lemma TraversePermutation<T>(xs: seq<T>, ys: seq<T>, f: T -> Option<string>)
    requires multiset(xs) == multiset(ys)
    ensures Traverse(xs, f).Some? <==> Traverse(ys, f).Some?
    ensures Traverse(xs, f).Some? ==> multiset(Traverse(xs, f).value) == multiset(Traverse(ys, f).value)
  {
    forall i | 0 <= i < |xs| ensures xs[i] in multiset(ys) {
      assert xs[i] in multiset(xs);
    }
    forall i | 0 <= i < |ys| ensures ys[i] in multiset(xs) {
      assert ys[i] in multiset(ys);
    }
    if Traverse(xs, f).Some? {
      var g := (x: T) => f(x).GetOr("");
      MappedPermutation(xs, ys, g);
      assert Traverse(xs, f).value == Mapped(xs, g);
      assert Traverse(ys, f).value == Mapped(ys, g);
    }
  }

  // ---------------------------------------------------------------- squadron signature

  /** `p.get("id") or p.get("name")` */
  function PilotId(p: Json): Json {
    Or(Get(p, "id"), Get(p, "name"))
  }

  /** The ship name a pilot entry contributes: the catalogue's ship, "Unknown" for a pilot
      the catalogue does not know; `None` where Python raises (an entry that is not a dict,
      a catalogue entry that is not a dict, a ship name that is not text and so cannot be
      sorted and joined). */
  function ShipOf(info: Catalogue, p: Json): (r: Option<string>)
    ensures r.Some? ==> p.JObj?
    ensures p.JObj? && !Truthy(info(PilotId(p))) ==> r == Some("Unknown")
  {
    if !p.JObj? then None
    else
      var pinfo := info(PilotId(p));
      if !Truthy(pinfo) then Some("Unknown")
      else if !pinfo.JObj? then None
      else
        var ship := GetOr(pinfo, "ship", JStr("Unknown"));
        if ship.JStr? then Some(ship.s) else None
  }

  /** The pilot list of a squad: `xws.get("pilots", [])`. */
  function Pilots(xws: Json): Json {
    GetOr(xws, "pilots", JList([]))
  }

  /** The ship names of a squad's pilots, in pilot order. */
  function Ships(xws: Json, info: Catalogue): Option<seq<string>> {
    match Iter(Pilots(xws))
    case None => None
    case Some(ps) => Traverse(ps, ShipFn(info))
  }

  /** `ShipOf` against one catalogue, as a function of the pilot. */
  function ShipFn(info: Catalogue): Json -> Option<string> {
    p => ShipOf(info, p)
  }

  /** `f"{faction}|{','.join(sorted(ships))}"` */
  function Signature(faction: string, ships: seq<string>): string {
    faction + "|" + Join(SortStrings(ships), ",")
  }

  /** `get_squadron_signature`: `None` for a missing squad, faction or pilot list;
      otherwise the faction and the sorted ship names. */
  function SquadronSignature(xws: Json, info: Catalogue): (r: Result<Option<string>>)
    ensures r == Ok(None) <==>
      !xws.JObj? || !Truthy(Get(xws, "faction")) || !Truthy(Pilots(xws))
    ensures r.Ok? && r.value.Some? ==>
      Ships(xws, info).Some? && r.value.value == Signature(Str(Get(xws, "faction")), Ships(xws, info).value)
    ensures r.Err? <==>
      xws.JObj? && Truthy(Get(xws, "faction")) && Truthy(Pilots(xws)) && Ships(xws, info).None?
  {
    if !Truthy(xws) || !xws.JObj? then Ok(None)
    else
      var faction := Get(xws, "faction");
      if !Truthy(faction) then Ok(None)
      else if !Truthy(Pilots(xws)) then Ok(None)
      else
        match Ships(xws, info)
        case None => Raised
        case Some(ships) => Ok(Some(Signature(Str(faction), ships)))
  }

  /** `get_squadron_signature`, with its loop over the pilots. */
  method GetSquadronSignature(xws: Json, info: Catalogue) returns (r: Result<Option<string>>)
    ensures r == SquadronSignature(xws, info)
  {
    if !Truthy(xws) || !xws.JObj? {
      return Ok(None);
    }
    var faction := Get(xws, "faction");
    if !Truthy(faction) {
      return Ok(None);
    }
    var pilots := Pilots(xws);
    if !Truthy(pilots) {
      return Ok(None);
    }
    var items := Iter(pilots);
    if items.None? {
      return Raised;
    }
    var ps := items.value;
    var f := ShipFn(info);
    var ships: seq<string> := [];
    var i := 0;
    while i < |ps|
      invariant 0 <= i <= |ps|
      invariant Traverse(ps[..i], f) == Some(ships)
    {
      var ship := ShipOf(info, ps[i]);
      if ship.None? {
        TraverseStops(ps, i, f);
        return Raised;
      }
      assert ps[..i + 1][..i] == ps[..i];
      ships := ships + [ship.value];
      i := i + 1;
    }
    assert ps[..i] == ps;
    ships := SortStrings(ships);
    r := Ok(Some(Str(faction) + "|" + Join(ships, ",")));
  }

  /** A squad with the given faction and pilot entries. */
  function Squad(faction: Json, pilots: seq<Json>): Json {
    JObj([("faction", faction), ("pilots", JList(pilots))])
  }

  lemma SquadPilots(faction: Json, ps: seq<Json>)
    ensures Get(Squad(faction, ps), "faction") == faction
    ensures Pilots(Squad(faction, ps)) == JList(ps)
  {
    LookupAt(Squad(faction, ps).fields, "faction", 0);
    LookupAt(Squad(faction, ps).fields, "pilots", 1);
  }

  /** The faction, the pilot list and the ships of a squad. */
  lemma SquadShips(faction: Json, ps: seq<Json>, info: Catalogue)
    ensures Get(Squad(faction, ps), "faction") == faction
    ensures Truthy(Pilots(Squad(faction, ps))) <==> |ps| > 0
    ensures Ships(Squad(faction, ps), info) == Traverse(ps, ShipFn(info))
  {
    SquadPilots(faction, ps);
  }

  /** The squadron signature of a squad, in terms of its faction and its pilots' ships. */
  lemma SquadSignatureIs(faction: Json, ps: seq<Json>, info: Catalogue)
    ensures SquadronSignature(Squad(faction, ps), info) ==
      if !Truthy(faction) || |ps| == 0 then Ok(None)
      else match Traverse(ps, ShipFn(info))
        case None => Raised
        case Some(ships) => Ok(Some(Signature(Str(faction), ships)))
  {
    SquadShips(faction, ps, info);
  }

  /** Pilot order does not change the squadron signature. */
  lemma SquadronPilotOrder(faction: Json, ps: seq<Json>, qs: seq<Json>, info: Catalogue)
    requires multiset(ps) == multiset(qs)
    ensures SquadronSignature(Squad(faction, ps), info) == SquadronSignature(Squad(faction, qs), info)
  {
    var f := ShipFn(info);
    assert |ps| == |multiset(ps)| == |qs|;
    SquadSignatureIs(faction, ps, info);
    SquadSignatureIs(faction, qs, info);
    TraversePermutation(ps, qs, f);
    if Traverse(ps, f).Some? {
      SortStringsSpec(Traverse(ps, f).value, Traverse(qs, f).value);
    }
  }

  // ---------------------------------------------------------------- parsing

  /** `parse_squadron_signature`: ("unknown", []) without a "|"; otherwise the text before
      the first "|" and the comma-separated names between the first and second "|". */
  function ParseSignature(sig: string): (r: (string, seq<string>))
    ensures NoChar(sig, '|') ==> r == ("unknown", [])
    ensures !NoChar(sig, '|') ==> NoChar(r.0, '|') && StartsWith(sig, r.0 + "|")
  {
    match IndexOfChar(sig, '|')
    case None => ("unknown", [])
    case Some(i) =>
      var parts := Split(sig, '|');
      assert parts == [sig[..i]] + Split(sig[i + 1..], '|');
      assert sig[..i] + "|" == sig[..i + 1];
      var shipText := parts[1];
      if shipText == "" then (parts[0], []) else (parts[0], Split(shipText, ','))
  }

  /** Names that survive the signature: non-empty and free of both separators. */
  predicate PlainNames(ships: seq<string>) {
    forall k :: 0 <= k < |ships| ==> ships[k] != "" && NoChar(ships[k], '|') && NoChar(ships[k], ',')
  }

  /** Sorting keeps the names plain. */
  lemma SortedPlain(ships: seq<string>)
    requires PlainNames(ships)
    ensures PlainNames(SortStrings(ships))
  {
    var sorted := SortStrings(ships);
    SortStringsSpec(ships, ships);
    forall k | 0 <= k < |sorted| ensures sorted[k] != "" && NoChar(sorted[k], '|') && NoChar(sorted[k], ',') {
      assert sorted[k] in multiset(sorted);
      assert sorted[k] in multiset(ships);
      var j :| 0 <= j < |ships| && ships[j] == sorted[k];
    }
  }

  /** Two texts without '|' joined by one '|' split back into the two. */
  lemma SplitTwo(a: string, b: string)
    requires NoChar(a, '|') && NoChar(b, '|')
    ensures IndexOfChar(a + "|" + b, '|') == Some(|a|)
    ensures Split(a + "|" + b, '|') == [a, b]
  {
    var sig := a + "|" + b;
    assert sig[|a|] == '|';
    assert forall j :: 0 <= j < |a| ==> sig[j] == a[j];
    assert IndexOfChar(sig, '|') == Some(|a|);
    assert sig[..|a|] == a;
    assert sig[|a| + 1..] == b;
    assert IndexOfChar(b, '|').None?;
  }

  /** Parsing a signature gives back its faction and its sorted ship names. */
  lemma SignatureRoundTrip(faction: string, ships: seq<string>)
    requires NoChar(faction, '|')
    requires PlainNames(ships)
    ensures ParseSignature(Signature(faction, ships)) == (faction, SortStrings(ships))
  {
    var sorted := SortStrings(ships);
    SortedPlain(ships);
    var joined := Join(sorted, ",");
    JoinNoChar(sorted, ",", '|');
    var sig := faction + "|" + joined;
    SplitTwo(faction, joined);
    assert IndexOfChar(sig, '|') == Some(|faction|);
    if |sorted| == 0 {
      assert joined == "";
    } else {
      assert joined != "" by {
        JoinNonEmpty(sorted, ",");
      }
      SplitJoin(sorted, ',');
    }
  }

  lemma JoinNonEmpty(parts: seq<string>, sep: string)
    requires |parts| > 0 && parts[0] != ""
    ensures Join(parts, sep) != ""
  {
  }

  /** A lone empty ship name does not survive: its signature parses with no ships. */
  lemma EmptyNameLost(faction: string)
    requires NoChar(faction, '|')
    ensures ParseSignature(Signature(faction, [""])) == (faction, [])
  {
    SortStringsOne("");
    var sig := faction + "|";
    assert Signature(faction, [""]) == sig;
    assert sig[|faction|] == '|';
    assert forall j :: 0 <= j < |faction| ==> sig[j] == faction[j];
    assert IndexOfChar(sig, '|') == Some(|faction|);
    assert sig[..|faction|] == faction;
    assert sig[|faction| + 1..] == "";
    assert Split("", '|') == [""];
    assert Split(sig, '|') == [faction, ""];
  }

  /** The signature of a squad parses back to its faction and sorted ship names. */
  lemma SquadronRoundTrip(xws: Json, info: Catalogue)
    requires SquadronSignature(xws, info).Ok? && SquadronSignature(xws, info).value.Some?
    requires NoChar(Str(Get(xws, "faction")), '|')
    requires PlainNames(Ships(xws, info).value)
    ensures ParseSignature(SquadronSignature(xws, info).value.value) ==
      (Str(Get(xws, "faction")), SortStrings(Ships(xws, info).value))
  {
    SignatureRoundTrip(Str(Get(xws, "faction")), Ships(xws, info).value);
  }

  // ---------------------------------------------------------------- list signature

  /** The upgrade ids one slot contributes: a list's items, a single id, or nothing. */
  function SlotItems(v: Json): seq<Json> {
    match v
    case JList(items) => items
    case JStr(_) => [v]
    case _ => []
  }

  /** The upgrade ids of all slots, in slot order (`extend` for a list, `append` for a
      single id). */
  function UpgradeItems(slots: seq<(string, Json)>): seq<Json> {
    if |slots| == 0 then []
    else UpgradeItems(slots[..|slots| - 1]) + SlotItems(slots[|slots| - 1].1)
  }

  /** A pilot entry's upgrade ids: none when `p.get("upgrades", {})` is not a dict. */
  function Upgrades(p: Json): seq<Json> {
    var ups := GetOr(p, "upgrades", JObj([]));
    if ups.JObj? then UpgradeItems(ups.fields) else []
  }

  /** A text item; `None` for anything else, which sorting and joining reject. */
  function TextOf(v: Json): (r: Option<string>)
    ensures r.Some? <==> v.JStr?
  {
    if v.JStr? then Some(v.s) else None
  }

  /** The pilot-level part of the list signature, `ship:pilot:upgrades` with the upgrade
      ids sorted; the pilot name falls back to the id for a pilot the catalogue does not
      know. `None` where Python raises. */
  function PilotSignature(info: Catalogue, p: Json): (r: Option<string>)
    ensures r.Some? ==> p.JObj? && Traverse(Upgrades(p), TextOf).Some?
    ensures r.Some? ==> exists head :: r.value == head + Join(SortStrings(Traverse(Upgrades(p), TextOf).value), ",")
  {
    if !p.JObj? then None
    else
      var pid := PilotId(p);
      var pinfo := info(pid);
      if Truthy(pinfo) && !pinfo.JObj? then None
      else
        var ship := if Truthy(pinfo) then GetOr(pinfo, "ship", JStr("Unknown")) else JStr("Unknown");
        var pilot := if Truthy(pinfo) then GetOr(pinfo, "name", pid) else pid;
        match Traverse(Upgrades(p), TextOf)
        case None => None
        case Some(ups) =>
          var head := Str(ship) + ":" + Str(pilot) + ":";
          Some(head + Join(SortStrings(ups), ","))
  }

  /** The pilot-level signatures of a squad, in pilot order. */
  function PilotSignatures(xws: Json, info: Catalogue): Option<seq<string>> {
    match Iter(Pilots(xws))
    case None => None
    case Some(ps) => Traverse(ps, PilotSignatureFn(info))
  }

  /** `PilotSignature` against one catalogue, as a function of the pilot. */
  function PilotSignatureFn(info: Catalogue): Json -> Option<string> {
    p => PilotSignature(info, p)
  }

  /** `get_list_signature`: `None` for a missing squad, faction or pilot list; otherwise
      the faction and the sorted pilot-level signatures joined by "|". */
  function ListSignature(xws: Json, info: Catalogue): (r: Result<Option<string>>)
    ensures r == Ok(None) <==>
      !xws.JObj? || !Truthy(Get(xws, "faction")) || !Truthy(Pilots(xws))
    ensures r.Ok? && r.value.Some? ==>
      PilotSignatures(xws, info).Some? &&
      r.value.value == Str(Get(xws, "faction")) + "|" + Join(SortStrings(PilotSignatures(xws, info).value), "|")
    ensures r.Err? <==>
      xws.JObj? && Truthy(Get(xws, "faction")) && Truthy(Pilots(xws)) && PilotSignatures(xws, info).None?
  {
    if !Truthy(xws) || !xws.JObj? then Ok(None)
    else
      var faction := Get(xws, "faction");
      if !Truthy(faction) then Ok(None)
      else if !Truthy(Pilots(xws)) then Ok(None)
      else
        match PilotSignatures(xws, info)
        case None => Raised
        case Some(sigs) => Ok(Some(Str(faction) + "|" + Join(SortStrings(sigs), "|")))
  }

  /** The upgrade ids of a dict of slots, gathered slot by slot. */
  method CollectUpgrades(slots: seq<(string, Json)>) returns (items: seq<Json>)
    ensures items == UpgradeItems(slots)
  {
    items := [];
    var j := 0;
    while j < |slots|
      invariant 0 <= j <= |slots|
      invariant items == UpgradeItems(slots[..j])
    {
      assert slots[..j + 1][..j] == slots[..j];
      var v := slots[j].1;
      if v.JList? {
        items := items + v.items;
      } else if v.JStr? {
        items := items + [v];
      }
      j := j + 1;
    }
    assert slots[..j] == slots;
  }

  /** `get_list_signature`, with its loops over the pilots and their upgrade slots. */
  method GetListSignature(xws: Json, info: Catalogue) returns (r: Result<Option<string>>)
    ensures r == ListSignature(xws, info)
  {
    if !Truthy(xws) || !xws.JObj? {
      return Ok(None);
    }
    var faction := Get(xws, "faction");
    if !Truthy(faction) {
      return Ok(None);
    }
    var pilots := Pilots(xws);
    if !Truthy(pilots) {
      return Ok(None);
    }
    var items := Iter(pilots);
    if items.None? {
      return Raised;
    }
    var ps := items.value;
    var f := PilotSignatureFn(info);
    var sigs: seq<string> := [];
    var i := 0;
    while i < |ps|
      invariant 0 <= i <= |ps|
      invariant Traverse(ps[..i], f) == Some(sigs)
    {
      var sig := PilotSignatureOf(info, ps[i]);
      if sig.None? {
        TraverseStops(ps, i, f);
        return Raised;
      }
      TraverseNext(ps, i, f, sigs);
      sigs := sigs + [sig.value];
      i := i + 1;
    }
    assert ps[..i] == ps;
    sigs := SortStrings(sigs);
    r := Ok(Some(Str(faction) + "|" + Join(sigs, "|")));
  }

  /** One pilot's part of `get_list_signature`. */
  method PilotSignatureOf(info: Catalogue, p: Json) returns (r: Option<string>)
    ensures r == PilotSignature(info, p)
  {
    if !p.JObj? {
      return None;
    }
    var pid := PilotId(p);
    var pinfo := info(pid);
    if Truthy(pinfo) && !pinfo.JObj? {
      return None;
    }
    var ship := if Truthy(pinfo) then GetOr(pinfo, "ship", JStr("Unknown")) else JStr("Unknown");
    var pilot := if Truthy(pinfo) then GetOr(pinfo, "name", pid) else pid;
    var ups := GetOr(p, "upgrades", JObj([]));
    var upgradeList: seq<Json> := [];
    if ups.JObj? {
      upgradeList := CollectUpgrades(ups.fields);
    }
    var texts := Traverse(upgradeList, TextOf);
    if texts.None? {
      return None;
    }
    var sorted := SortStrings(texts.value);
    r := Some(Str(ship) + ":" + Str(pilot) + ":" + Join(sorted, ","));
  }

  /** The faction, the pilot list and the pilot signatures of a squad. */
  lemma SquadPilotSignatures(faction: Json, ps: seq<Json>, info: Catalogue)
    ensures Get(Squad(faction, ps), "faction") == faction
    ensures Truthy(Pilots(Squad(faction, ps))) <==> |ps| > 0
    ensures PilotSignatures(Squad(faction, ps), info) == Traverse(ps, PilotSignatureFn(info))
  {
    SquadPilots(faction, ps);
  }

  /** The list signature of a squad, in terms of its faction and its pilots' signatures. */
  lemma SquadListSignatureIs(faction: Json, ps: seq<Json>, info: Catalogue)
    ensures ListSignature(Squad(faction, ps), info) ==
      if !Truthy(faction) || |ps| == 0 then Ok(None)
      else match Traverse(ps, PilotSignatureFn(info))
        case None => Raised
        case Some(sigs) => Ok(Some(Str(faction) + "|" + Join(SortStrings(sigs), "|")))
  {
    SquadPilotSignatures(faction, ps, info);
  }

  /** Pilot order does not change the list signature. */
  lemma ListPilotOrder(faction: Json, ps: seq<Json>, qs: seq<Json>, info: Catalogue)
    requires multiset(ps) == multiset(qs)
    ensures ListSignature(Squad(faction, ps), info) == ListSignature(Squad(faction, qs), info)
  {
    var f := PilotSignatureFn(info);
    assert |ps| == |multiset(ps)| == |qs|;
    SquadListSignatureIs(faction, ps, info);
    SquadListSignatureIs(faction, qs, info);
    TraversePermutation(ps, qs, f);
    if Traverse(ps, f).Some? {
      SortStringsSpec(Traverse(ps, f).value, Traverse(qs, f).value);
    }
  }

  /** Reordering the ids within each slot keeps the gathered ids a permutation. */
  lemma {:induction false} SlotPermutation(fs: seq<(string, Json)>, gs: seq<(string, Json)>)
    requires |fs| == |gs|
    requires forall i :: 0 <= i < |fs| ==> multiset(SlotItems(fs[i].1)) == multiset(SlotItems(gs[i].1))
    ensures multiset(UpgradeItems(fs)) == multiset(UpgradeItems(gs))
    decreases |fs|
  {
    if |fs| > 0 {
      var n := |fs| - 1;
      SlotPermutation(fs[..n], gs[..n]);
    }
  }

  /** Upgrade order does not change a pilot's part of the list signature. */
  lemma UpgradeOrder(info: Catalogue, p: Json, q: Json)
    requires p.JObj? && q.JObj? && PilotId(p) == PilotId(q)
    requires multiset(Upgrades(p)) == multiset(Upgrades(q))
    ensures PilotSignature(info, p) == PilotSignature(info, q)
  {
    TraversePermutation(Upgrades(p), Upgrades(q), TextOf);
    if Traverse(Upgrades(p), TextOf).Some? {
      SortStringsSpec(Traverse(Upgrades(p), TextOf).value, Traverse(Upgrades(q), TextOf).value);
    }
  }

  /** A pilot entry with an id and one upgrade in one slot. */
  function OneUpgradePilot(pid: string, slot: string, u: string): Json {
    JObj([("id", JStr(pid)), ("upgrades", JObj([(slot, JList([JStr(u)]))]))])
  }

  lemma OneUpgradePilotParts(pid: string, slot: string, u: string)
    ensures PilotId(OneUpgradePilot(pid, slot, u)) == (if pid == "" then JNull else JStr(pid))
    ensures Upgrades(OneUpgradePilot(pid, slot, u)) == [JStr(u)]
  {
    var p := OneUpgradePilot(pid, slot, u);
    var slots := [(slot, JList([JStr(u)]))];
    LookupAt(p.fields, "id", 0);
    LookupAt(p.fields, "upgrades", 1);
    assert Lookup(p.fields, "name").None?;
    assert slots[..0] == [];
    assert UpgradeItems(slots) == [JStr(u)];
  }

  /** Swapping the one upgrade of a one-pilot list changes its signature. */
  lemma DifferentUpgrade(faction: string, pid: string, slot: string, u1: string, u2: string, info: Catalogue)
    requires faction != "" && pid != "" && u1 != u2
    requires !Truthy(info(JStr(pid))) || info(JStr(pid)).JObj?
    ensures ListSignature(Squad(JStr(faction), [OneUpgradePilot(pid, slot, u1)]), info) !=
            ListSignature(Squad(JStr(faction), [OneUpgradePilot(pid, slot, u2)]), info)
  {
    OneUpgradeSignature(faction, pid, slot, u1, info);
    OneUpgradeSignature(faction, pid, slot, u2, info);
    AppendDistinct(faction + "|", PilotHead(info, pid), u1, u2);
  }

  /** Texts that differ stay different behind a common prefix. */
  lemma AppendDistinct(x: string, h: string, a: string, b: string)
    requires a != b
    ensures x + (h + a) != x + (h + b)
  {
    assert (x + (h + a))[|x| + |h|..] == a;
    assert (x + (h + b))[|x| + |h|..] == b;
  }

  lemma OneUpgradeSignature(faction: string, pid: string, slot: string, u: string, info: Catalogue)
    requires faction != "" && pid != ""
    requires !Truthy(info(JStr(pid))) || info(JStr(pid)).JObj?
    ensures ListSignature(Squad(JStr(faction), [OneUpgradePilot(pid, slot, u)]), info) ==
            Ok(Some(faction + "|" + (PilotHead(info, pid) + u)))
  {
    var p := OneUpgradePilot(pid, slot, u);
    var xws := Squad(JStr(faction), [p]);
    var sig := PilotHead(info, pid) + u;
    assert PilotSignatures(xws, info) == Some([sig]) by {
      OneUpgradePilotSignature(pid, slot, u, info);
      SquadPilots(JStr(faction), [p]);
      TraverseOne(p, q => PilotSignature(info, q));
    }
    assert Get(xws, "faction") == JStr(faction) && Pilots(xws) == JList([p]) by {
      SquadPilots(JStr(faction), [p]);
    }
    SignatureOf(xws, info, faction, [sig]);
    SortStringsOne(sig);
    assert Join([sig], "|") == sig;
  }

  /** A squadron with a faction text and pilots whose signatures all exist. */
  lemma SignatureOf(xws: Json, info: Catalogue, faction: string, sigs: seq<string>)
    requires xws.JObj? && Get(xws, "faction") == JStr(faction) && faction != ""
    requires Truthy(Pilots(xws)) && PilotSignatures(xws, info) == Some(sigs)
    ensures ListSignature(xws, info) == Ok(Some(faction + "|" + Join(SortStrings(sigs), "|")))
  {
  }

  lemma OneUpgradePilotSignature(pid: string, slot: string, u: string, info: Catalogue)
    requires pid != ""
    requires !Truthy(info(JStr(pid))) || info(JStr(pid)).JObj?
    ensures PilotSignature(info, OneUpgradePilot(pid, slot, u)) == Some(PilotHead(info, pid) + u)
  {
    OneUpgradePilotParts(pid, slot, u);
    TraverseOne(JStr(u), TextOf);
    SortStringsOne(u);
  }

  /** The `ship:pilot:` part of a pilot signature for a pilot id. */
  function PilotHead(info: Catalogue, pid: string): string {
    var pinfo := info(JStr(pid));
    var ship := if Truthy(pinfo) then GetOr(pinfo, "ship", JStr("Unknown")) else JStr("Unknown");
    var pilot := if Truthy(pinfo) then GetOr(pinfo, "name", JStr(pid)) else JStr(pid);
    Str(ship) + ":" + Str(pilot) + ":"
  }
}
