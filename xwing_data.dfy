/** The card-data helpers of the backend: catalogue lookups whose fallback is the id
    itself, the faction-text normalisation, and the reading of an XWS list into a
    structure with readable names. The catalogues are the maps the card-data loaders
    build from the files; they are inputs here. */
module XwingData {
  import opened Wrappers
  import opened Strings
  import opened Json
  import opened Sorting
  import Dicts
  import Factions

  /** A catalogue loaded from the card data: an xws id to its info dict. */
  type Catalogue = Dicts.Dict<string, Json>

  // ---------------------------------------------------------------- lookups

  /** `catalogue.get(key)`: only a text key can be present; a list or dict key raises. */
  function Entry(cat: Catalogue, key: Json): (r: Result<Option<Json>>)
    ensures r.Err? <==> !Hashable(key)
    ensures r.Ok? && r.value.Some? ==> key.JStr? && Dicts.Get(cat, key.s) == r.value
    ensures r.Ok? && r.value.None? ==> !(key.JStr? && Dicts.Has(cat, key.s))
  {
    if !Hashable(key) then Err("exception")
    else if key.JStr? then Ok(Dicts.Get(cat, key.s))
    else Ok(None)
  }

  /** `info[k]`: a missing key or a value that is not a dict raises. */
  function Index(v: Json, k: string): (r: Result<Json>)
    ensures r.Ok? <==> Has(v, k)
    ensures r.Ok? ==> r.value == Get(v, k)
  {
    if Has(v, k) then Ok(Get(v, k)) else Err("exception")
  }

  /** Whether a lookup found a non-empty entry (`if pilot:`). */
  predicate Known(e: Option<Json>) {
    e.Some? && Truthy(e.value)
  }

  /** `get_pilot_name` and `get_upgrade_name`: the entry's "name" when the id has a
      non-empty entry, otherwise the id itself. */
  function NameOf(cat: Catalogue, id: Json): (r: Result<Json>)
    ensures !Hashable(id) ==> r.Err?
    ensures Hashable(id) && !Known(Entry(cat, id).value) ==> r == Ok(id)
    ensures Hashable(id) && Known(Entry(cat, id).value) ==> r == Index(Entry(cat, id).value.value, "name")
  {
    match Entry(cat, id)
    case Err(m) => Err(m)
    case Ok(e) => if Known(e) then Index(e.value, "name") else Ok(id)
  }

  /** An id the catalogue does not know is its own name. */
  lemma UnknownIdIsName(cat: Catalogue, id: string)
    requires !Dicts.Has(cat, id)
    ensures NameOf(cat, JStr(id)) == Ok(JStr(id))
  {
  }

  /** A known id with a name gets that name, whatever its other fields. */
  lemma KnownIdName(cat: Catalogue, id: string, info: Json)
    requires Dicts.Get(cat, id) == Some(info) && Has(info, "name")
    ensures NameOf(cat, JStr(id)) == Ok(Get(info, "name"))
  {
    assert Truthy(info);
  }

  /** `get_faction_name`: the faction table is keyed by the text lowercased without
      spaces; an unknown faction is named by the text as given. */
  function FactionName(factions: Catalogue, x: string): (r: Result<Json>)
    ensures !Known(Dicts.Get(factions, Replace(Lower(x), " ", ""))) ==> r == Ok(JStr(x))
  {
    var e := Dicts.Get(factions, Replace(Lower(x), " ", ""));
    if Known(e) then Index(e.value, "name") else Ok(JStr(x))
  }

  // ---------------------------------------------------------------- faction text

  /** The alias table, from the normalised text to the full XWS id. */
  const FactionAliases: seq<(string, string)> := [
    ("rebel", "rebelalliance"), ("rebels", "rebelalliance"),
    ("empire", "galacticempire"), ("imperial", "galacticempire"),
    ("scum", "scumandvillainy"), ("republic", "galacticrepublic"),
    ("separatist", "separatistalliance"), ("cis", "separatistalliance")
  ]

  /** `normalize_faction` on text: "" stays ""; otherwise the text lowercased without
      spaces or dashes, mapped through the alias table where it is an alias. */
  function NormalizeText(s: string): (r: string)
    ensures Factions.Normal(r)
  {
    if s == "" then ""
    else
      var n := Factions.Normalize(s);
      match Dicts.Get(FactionAliases, n)
      case Some(v) => AliasValuesNormal(n); v
      case None => n
  }

  /** `normalize_faction` on the `faction` field: a falsy value gives "", a value that
      is not text raises. */
  function NormalizeFaction(v: Json): (r: Result<string>)
    ensures !Truthy(v) ==> r == Ok("")
    ensures v.JStr? ==> r == Ok(NormalizeText(v.s))
    ensures Truthy(v) && !v.JStr? ==> r.Err?
  {
    if !Truthy(v) then Ok("")
    else if v.JStr? then Ok(NormalizeText(v.s))
    else Err("exception")
  }

  lemma AliasValuesNormal(n: string)
    requires Dicts.Get(FactionAliases, n).Some?
    ensures Factions.Normal(Dicts.Get(FactionAliases, n).value)
    ensures Dicts.Get(FactionAliases, Dicts.Get(FactionAliases, n).value).None?
  {
    var i := Dicts.Find(FactionAliases, n).value;
    assert FactionAliases[i] in FactionAliases;
    NoAliasIsAValue();
  }

  /** No full id of the table is itself an alias: every alias is at most 10
      characters long and every full id at least 13. */
  lemma NoAliasIsAValue()
    ensures forall i :: 0 <= i < |FactionAliases| ==>
      Factions.Normal(FactionAliases[i].1) && Dicts.Get(FactionAliases, FactionAliases[i].1).None?
  {
    AliasLengths();
    forall i | 0 <= i < |FactionAliases|
      ensures Dicts.Get(FactionAliases, FactionAliases[i].1).None?
    {
      var v := FactionAliases[i].1;
      assert forall j :: 0 <= j < |FactionAliases| ==> FactionAliases[j].0 != v;
    }
    ValuesNormal();
  }

  lemma AliasLengths()
    ensures forall j :: 0 <= j < |FactionAliases| ==> |FactionAliases[j].0| <= 10 && |FactionAliases[j].1| >= 13
  {
  }

  lemma ValuesNormal()
    ensures forall i :: 0 <= i < |FactionAliases| ==> Factions.Normal(FactionAliases[i].1)
  {
    Factions.ValueNormal(Factions.REBEL);
    Factions.ValueNormal(Factions.EMPIRE);
    Factions.ValueNormal(Factions.SCUM);
    Factions.ValueNormal(Factions.REPUBLIC);
    Factions.ValueNormal(Factions.SEPARATIST);
  }

  /** Normalising twice is normalising once. */
  lemma NormalizeIdempotent(s: string)
    ensures NormalizeText(NormalizeText(s)) == NormalizeText(s)
  {
    var r := NormalizeText(s);
    if r != "" {
      Factions.NormalizeNormal(r);
      var n := Factions.Normalize(s);
      if Dicts.Get(FactionAliases, n).Some? {
        AliasValuesNormal(n);
      }
    }
  }

  /** Case, spaces and dashes are ignored: text normalises as its normal form does. */
  lemma NormalizeIgnoresForm(s: string)
    ensures NormalizeText(s) == NormalizeText(Factions.Normalize(s))
  {
    var n := Factions.Normalize(s);
    Factions.NormalizeNormal(n);
    if s != "" && n == "" {
      assert Dicts.Get(FactionAliases, "").None?;
    }
    if s == "" {
      assert n == "";
    }
  }

  /** Every alias, in any case, maps to its full id. */
  lemma AliasesMap(s: string, i: nat)
    requires i < |FactionAliases| && Factions.Normalize(s) == FactionAliases[i].0
    ensures NormalizeText(s) == FactionAliases[i].1
  {
    assert Factions.Normalize("") == "";
    assert FactionAliases[i].0 != "";
    var n := Factions.Normalize(s);
    Dicts.FindDistinct(FactionAliases, n, i);
  }

  /** Text that is no alias passes through in its normal form. */
  lemma NonAliasPassesThrough(s: string)
    requires forall i :: 0 <= i < |FactionAliases| ==> FactionAliases[i].0 != Factions.Normalize(s)
    ensures NormalizeText(s) == Factions.Normalize(s)
  {
    if s == "" {
      assert Factions.Normalize(s) == "";
    }
  }

  lemma RebelsExample()
    ensures NormalizeText("Rebels") == "rebelalliance"
  {
    Factions.WordNormalizes("Rebels", "rebels");
    AliasesMap("Rebels", 1);
  }

  lemma CisExample()
    ensures NormalizeText("CIS") == "separatistalliance"
  {
    Factions.WordNormalizes("CIS", "cis");
    AliasesMap("CIS", 7);
  }

  // ---------------------------------------------------------------- reading a list

  /** One upgrade of a parsed pilot: its slot name capitalised, its name, its id. */
  datatype ParsedUpgrade = ParsedUpgrade(kind: string, name: Json, xws: Json)

  /** One parsed pilot; `xws` is present only in the reading that includes it. */
  datatype ParsedPilot = ParsedPilot(name: Json, xws: Option<Json>, ship: Json, points: Json, upgrades: seq<ParsedUpgrade>)

  datatype ParsedList = ParsedList(faction: Json, points: Json, pilots: seq<ParsedPilot>)

  /** `s.capitalize()`: the first character upper case, the rest lower case. */
  function Capitalize(s: string): (r: string)
    ensures |r| == |s|
  {
    if s == "" then "" else [UpperChar(s[0])] + Lower(s[1..])
  }

  /** Python `a + b` on numbers: an int (or bool) sum stays an int, a float makes a
      float; anything else raises. */
  function Plus(a: Json, b: Json): (r: Result<Json>)
    ensures r.Ok? <==> Number(a).Some? && Number(b).Some?
    ensures r.Ok? ==> Number(r.value) == Some(Number(a).value + Number(b).value)
  {
    if Number(a).None? || Number(b).None? then Err("exception")
    else if a.JFloat? || b.JFloat? then Ok(JFloat(Number(a).value + Number(b).value))
    else Ok(JInt(IntOf(a) + IntOf(b)))
  }

  function IntOf(v: Json): (r: int)
    ensures (v.JInt? || v.JBool?) ==> Number(v) == Some(r as real)
  {
    match v
    case JInt(i) => i
    case JBool(b) => if b then 1 else 0
    case _ => 0
  }

  /** The ids of one slot, each with its name. */
  function SlotUpgrades(kind: string, ids: seq<Json>, upgrades: Catalogue): (r: Result<seq<ParsedUpgrade>>)
    ensures r.Ok? ==> |r.value| == |ids|
    ensures r.Ok? ==> forall i :: 0 <= i < |ids| ==>
      NameOf(upgrades, ids[i]).Ok? && r.value[i] == ParsedUpgrade(Capitalize(kind), NameOf(upgrades, ids[i]).value, ids[i])
    ensures r.Err? <==> exists i :: 0 <= i < |ids| && NameOf(upgrades, ids[i]).Err?
  {
    if |ids| == 0 then Ok([])
    else
      var n := |ids| - 1;
      match SlotUpgrades(kind, ids[..n], upgrades)
      case Err(m) =>
        var i :| 0 <= i < n && NameOf(upgrades, ids[..n][i]).Err?;
        assert ids[..n][i] == ids[i];
        Err(m)
      case Ok(us) =>
        match NameOf(upgrades, ids[n])
        case Err(m) => Err(m)
        case Ok(name) =>
          assert forall i :: 0 <= i < n ==> ids[..n][i] == ids[i];
          Ok(us + [ParsedUpgrade(Capitalize(kind), name, ids[n])])
  }

  /** The slots of a pilot's `upgrades` dict, in order; a slot value that is not
      iterable raises. */
  function SlotsUpgrades(slots: seq<(string, Json)>, upgrades: Catalogue): (r: Result<seq<ParsedUpgrade>>)
    ensures r.Ok? ==> forall u :: u in r.value ==>
      exists j :: 0 <= j < |slots| && u.kind == Capitalize(slots[j].0) &&
        Iter(slots[j].1).Some? && u.xws in Iter(slots[j].1).value
  {
    if |slots| == 0 then Ok([])
    else
      var n := |slots| - 1;
      match SlotsUpgrades(slots[..n], upgrades)
      case Err(m) => Err(m)
      case Ok(us) =>
        match Iter(slots[n].1)
        case None => Err("exception")
        case Some(ids) =>
          match SlotUpgrades(slots[n].0, ids, upgrades)
          case Err(m) => Err(m)
          case Ok(vs) =>
            assert forall j :: 0 <= j < n ==> slots[..n][j] == slots[j];
            assert forall u :: u in vs ==> u.kind == Capitalize(slots[n].0) && u.xws in ids by {
              forall u | u in vs ensures u.kind == Capitalize(slots[n].0) && u.xws in ids {
                var i :| 0 <= i < |vs| && vs[i] == u;
              }
            }
            Ok(us + vs)
  }

  /** The `upgrades` field of a pilot: it must be a dict. */
  function PilotUpgrades(v: Json, upgrades: Catalogue): (r: Result<seq<ParsedUpgrade>>)
    ensures !v.JObj? ==> r.Err?
    ensures v == JObj([]) ==> r == Ok([])
  {
    if v.JObj? then SlotsUpgrades(v.fields, upgrades) else Err("exception")
  }

  /** A pilot entry of the list: it has an id or a name. */
  predicate Named(p: Json) {
    p.JObj? && Truthy(Or(Get(p, "id"), Get(p, "name")))
  }

  /** The points a pilot is credited with: its listed points, or the catalogue cost
      when the listed points equal 0 and the pilot is catalogued. */
  function PilotPoints(p: Json, e: Option<Json>): (r: Json)
    ensures !PyEq(GetOr(p, "points", JInt(0)), JInt(0)) ==> r == GetOr(p, "points", JInt(0))
    ensures !Known(e) ==> r == GetOr(p, "points", JInt(0))
    ensures PyEq(GetOr(p, "points", JInt(0)), JInt(0)) && Known(e) ==> r == GetOr(e.value, "cost", JInt(0))
  {
    var pts := GetOr(p, "points", JInt(0));
    if PyEq(pts, JInt(0)) && Known(e) then GetOr(e.value, "cost", JInt(0)) else pts
  }

  /** One pilot of the list: `None` for a pilot without id or name; a pilot that is not
      a dict, an unhashable id, a catalogue entry without a name or an unreadable
      upgrades field raises. */
  function PilotEntry(p: Json, pilots: Catalogue, upgrades: Catalogue, withXws: bool): (r: Result<Option<ParsedPilot>>)
    ensures !p.JObj? ==> r.Err?
    ensures p.JObj? && !Named(p) ==> r == Ok(None)
    ensures Named(p) && r.Ok? ==> r.value.Some?
    ensures r.Ok? && r.value.Some? ==>
      var id := Or(Get(p, "id"), Get(p, "name"));
      Entry(pilots, id).Ok? &&
      var e := Entry(pilots, id).value;
      var x := r.value.value;
      x.name == (if Known(e) then Get(e.value, "name") else id) &&
      x.ship == (if Known(e) then GetOr(e.value, "ship", JStr("Unknown Ship")) else JStr("Unknown Ship")) &&
      x.points == PilotPoints(p, e) &&
      x.xws == (if withXws then Some(id) else None)
  {
    if !p.JObj? then Err("exception")
    else
      var id := Or(Get(p, "id"), Get(p, "name"));
      if !Truthy(id) then Ok(None)
      else match Entry(pilots, id)
        case Err(m) => Err(m)
        case Ok(e) =>
          var name := if Known(e) then Index(e.value, "name") else Ok(id);
          if name.Err? then Err(name.msg)
          else
            var ship := if Known(e) then GetOr(e.value, "ship", JStr("Unknown Ship")) else JStr("Unknown Ship");
            match PilotUpgrades(GetOr(p, "upgrades", JObj([])), upgrades)
            case Err(m) => Err(m)
            case Ok(us) =>
              Ok(Some(ParsedPilot(name.value, if withXws then Some(id) else None, ship, PilotPoints(p, e), us)))
  }

  /** The pilot loop: the parsed pilots and the running `total_points`. */
  function ParsePilots(ps: seq<Json>, pilots: Catalogue, upgrades: Catalogue, withXws: bool): Result<(seq<ParsedPilot>, Json)> {
    if |ps| == 0 then Ok(([], JInt(0)))
    else
      var n := |ps| - 1;
      match ParsePilots(ps[..n], pilots, upgrades, withXws)
      case Err(m) => Err(m)
      case Ok(acc) =>
        match PilotEntry(ps[n], pilots, upgrades, withXws)
        case Err(m) => Err(m)
        case Ok(None) => Ok(acc)
        case Ok(Some(x)) =>
          match Plus(acc.1, x.points)
          case Err(m) => Err(m)
          case Ok(t) => Ok((acc.0 + [x], t))
  }

  /** One parsed pilot per named pilot entry. */
  lemma {:induction false} ParsedCount(ps: seq<Json>, pilots: Catalogue, upgrades: Catalogue, withXws: bool)
    requires ParsePilots(ps, pilots, upgrades, withXws).Ok?
    ensures |ParsePilots(ps, pilots, upgrades, withXws).value.0| == |Keep(ps, Named)|
    decreases |ps|
  {
    if |ps| > 0 {
      var n := |ps| - 1;
      ParsedStep(ps, pilots, upgrades, withXws);
      ParsedCount(ps[..n], pilots, upgrades, withXws);
      KeepLast(ps, Named);
    }
  }

  /** The last entry adds one parsed pilot exactly when it is named. */
  lemma ParsedStep(ps: seq<Json>, pilots: Catalogue, upgrades: Catalogue, withXws: bool)
    requires |ps| > 0 && ParsePilots(ps, pilots, upgrades, withXws).Ok?
    ensures ParsePilots(ps[..|ps| - 1], pilots, upgrades, withXws).Ok?
    ensures |ParsePilots(ps, pilots, upgrades, withXws).value.0| ==
      |ParsePilots(ps[..|ps| - 1], pilots, upgrades, withXws).value.0| + if Named(ps[|ps| - 1]) then 1 else 0
  {
    var e := PilotEntry(ps[|ps| - 1], pilots, upgrades, withXws);
    assert e.Ok?;
    assert e.value.Some? <==> Named(ps[|ps| - 1]);
  }

  /** The reference sum of the points of parsed pilots, from 0. */
  function PointsSum(xs: seq<ParsedPilot>): Result<Json> {
    if |xs| == 0 then Ok(JInt(0))
    else match PointsSum(xs[..|xs| - 1])
      case Err(m) => Err(m)
      case Ok(t) => Plus(t, xs[|xs| - 1].points)
  }

  /** The running total is the sum of the points of the pilots kept. */
  lemma {:induction false} TotalIsSum(ps: seq<Json>, pilots: Catalogue, upgrades: Catalogue, withXws: bool)
    requires ParsePilots(ps, pilots, upgrades, withXws).Ok?
    ensures PointsSum(ParsePilots(ps, pilots, upgrades, withXws).value.0) == Ok(ParsePilots(ps, pilots, upgrades, withXws).value.1)
    decreases |ps|
  {
    if |ps| > 0 {
      var n := |ps| - 1;
      TotalIsSum(ps[..n], pilots, upgrades, withXws);
      var acc := ParsePilots(ps[..n], pilots, upgrades, withXws).value;
      match PilotEntry(ps[n], pilots, upgrades, withXws)
      case Ok(None) =>
      case Ok(Some(x)) =>
        var xs := acc.0 + [x];
        assert xs[..|xs| - 1] == acc.0;
    }
  }

  /** `parse_xws`: `None` (the empty dict) for a falsy value or one that is not a dict;
      a list whose points are 0 takes the sum of its pilots' points. */
  function ParseXws(xws: Json, factions: Catalogue, pilots: Catalogue, upgrades: Catalogue): (r: Result<Option<ParsedList>>)
    ensures !Truthy(xws) || !xws.JObj? ==> r == Ok(None)
    ensures Truthy(xws) && xws.JObj? && r.Ok? ==> r.value.Some?
  {
    if !Truthy(xws) || !xws.JObj? then Ok(None)
    else match NormalizeFaction(GetOr(xws, "faction", JStr("")))
      case Err(m) => Err(m)
      case Ok(fx) =>
        match FactionName(factions, fx)
        case Err(m) => Err(m)
        case Ok(fname) => Assemble(xws, fname, pilots, upgrades, false)
  }

  /** The part of both readings after the faction: the pilots, then the points rule. */
  function Assemble(xws: Json, fname: Json, pilots: Catalogue, upgrades: Catalogue, withXws: bool): (r: Result<Option<ParsedList>>)
    ensures r.Ok? ==> r.value.Some? && r.value.value.faction == fname
  {
    var points := GetOr(xws, "points", JInt(0));
    match Iter(GetOr(xws, "pilots", JList([])))
    case None => Err("exception")
    case Some(ps) =>
      match ParsePilots(ps, pilots, upgrades, withXws)
      case Err(m) => Err(m)
      case Ok(acc) => Ok(Some(ParsedList(fname, if PyEq(points, JInt(0)) then acc.1 else points, acc.0)))
  }

  /** A list read in full has one entry per named pilot; its points are the listed
      points, or the sum of its pilots' points when those are 0. */
  lemma AssembleSpec(xws: Json, fname: Json, pilots: Catalogue, upgrades: Catalogue, withXws: bool)
    requires Assemble(xws, fname, pilots, upgrades, withXws).Ok?
    ensures var l := Assemble(xws, fname, pilots, upgrades, withXws).value.value;
      var ps := Iter(GetOr(xws, "pilots", JList([]))).value;
      |l.pilots| == |Keep(ps, Named)| &&
      (!PyEq(GetOr(xws, "points", JInt(0)), JInt(0)) ==> l.points == GetOr(xws, "points", JInt(0))) &&
      (PyEq(GetOr(xws, "points", JInt(0)), JInt(0)) ==> PointsSum(l.pilots) == Ok(l.points))
  {
    var ps := Iter(GetOr(xws, "pilots", JList([]))).value;
    TotalIsSum(ps, pilots, upgrades, withXws);
    ParsedCount(ps, pilots, upgrades, withXws);
  }

  /** The pilot loop of `parse_xws`, appending each parsed pilot and adding its points. */
  method ParsePilotsOf(ps: seq<Json>, pilots: Catalogue, upgrades: Catalogue, withXws: bool)
    returns (r: Result<(seq<ParsedPilot>, Json)>)
    ensures r == ParsePilots(ps, pilots, upgrades, withXws)
  {
    var out: seq<ParsedPilot> := [];
    var total := JInt(0);
    var i := 0;
    while i < |ps|
      invariant 0 <= i <= |ps|
      invariant ParsePilots(ps[..i], pilots, upgrades, withXws) == Ok((out, total))
    {
      assert ps[..i + 1][..i] == ps[..i];
      var x := PilotEntry(ps[i], pilots, upgrades, withXws);
      if x.Err? {
        ParsePilotsStops(ps, pilots, upgrades, withXws, i, |ps|, x.msg);
        assert ps[..|ps|] == ps;
        return Err(x.msg);
      }
      if x.value.Some? {
        var t := Plus(total, x.value.value.points);
        if t.Err? {
          ParsePilotsStops(ps, pilots, upgrades, withXws, i, |ps|, t.msg);
          assert ps[..|ps|] == ps;
          return Err(t.msg);
        }
        out := out + [x.value.value];
        total := t.value;
      }
      i := i + 1;
    }
    assert ps[..i] == ps;
    r := Ok((out, total));
  }

  /** Once a pilot raises, the loop's result is that error. */
  lemma {:induction false} ParsePilotsStops(ps: seq<Json>, pilots: Catalogue, upgrades: Catalogue, withXws: bool,
                                            i: nat, m: nat, msg: string)
    requires i < m <= |ps| && ParsePilots(ps[..i + 1], pilots, upgrades, withXws) == Err(msg)
    ensures ParsePilots(ps[..m], pilots, upgrades, withXws) == Err(msg)
    decreases m
  {
    if m > i + 1 {
      ParsePilotsStops(ps, pilots, upgrades, withXws, i, m - 1, msg);
      var p := ps[..m];
      assert p[..m - 1] == ps[..m - 1];
    }
  }
}
