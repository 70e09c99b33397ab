/** The newer list reader of the card-data package: the faction is read through the
    lenient faction reading, an unknown faction is named by its id title-cased, and each
    parsed pilot keeps its xws id. The pilot loop is the one of `XwingData`. */
module XwingParser {
  import opened Wrappers
  import opened Strings
  import opened Json
  import opened Sorting
  import opened XwingData
  import Dicts
  import Factions

  /** `normalize_faction`: the id of the faction `Faction.from_xws` reads; a falsy value
      is UNKNOWN and a value that is not text raises. */
  function NormalizeFaction(v: Json): (r: Result<string>)
    ensures !Truthy(v) ==> r == Ok(Factions.Value(Factions.UNKNOWN))
    ensures v.JStr? ==> r == Ok(Factions.Value(Factions.FromXws(v.s)))
    ensures Truthy(v) && !v.JStr? ==> r.Err?
    ensures r.Ok? ==> exists f :: r.value == Factions.Value(f)
  {
    if !Truthy(v) then Ok(Factions.Value(Factions.UNKNOWN))
    else if v.JStr? then Ok(Factions.Value(Factions.FromXws(v.s)))
    else Err("exception")
  }

  /** The result is already normal: normalising it again changes nothing. */
  lemma NormalizeIdempotent(v: Json)
    requires NormalizeFaction(v).Ok?
    ensures NormalizeFaction(JStr(NormalizeFaction(v).value)) == NormalizeFaction(v)
  {
    var f :| NormalizeFaction(v).value == Factions.Value(f);
    Factions.FromValue(f);
    assert Factions.Value(f) != "" by {
      Factions.ValueNormal(f);
    }
  }

  /** `get_faction_name` of this package: the table entry's "name", else the id with
      dashes as spaces, title-cased. Title casing is `title`; an entry that is not a
      dict raises. */
  function FactionName(factions: Catalogue, x: string, title: string -> string): (r: Result<Json>)
    ensures !Dicts.Has(factions, x) ==> r == Ok(JStr(title(Replace(x, "-", " "))))
  {
    var info := Dicts.Get(factions, x).GetOr(JObj([]));
    if info.JObj? then Ok(GetOr(info, "name", JStr(title(Replace(x, "-", " "))))) else Err("exception")
  }

  /** `parse_xws` of this package. */
  function ParseXws(xws: Json, factions: Catalogue, pilots: Catalogue, upgrades: Catalogue, title: string -> string)
    : (r: Result<Option<ParsedList>>)
    ensures !Truthy(xws) || !xws.JObj? ==> r == Ok(None)
    ensures Truthy(xws) && xws.JObj? && r.Ok? ==> r.value.Some?
    ensures r.Ok? && r.value.Some? ==> forall p :: p in r.value.value.pilots ==> p.xws.Some?
  {
    if !Truthy(xws) || !xws.JObj? then Ok(None)
    else match NormalizeFaction(GetOr(xws, "faction", JStr("")))
      case Err(m) => Err(m)
      case Ok(fx) =>
        match FactionName(factions, fx, title)
        case Err(m) => Err(m)
        case Ok(fname) =>
          var r := Assemble(xws, fname, pilots, upgrades, true);
          if r.Ok? then
            WithIds(xws, fname, pilots, upgrades);
            r
          else r
  }

  /** Every pilot of the newer reading carries its id. */
  lemma WithIds(xws: Json, fname: Json, pilots: Catalogue, upgrades: Catalogue)
    requires Assemble(xws, fname, pilots, upgrades, true).Ok?
    ensures forall p :: p in Assemble(xws, fname, pilots, upgrades, true).value.value.pilots ==> p.xws.Some?
  {
    var ps := Iter(GetOr(xws, "pilots", JList([]))).value;
    PilotsWithIds(ps, pilots, upgrades);
  }

  lemma {:induction false} PilotsWithIds(ps: seq<Json>, pilots: Catalogue, upgrades: Catalogue)
    requires ParsePilots(ps, pilots, upgrades, true).Ok?
    ensures forall p :: p in ParsePilots(ps, pilots, upgrades, true).value.0 ==> p.xws.Some?
    decreases |ps|
  {
    if |ps| > 0 {
      PilotsWithIds(ps[..|ps| - 1], pilots, upgrades);
    }
  }

  /** The two readings of a list agree on everything but the faction name and the ids
      the newer one keeps. */
  lemma ReadingsAgree(xws: Json, fname: Json, pilots: Catalogue, upgrades: Catalogue)
    requires Assemble(xws, fname, pilots, upgrades, false).Ok?
    ensures Assemble(xws, fname, pilots, upgrades, true).Ok?
    ensures var a := Assemble(xws, fname, pilots, upgrades, false).value.value;
      var b := Assemble(xws, fname, pilots, upgrades, true).value.value;
      a.points == b.points && |a.pilots| == |b.pilots| &&
      forall i :: 0 <= i < |a.pilots| ==> a.pilots[i] == b.pilots[i].(xws := None)
  {
    var ps := Iter(GetOr(xws, "pilots", JList([]))).value;
    PilotsAgree(ps, pilots, upgrades);
  }

  lemma {:induction false} PilotsAgree(ps: seq<Json>, pilots: Catalogue, upgrades: Catalogue)
    requires ParsePilots(ps, pilots, upgrades, false).Ok?
    ensures ParsePilots(ps, pilots, upgrades, true).Ok?
    ensures var a := ParsePilots(ps, pilots, upgrades, false).value;
      var b := ParsePilots(ps, pilots, upgrades, true).value;
      a.1 == b.1 && |a.0| == |b.0| &&
      forall i :: 0 <= i < |a.0| ==> a.0[i] == b.0[i].(xws := None)
    decreases |ps|
  {
    if |ps| > 0 {
      var n := |ps| - 1;
      PilotsAgree(ps[..n], pilots, upgrades);
      EntryAgrees(ps[n], pilots, upgrades);
      var a := ParsePilots(ps[..n], pilots, upgrades, false).value;
      var b := ParsePilots(ps[..n], pilots, upgrades, true).value;
      var y := PilotEntry(ps[n], pilots, upgrades, true);
      if y.value.Some? {
        var yv := y.value.value;
        var t := Plus(b.1, yv.points);
        assert t.Ok?;
        var a' := a.0 + [yv.(xws := None)];
        var b' := b.0 + [yv];
        assert ParsePilots(ps, pilots, upgrades, false) == Ok((a', t.value));
        assert ParsePilots(ps, pilots, upgrades, true) == Ok((b', t.value));
        assert forall i :: 0 <= i < |a'| ==> a'[i] == b'[i].(xws := None);
      }
    }
  }

  /** One pilot reads the same in both readings, up to the id. */
  lemma EntryAgrees(p: Json, pilots: Catalogue, upgrades: Catalogue)
    ensures PilotEntry(p, pilots, upgrades, false) ==
      match PilotEntry(p, pilots, upgrades, true)
      case Ok(Some(x)) => Ok(Some(x.(xws := None)))
      case o => o
  {
  }
}
