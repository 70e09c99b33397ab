/** The ship catalogue (`utils/xwing_data/ships.py`): one entry per ship chassis read
    from the pilot files under each faction directory, and the faction filter over it.
    The directory listing is the input: each entry is a faction directory with its
    pilot files (a file that cannot be read or parsed is `None`), or something that is
    not a directory. */
module Ships {
  import opened Wrappers
  import opened Json
  import Dicts
  import opened Sorting

  datatype PilotsEntry = FactionDir(name: string, files: seq<Option<Json>>) | NotADir

  /** `{"name": ..., "xws": ..., "factions": ...}`; the faction list is built from a
      Python set, whose order is not fixed, so it stays a set. */
  datatype Ship = Ship(name: Json, xws: Json, factions: set<Json>)

  /** `ships_map`: xws to its entry, in insertion order. */
  type Shelf = Dicts.Dict<Json, Ship>

  /** One parsed pilot file and the name of the directory it sits in. */
  type Reading = (Json, string)

  /** The parsed files of one directory entry, in listing order. */
  function EntryReadings(e: PilotsEntry): seq<Reading> {
    match e
    case NotADir => []
    case FactionDir(name, files) => FileReadings(files, name)
  }

  function FileReadings(files: seq<Option<Json>>, dir: string): (r: seq<Reading>)
    decreases |files|
  {
    if |files| == 0 then []
    else
      FileReadings(files[..|files| - 1], dir) +
      (match files[|files| - 1] case Some(d) => [(d, dir)] case None => [])
  }

  function Readings(es: seq<PilotsEntry>): seq<Reading>
    decreases |es|
  {
    if |es| == 0 then [] else Readings(es[..|es| - 1]) + EntryReadings(es[|es| - 1])
  }

  /** The body of the file loop. A file that is not a dict raises on `.get` and is
      skipped; so is one whose xws or name is falsy, or whose xws cannot be a key. A
      new xws opens an entry with that file's name; the file's faction (else the
      directory name) joins the entry's factions, unless it cannot be a set member, in
      which case the raise comes after the entry was opened. */
  function Step(m: Shelf, r: Reading): Shelf {
    var data := r.0;
    if !data.JObj? then m
    else
      var xws := GetOr(data, "xws", JNull);
      var name := GetOr(data, "name", JNull);
      if !Truthy(xws) || !Truthy(name) || !Hashable(xws) then m
      else
        var s := match Dicts.Get(m, xws) case Some(s) => s case None => Ship(name, xws, {});
        var f := Or(GetOr(data, "faction", JNull), JStr(r.1));
        if !Hashable(f) then (if Dicts.Has(m, xws) then m else Dicts.Put(m, xws, s))
        else Dicts.Put(m, xws, s.(factions := s.factions + {f}))
  }

  function Fold(rs: seq<Reading>): Shelf
    decreases |rs|
  {
    if |rs| == 0 then [] else Step(Fold(rs[..|rs| - 1]), rs[|rs| - 1])
  }

  /** The file registers the ship `k`. */
  predicate Registers(r: Reading, k: Json) {
    r.0.JObj? && GetOr(r.0, "xws", JNull) == k && Truthy(k) && Hashable(k) &&
    Truthy(GetOr(r.0, "name", JNull))
  }

  /** Some file registers the ship `k`. */
  predicate Registered(rs: seq<Reading>, k: Json)
    decreases |rs|
  {
    |rs| > 0 && (Registered(rs[..|rs| - 1], k) || Registers(rs[|rs| - 1], k))
  }

  /** The faction a file adds to the ship `k`: its faction field, else its directory. */
  function Contribution(r: Reading, k: Json): set<Json> {
    var f := Or(GetOr(r.0, "faction", JNull), JStr(r.1));
    if Registers(r, k) && Hashable(f) then {f} else {}
  }

  /** The union of the factions the files add to `k`. */
  function FactionsOf(rs: seq<Reading>, k: Json): set<Json>
    decreases |rs|
  {
    if |rs| == 0 then {} else FactionsOf(rs[..|rs| - 1], k) + Contribution(rs[|rs| - 1], k)
  }

  /** The entries of `ships_map`: one per registered xws, each under its own xws and
      holding the union of the factions of the files that registered it. */
  lemma {:induction false} FoldSpec(rs: seq<Reading>)
    ensures Dicts.Distinct(Fold(rs))
    ensures forall i :: 0 <= i < |Fold(rs)| ==> Fold(rs)[i].1.xws == Fold(rs)[i].0
    ensures forall k :: Dicts.Has(Fold(rs), k) <==> Registered(rs, k)
    ensures forall k :: Dicts.Has(Fold(rs), k) ==> Dicts.Get(Fold(rs), k).value.factions == FactionsOf(rs, k)
    decreases |rs|
  {
    if |rs| > 0 {
      var init := rs[..|rs| - 1];
      FoldSpec(init);
      StepSpec(Fold(init), rs[|rs| - 1], init);
    }
  }

  /** One step keeps the shape of `FoldSpec`. */
  lemma StepSpec(m: Shelf, r: Reading, init: seq<Reading>)
    requires Dicts.Distinct(m)
    requires forall i :: 0 <= i < |m| ==> m[i].1.xws == m[i].0
    requires forall k :: Dicts.Has(m, k) <==> Registered(init, k)
    requires forall k :: Dicts.Has(m, k) ==> Dicts.Get(m, k).value.factions == FactionsOf(init, k)
    ensures var m' := Step(m, r);
      Dicts.Distinct(m') &&
      (forall i :: 0 <= i < |m'| ==> m'[i].1.xws == m'[i].0) &&
      (forall k :: Dicts.Has(m', k) <==> Registered(init + [r], k)) &&
      (forall k :: Dicts.Has(m', k) ==> Dicts.Get(m', k).value.factions == FactionsOf(init + [r], k))
  {
    var rs := init + [r];
    assert rs[..|rs| - 1] == init;
    assert forall k :: Registered(rs, k) <==> Registered(init, k) || Registers(r, k);
    assert forall k :: FactionsOf(rs, k) == FactionsOf(init, k) + Contribution(r, k);
    var data := r.0;
    if data.JObj? {
      var xws := GetOr(data, "xws", JNull);
      var name := GetOr(data, "name", JNull);
      if Truthy(xws) && Truthy(name) && Hashable(xws) {
        var s := match Dicts.Get(m, xws) case Some(s) => s case None => Ship(name, xws, {});
        assert s.xws == xws by {
          if Dicts.Has(m, xws) {
            var i := Dicts.Find(m, xws).value;
          }
        }
        if !Dicts.Has(m, xws) {
          Unregistered(init, xws);
        }
        var f := Or(GetOr(data, "faction", JNull), JStr(r.1));
        var v := if Hashable(f) then s.(factions := s.factions + {f}) else s;
        if Hashable(f) || !Dicts.Has(m, xws) {
          PutShape(m, xws, v);
        }
      }
    }
  }

  /** A ship no file registered has no factions. */
  lemma {:induction false} Unregistered(rs: seq<Reading>, k: Json)
    requires !Registered(rs, k)
    ensures FactionsOf(rs, k) == {}
    decreases |rs|
  {
    if |rs| > 0 {
      Unregistered(rs[..|rs| - 1], k);
    }
  }

  /** Putting an entry that carries its own key keeps the entries keyed by their xws. */
  lemma PutShape(m: Shelf, k: Json, v: Ship)
    requires Dicts.Distinct(m) && v.xws == k
    requires forall i :: 0 <= i < |m| ==> m[i].1.xws == m[i].0
    ensures var m' := Dicts.Put(m, k, v);
      Dicts.Distinct(m') && (forall i :: 0 <= i < |m'| ==> m'[i].1.xws == m'[i].0) &&
      (forall k' :: Dicts.Has(m', k') <==> Dicts.Has(m, k') || k' == k) &&
      Dicts.Get(m', k) == Some(v) && (forall k' :: k' != k ==> Dicts.Get(m', k') == Dicts.Get(m, k'))
  {
    Dicts.PutSpec(m, k, v);
    if !Dicts.Has(m, k) {
      forall k' ensures Dicts.Has(m + [(k, v)], k') <==> Dicts.Has(m, k') || k' == k {
        Dicts.HasAppend(m, k, v, k');
      }
    }
  }

  /** `ships_map.values()` */
  function Values(m: Shelf): (r: seq<Ship>)
    ensures |r| == |m| && forall i :: 0 <= i < |m| ==> r[i] == m[i].1
  {
    Mapped(m, (e: (Json, Ship)) => e.1)
  }

  /** The sort key of `sorted(..., key=lambda x: x["name"])`: code points for a text
      name. */
  function NameKey(s: Ship): seq<real> {
    if s.name.JStr? then StrKey(s.name.s) else []
  }

  /** `sorted` compares names only when there are two entries or more, and then
      needs them all to be text. */
  predicate Sortable(vals: seq<Ship>) {
    |vals| <= 1 || forall i :: 0 <= i < |vals| ==> vals[i].name.JStr?
  }

  /** `load_all_ships(source)`: `None` is a missing pilots directory; Err is the raise
      of `sorted` on names it cannot compare. */
  function LoadAllShips(pilots: Option<seq<PilotsEntry>>): (r: Result<seq<Ship>>)
    ensures pilots.None? ==> r == Ok([])
    ensures r.Err? ==> r == Err("exception")
  {
    match pilots
    case None => Ok([])
    case Some(es) =>
      var vals := Values(Fold(Readings(es)));
      if Sortable(vals) then Ok(SortBy(vals, NameKey, false)) else Err("exception")
  }

  /** The catalogue holds one ship per registered xws and no other; each holds the
      union of the factions its files name (or their directories), and the list is
      sorted by name, ties kept in the order the ships were first read. */
  lemma LoadAllShipsSpec(es: seq<PilotsEntry>)
    requires LoadAllShips(Some(es)).Ok?
    ensures var r := LoadAllShips(Some(es)).value; var rs := Readings(es);
      (forall i, j :: 0 <= i < j < |r| ==> r[i].xws != r[j].xws) &&
      (forall k :: (exists i :: 0 <= i < |r| && r[i].xws == k) <==> Registered(rs, k)) &&
      (forall i :: 0 <= i < |r| ==> r[i].factions == FactionsOf(rs, r[i].xws)) &&
      Ordered(r, NameKey, false) &&
      multiset(r) == multiset(Values(Fold(rs)))
  {
    var rs := Readings(es);
    var m := Fold(rs);
    var vals := Values(m);
    var r := SortBy(vals, NameKey, false);
    FoldSpec(rs);
    SortByMultiset(vals, NameKey, false);
    SortByOrdered(vals, NameKey, false);
    ShipsHeld(rs, r);
    ShipsDistinct(rs, r);
  }

  /** Any arrangement of the entries of `ships_map` holds exactly the registered ships,
      each with the union of its factions. */
  lemma ShipsHeld(rs: seq<Reading>, r: seq<Ship>)
    requires multiset(r) == multiset(Values(Fold(rs)))
    ensures forall k :: (exists i :: 0 <= i < |r| && r[i].xws == k) <==> Registered(rs, k)
    ensures forall i :: 0 <= i < |r| ==> r[i].factions == FactionsOf(rs, r[i].xws)
  {
    var m := Fold(rs);
    var vals := Values(m);
    FoldSpec(rs);
    forall i | 0 <= i < |r| ensures Dicts.Has(m, r[i].xws) && r[i].factions == FactionsOf(rs, r[i].xws) {
      assert r[i] in multiset(vals);
      var j :| 0 <= j < |vals| && vals[j] == r[i];
      Dicts.FindDistinct(m, m[j].0, j);
    }
    forall k | Registered(rs, k) ensures exists i :: 0 <= i < |r| && r[i].xws == k {
      var j := Dicts.Find(m, k).value;
      assert vals[j] in multiset(r);
      var i :| 0 <= i < |r| && r[i] == vals[j];
    }
  }

  /** Any arrangement of the entries of `ships_map` holds each xws once. */
  lemma ShipsDistinct(rs: seq<Reading>, r: seq<Ship>)
    requires multiset(r) == multiset(Values(Fold(rs)))
    ensures forall i, j :: 0 <= i < j < |r| ==> r[i].xws != r[j].xws
  {
    var m := Fold(rs);
    var vals := Values(m);
    FoldSpec(rs);
    forall i, j | 0 <= i < j < |vals| ensures vals[i].xws != vals[j].xws {
      assert m[i].0 != m[j].0;
    }
    forall i, j | 0 <= i < j < |r| ensures r[i].xws != r[j].xws {
      if r[i].xws == r[j].xws {
        XwsOnce(vals, r[i]);
        TwiceCounted(r, i, j);
        if r[i] != r[j] {
          SameXwsSameShip(rs, r, i, j);
        }
      }
    }
  }

  /** Two entries of `ships_map` with one xws are the same entry. */
  lemma SameXwsSameShip(rs: seq<Reading>, r: seq<Ship>, i: nat, j: nat)
    requires multiset(r) == multiset(Values(Fold(rs)))
    requires i < |r| && j < |r| && r[i].xws == r[j].xws
    ensures r[i] == r[j]
  {
    var m := Fold(rs);
    var vals := Values(m);
    FoldSpec(rs);
    assert r[i] in multiset(vals) && r[j] in multiset(vals);
    var p :| 0 <= p < |vals| && vals[p] == r[i];
    var q :| 0 <= q < |vals| && vals[q] == r[j];
    assert m[p].0 == m[q].0;
    assert p == q;
  }

  /** Entries with distinct xws occur once each. */
  lemma {:induction false} XwsOnce(vals: seq<Ship>, x: Ship)
    requires forall i, j :: 0 <= i < j < |vals| ==> vals[i].xws != vals[j].xws
    ensures multiset(vals)[x] <= 1
    decreases |vals|
  {
    if |vals| > 0 {
      var init := vals[..|vals| - 1];
      assert vals == init + [vals[|vals| - 1]];
      XwsOnce(init, x);
      if vals[|vals| - 1] == x {
        forall i | 0 <= i < |init| ensures init[i] != x {
          assert vals[i].xws != vals[|vals| - 1].xws;
        }
        assert x !in multiset(init);
      }
    }
  }

  /** Two positions with the same xws in a list of distinct ships hold one ship twice. */
  lemma TwiceCounted(r: seq<Ship>, i: nat, j: nat)
    requires i < j < |r| && r[i].xws == r[j].xws
    ensures r[i] != r[j] || multiset(r)[r[i]] >= 2
  {
    if r[i] == r[j] {
      assert r == r[..j] + r[j..];
      assert r[i] in r[..j];
      assert r[j] in r[j..];
    }
  }

  /** `load_all_ships(source)` as written. */
  method LoadAllShipsOf(pilots: Option<seq<PilotsEntry>>) returns (r: Result<seq<Ship>>)
    ensures r == LoadAllShips(pilots)
  {
    if pilots.None? {
      return Ok([]);
    }
    var m := ShelfOf(pilots.value);
    var results: seq<Ship> := [];
    var k := 0;
    while k < |m|
      invariant 0 <= k <= |m|
      invariant results == Values(m[..k])
    {
      results := results + [m[k].1];
      k := k + 1;
    }
    assert m[..k] == m;
    if !Sortable(results) {
      return Err("exception");
    }
    return Ok(SortBy(results, NameKey, false));
  }

  /** The directory loop of `load_all_ships`. */
  method ShelfOf(es: seq<PilotsEntry>) returns (m: Shelf)
    ensures m == Fold(Readings(es))
  {
    m := [];
    var i := 0;
    while i < |es|
      invariant 0 <= i <= |es|
      invariant m == Fold(Readings(es[..i]))
    {
      assert es[..i + 1][..i] == es[..i];
      if es[i].FactionDir? {
        m := DirOf(m, Readings(es[..i]), es[i].files, es[i].name);
      } else {
        assert Readings(es[..i]) + [] == Readings(es[..i]);
      }
      i := i + 1;
    }
    assert es[..i] == es;
  }

  /** The file loop of `load_all_ships`, over one faction directory. */
  method DirOf(m0: Shelf, before: seq<Reading>, files: seq<Option<Json>>, dir: string) returns (m: Shelf)
    requires m0 == Fold(before)
    ensures m == Fold(before + FileReadings(files, dir))
  {
    m := m0;
    assert files[..0] == [];
    assert before + FileReadings(files[..0], dir) == before;
    var j := 0;
    while j < |files|
      invariant 0 <= j <= |files|
      invariant m == Fold(before + FileReadings(files[..j], dir))
    {
      assert files[..j + 1][..j] == files[..j] && files[..j + 1][j] == files[j];
      var done := FileReadings(files[..j], dir);
      if files[j].Some? {
        var rd := (files[j].value, dir);
        assert FileReadings(files[..j + 1], dir) == done + [rd];
        assert before + (done + [rd]) == (before + done) + [rd];
        FoldGrow(before + done, rd);
        m := Step(m, rd);
      } else {
        assert FileReadings(files[..j + 1], dir) == done + [];
        assert done + [] == done;
      }
      j := j + 1;
    }
    assert files[..j] == files;
  }

  lemma FoldGrow(rs: seq<Reading>, r: Reading)
    ensures Fold(rs + [r]) == Step(Fold(rs), r)
  {
    assert (rs + [r])[..|rs|] == rs;
  }

  // ---------------------------------------------------------------- the filter

  /** The ship flies for at least one of the factions selected. */
  predicate Shares(s: Ship, target: set<Json>) {
    s.factions * target != {}
  }

  function Targets(factions: seq<string>): set<Json> {
    set f | f in factions :: JStr(f)
  }

  /** `get_filtered_ships(factions)` over the catalogue; a missing filter is the empty
      list. */
  function FilteredShips(ships: seq<Ship>, factions: seq<string>): (r: seq<Ship>)
    ensures |factions| == 0 ==> r == ships
    ensures |r| <= |ships|
  {
    if |factions| == 0 then ships else Sharing(ships, Targets(factions))
  }

  /** The ships that fly for some faction of `target`, in catalogue order. */
  function Sharing(ships: seq<Ship>, target: set<Json>): (r: seq<Ship>)
    ensures |r| <= |ships|
    decreases |ships|
  {
    if |ships| == 0 then []
    else
      Sharing(ships[..|ships| - 1], target) +
      (if Shares(ships[|ships| - 1], target) then [ships[|ships| - 1]] else [])
  }

  /** A non-empty filter keeps exactly the ships that fly for a selected faction. */
  lemma FilterMembers(ships: seq<Ship>, factions: seq<string>)
    requires |factions| > 0
    ensures forall s :: s in FilteredShips(ships, factions) <==> s in ships && Shares(s, Targets(factions))
  {
    SharingMembers(ships, Targets(factions));
  }

  lemma {:induction false} SharingMembers(ships: seq<Ship>, target: set<Json>)
    ensures forall s :: s in Sharing(ships, target) <==> s in ships && Shares(s, target)
    decreases |ships|
  {
    if |ships| > 0 {
      var init := ships[..|ships| - 1];
      SharingMembers(init, target);
      assert forall s :: s in ships <==> s in init || s == ships[|ships| - 1];
    }
  }

  /** The filter keeps the catalogue order: filtering two halves and joining them is
      filtering the whole. */
  lemma FilterAppend(a: seq<Ship>, b: seq<Ship>, factions: seq<string>)
    ensures FilteredShips(a + b, factions) == FilteredShips(a, factions) + FilteredShips(b, factions)
  {
    if |factions| > 0 {
      SharingAppend(a, b, Targets(factions));
    }
  }

  lemma {:induction false} SharingAppend(a: seq<Ship>, b: seq<Ship>, target: set<Json>)
    ensures Sharing(a + b, target) == Sharing(a, target) + Sharing(b, target)
    decreases |b|
  {
    if |b| > 0 {
      var ab := a + b;
      var b' := b[..|b| - 1];
      var last := b[|b| - 1];
      var t := if Shares(last, target) then [last] else [];
      assert ab[..|ab| - 1] == a + b' && ab[|ab| - 1] == last;
      SharingAppend(a, b', target);
      calc {
        Sharing(ab, target);
        Sharing(a + b', target) + t;
        (Sharing(a, target) + Sharing(b', target)) + t;
        Sharing(a, target) + (Sharing(b', target) + t);
        Sharing(a, target) + Sharing(b, target);
      }
    } else {
      assert a + b == a;
    }
  }

  /** The filter loop of `get_filtered_ships`. */
  method FilteredShipsOf(ships: seq<Ship>, factions: seq<string>) returns (r: seq<Ship>)
    ensures r == FilteredShips(ships, factions)
  {
    if |factions| == 0 {
      return ships;
    }
    var target := Targets(factions);
    r := [];
    var i := 0;
    while i < |ships|
      invariant 0 <= i <= |ships|
      invariant r == Sharing(ships[..i], target)
    {
      assert ships[..i + 1][..i] == ships[..i];
      if ships[i].factions * target != {} {
        r := r + [ships[i]];
      }
      i := i + 1;
    }
    assert ships[..i] == ships;
  }
}
