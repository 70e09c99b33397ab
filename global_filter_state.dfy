/** The filters shared across the application (`backend/state/global_filter_state.py`):
    the content source, the format selection with its macro toggles, the date range and
    the location pickers. The selections are dicts from value to checked; the location
    tree (continent to country to cities) is loaded from the database, so it enters as a
    parameter. */
module GlobalFilters {
  import opened Wrappers
  import opened Strings
  import opened Sorting
  import Dicts
  import opened Formats

  type Selection = Dicts.Dict<string, bool>

  /** continent -> country -> cities */
  type Locations = Dicts.Dict<string, Dicts.Dict<string, seq<string>>>

  /** `selection.get(k, False)` */
  function Checked(sel: Selection, k: string): bool {
    Dicts.Get(sel, k).GetOr(false)
  }

  // ---------------------------------------------------------------- format defaults

  /** The macro format a content source enables: 2.5 for "xwa", 2.0 for anything else. */
  function TargetMacro(source: string): (m: MacroFormat)
    ensures m == V2_5 <==> source == "xwa"
    ensures m != MOTHER
  {
    if source == "xwa" then V2_5 else V2_0
  }

  /** The reset loop: every macro value of `ms` and its formats' values set to False. */
  function ResetAll(ms: seq<MacroFormat>): Selection
    decreases |ms|
  {
    if |ms| == 0 then []
    else
      var m := ms[|ms| - 1];
      Dicts.PutAll(Dicts.Put(ResetAll(ms[..|ms| - 1]), MacroValue(m), false), FormatValues(m), false)
  }

  /** The values the reset loop visits. */
  function ResetKeys(ms: seq<MacroFormat>): set<string>
    decreases |ms|
  {
    if |ms| == 0 then {}
    else
      var m := ms[|ms| - 1];
      ResetKeys(ms[..|ms| - 1]) + {MacroValue(m)} + set v | v in FormatValues(m)
  }

  /** `set_default_formats_for_source(source)`: all reset, then the target macro format
      and its formats set. */
  function DefaultFormats(source: string): (r: Selection)
    ensures Dicts.Distinct(r)
    ensures forall k :: k in FormatValues(TargetMacro(source)) ==> Checked(r, k)
  {
    var t := TargetMacro(source);
    ResetAllSpec(AllMacros);
    Dicts.PutSpec(ResetAll(AllMacros), MacroValue(t), true);
    Dicts.PutAllSpec(Dicts.Put(ResetAll(AllMacros), MacroValue(t), true), FormatValues(t), true);
    Dicts.PutAll(Dicts.Put(ResetAll(AllMacros), MacroValue(t), true), FormatValues(t), true)
  }

  lemma {:induction false} ResetAllSpec(ms: seq<MacroFormat>)
    ensures Dicts.Distinct(ResetAll(ms))
    ensures forall k :: Dicts.Get(ResetAll(ms), k) == if k in ResetKeys(ms) then Some(false) else None
    decreases |ms|
  {
    if |ms| > 0 {
      var m := ms[|ms| - 1];
      var init := ms[..|ms| - 1];
      ResetAllSpec(init);
      Dicts.PutSpec(ResetAll(init), MacroValue(m), false);
      Dicts.PutAllSpec(Dicts.Put(ResetAll(init), MacroValue(m), false), FormatValues(m), false);
    }
  }

  lemma {:induction false} ResetKeysSpec(ms: seq<MacroFormat>, k: string)
    ensures k in ResetKeys(ms) <==> exists m :: m in ms && (k == MacroValue(m) || k in FormatValues(m))
    decreases |ms|
  {
    if |ms| > 0 {
      var init := ms[..|ms| - 1];
      var last := ms[|ms| - 1];
      ResetKeysSpec(init, k);
      assert ResetKeys(ms) == ResetKeys(init) + {MacroValue(last)} + set v | v in FormatValues(last);
      if k in ResetKeys(init) {
        var m :| m in init && (k == MacroValue(m) || k in FormatValues(m));
        assert m in ms;
      } else if k == MacroValue(last) || k in FormatValues(last) {
        assert last in ms;
      }
    }
  }

  lemma EveryMacro(m: MacroFormat)
    ensures m in AllMacros
  {
  }

  /** Resetting every macro format visits exactly the macro values and the format values. */
  lemma ResetKeysAll()
    ensures ResetKeys(AllMacros) == AllValues()
  {
    FormatsPartition();
    forall k | k in AllValues() ensures k in ResetKeys(AllMacros) {
      ResetKeysSpec(AllMacros, k);
      if f :| f in AllFormats && FormatValue(f) == k {
        FormatValuesSpec(Macro(f));
        EveryMacro(Macro(f));
      } else {
        var m :| m in AllMacros && MacroValue(m) == k;
      }
    }
    forall k | k in ResetKeys(AllMacros) ensures k in AllValues() {
      ResetKeysSpec(AllMacros, k);
      var m :| m in AllMacros && (k == MacroValue(m) || k in FormatValues(m));
      if k in FormatValues(m) {
        FormatValuesSpec(m);
        var f :| FormatValue(f) == k && Macro(f) == m;
      }
    }
  }

  /** What the default selection holds under each key. */
  lemma DefaultFormatsGet(source: string)
    ensures Dicts.Distinct(DefaultFormats(source))
    ensures forall k ::
      Dicts.Get(DefaultFormats(source), k) == if k in AllValues() then Some(k == MacroValue(TargetMacro(source)) || k in FormatValues(TargetMacro(source))) else None
  {
    var t := TargetMacro(source);
    ResetAllSpec(AllMacros);
    ResetKeysAll();
    var base := Dicts.Put(ResetAll(AllMacros), MacroValue(t), true);
    Dicts.PutSpec(ResetAll(AllMacros), MacroValue(t), true);
    Dicts.PutAllSpec(base, FormatValues(t), true);
    FormatValuesSpec(t);
    forall k | k == MacroValue(t) || k in FormatValues(t) ensures k in AllValues() {
      EveryMacro(t);
      if k in FormatValues(t) {
        var f :| FormatValue(f) == k && Macro(f) == t;
        FormatsPartition();
      }
    }
  }

  /** After `set_default_formats_for_source(s)` exactly the target macro format (2.5 when
      s is "xwa", else 2.0) and its formats are checked; every other macro and format value
      is present and unchecked, and nothing else is. */
  lemma DefaultFormatsSpec(source: string)
    ensures Dicts.Distinct(DefaultFormats(source))
    ensures forall m :: Dicts.Get(DefaultFormats(source), MacroValue(m)) == Some(m == TargetMacro(source))
    ensures forall f :: Dicts.Get(DefaultFormats(source), FormatValue(f)) == Some(Macro(f) == TargetMacro(source))
    ensures forall k :: k !in AllValues() ==> Dicts.Get(DefaultFormats(source), k).None?
  {
    DefaultFormatsGet(source);
    forall m ensures Dicts.Get(DefaultFormats(source), MacroValue(m)) == Some(m == TargetMacro(source)) {
      DefaultMacroKey(source, m);
    }
    forall f ensures Dicts.Get(DefaultFormats(source), FormatValue(f)) == Some(Macro(f) == TargetMacro(source)) {
      DefaultFormatKey(source, f);
    }
  }

  lemma DefaultMacroKey(source: string, m: MacroFormat)
    ensures Dicts.Get(DefaultFormats(source), MacroValue(m)) == Some(m == TargetMacro(source))
  {
    var t := TargetMacro(source);
    DefaultFormatsGet(source);
    EveryMacro(m);
    assert MacroValue(m) in AllValues();
    FormatValuesSpec(t);
    ValuesInjective();
  }

  lemma DefaultFormatKey(source: string, f: Format)
    ensures Dicts.Get(DefaultFormats(source), FormatValue(f)) == Some(Macro(f) == TargetMacro(source))
  {
    var t := TargetMacro(source);
    DefaultFormatsGet(source);
    FormatsPartition();
    assert FormatValue(f) in AllValues();
    FormatValuesSpec(t);
    if FormatValue(f) == MacroValue(t) {
      ValuesInjective();
    }
  }

  /** The loops of `set_default_formats_for_source`. */
  method DefaultFormatsOf(source: string) returns (d: Selection)
    ensures d == DefaultFormats(source)
  {
    d := [];
    var i := 0;
    while i < |AllMacros|
      invariant 0 <= i <= |AllMacros|
      invariant d == ResetAll(AllMacros[..i])
    {
      var m := AllMacros[i];
      assert AllMacros[..i + 1][..i] == AllMacros[..i];
      d := Dicts.Put(d, MacroValue(m), false);
      d := PutEach(d, FormatValues(m), false);
      i := i + 1;
    }
    assert AllMacros[..i] == AllMacros;
    var t := TargetMacro(source);
    d := Dicts.Put(d, MacroValue(t), true);
    d := PutEach(d, FormatValues(t), true);
  }

  /** `for k in ks: d[k] = v`, as a loop. */
  method PutEach(d0: Selection, ks: seq<string>, v: bool) returns (d: Selection)
    ensures d == Dicts.PutAll(d0, ks, v)
  {
    d := d0;
    var j := 0;
    while j < |ks|
      invariant 0 <= j <= |ks|
      invariant d == Dicts.PutAll(d0, ks[..j], v)
    {
      assert ks[..j + 1][..j] == ks[..j];
      d := Dicts.Put(d, ks[j], v);
      j := j + 1;
    }
    assert ks[..j] == ks;
  }

  // ---------------------------------------------------------------- toggles

  /** `toggle_format_macro(v)`: the macro's children (when `v` names a macro format) and
      then `v` itself are set to the negation of `v`'s current check. */
  function ToggleMacro(sel: Selection, v: string): (r: Selection)
    ensures Checked(r, v) == !Checked(sel, v)
  {
    Dicts.PutGet(Dicts.PutAll(sel, Members(v), !Checked(sel, v)), v, !Checked(sel, v));
    var target := !Checked(sel, v);
    Dicts.Put(Dicts.PutAll(sel, Members(v), target), v, target)
  }

  /** The toggle sets `v` and its children to `not old[v]` and leaves every other key as
      it was. */
  lemma ToggleMacroSpec(sel: Selection, v: string)
    requires Dicts.Distinct(sel)
    ensures Dicts.Distinct(ToggleMacro(sel, v))
    ensures forall k ::
      Dicts.Get(ToggleMacro(sel, v), k) == if k == v || k in Members(v) then Some(!Checked(sel, v)) else Dicts.Get(sel, k)
  {
    Dicts.PutAllSpec(sel, Members(v), !Checked(sel, v));
    Dicts.PutSpec(Dicts.PutAll(sel, Members(v), !Checked(sel, v)), v, !Checked(sel, v));
  }

  /** Toggling a macro twice gives it and all its children the macro's original check;
      other keys stay as they were. */
  lemma ToggleMacroTwice(sel: Selection, v: string)
    requires Dicts.Distinct(sel)
    ensures forall k ::
      Dicts.Get(ToggleMacro(ToggleMacro(sel, v), v), k) == if k == v || k in Members(v) then Some(Checked(sel, v)) else Dicts.Get(sel, k)
  {
    ToggleMacroSpec(sel, v);
    ToggleMacroSpec(ToggleMacro(sel, v), v);
    assert Checked(ToggleMacro(sel, v), v) == !Checked(sel, v);
  }

  /** `toggle_format_child(c)` */
  function ToggleChild(sel: Selection, c: string): (r: Selection)
    ensures Checked(r, c) == !Checked(sel, c)
  {
    Dicts.PutGet(sel, c, !Checked(sel, c));
    Dicts.Put(sel, c, !Checked(sel, c))
  }

  /** The child toggle flips only `c`, a missing key reading as unchecked; toggling twice
      restores its check. */
  lemma ToggleChildSpec(sel: Selection, c: string)
    requires Dicts.Distinct(sel)
    ensures Dicts.Distinct(ToggleChild(sel, c))
    ensures Checked(ToggleChild(sel, c), c) == !Checked(sel, c)
    ensures forall k :: k != c ==> Dicts.Get(ToggleChild(sel, c), k) == Dicts.Get(sel, k)
    ensures Checked(ToggleChild(ToggleChild(sel, c), c), c) == Checked(sel, c)
  {
    Dicts.PutSpec(sel, c, !Checked(sel, c));
    Dicts.PutSpec(ToggleChild(sel, c), c, Checked(sel, c));
  }

  // ---------------------------------------------------------------- macro states

  /** `sum(1 for c in cs if selection.get(c, False))` */
  function CountChecked(sel: Selection, cs: seq<string>): (n: nat)
    ensures n <= |cs|
    decreases |cs|
  {
    if |cs| == 0 then 0
    else CountChecked(sel, cs[..|cs| - 1]) + (if Checked(sel, cs[|cs| - 1]) then 1 else 0)
  }

  lemma {:induction false} CountCheckedSpec(sel: Selection, cs: seq<string>)
    ensures CountChecked(sel, cs) == |cs| <==> forall c :: c in cs ==> Checked(sel, c)
    ensures CountChecked(sel, cs) == 0 <==> forall c :: c in cs ==> !Checked(sel, c)
    decreases |cs|
  {
    if |cs| > 0 {
      var init := cs[..|cs| - 1];
      CountCheckedSpec(sel, init);
      assert cs == init + [cs[|cs| - 1]];
    }
  }

  /** The state `macro_states` gives a macro format. */
  function MacroState(sel: Selection, m: MacroFormat): (r: string)
    ensures r == "checked" || r == "unchecked" || r == "indeterminate"
    ensures r == "checked" ==> forall c :: c in FormatValues(m) ==> Checked(sel, c)
    ensures r == "unchecked" ==> forall c :: c in FormatValues(m) ==> !Checked(sel, c)
    ensures r == "indeterminate" ==>
      (exists c :: c in FormatValues(m) && Checked(sel, c)) && (exists c :: c in FormatValues(m) && !Checked(sel, c))
  {
    var cs := FormatValues(m);
    CountCheckedSpec(sel, cs);
    if |cs| == 0 then "unchecked"
    else
      var n := CountChecked(sel, cs);
      if n == |cs| then "checked" else if n == 0 then "unchecked" else "indeterminate"
  }

  /** "checked" when every child is checked, "unchecked" when none is, "indeterminate"
      otherwise. */
  lemma MacroStateSpec(sel: Selection, m: MacroFormat)
    ensures MacroState(sel, m) == "checked" <==> forall f :: Macro(f) == m ==> Checked(sel, FormatValue(f))
    ensures MacroState(sel, m) == "unchecked" <==> forall f :: Macro(f) == m ==> !Checked(sel, FormatValue(f))
    ensures MacroState(sel, m) in {"checked", "unchecked", "indeterminate"}
  {
    var cs := FormatValues(m);
    CountCheckedSpec(sel, cs);
    FormatValuesSpec(m);
    assert Formats.Formats(m)[0] in Formats.Formats(m);
    assert Macro(Formats.Formats(m)[0]) == m;
  }

  /** `macro_states`: one entry per macro format, keyed by its value. */
  function MacroStates(sel: Selection): (r: Dicts.Dict<string, string>)
    ensures Dicts.KeysOf(r) == [MacroValue(V2_5), MacroValue(V2_0), MacroValue(MOTHER)]
  {
    [(MacroValue(V2_5), MacroState(sel, V2_5)), (MacroValue(V2_0), MacroState(sel, V2_0)),
     (MacroValue(MOTHER), MacroState(sel, MOTHER))]
  }

  /** Each macro format's entry holds its state. */
  lemma MacroStatesLookup(sel: Selection, m: MacroFormat)
    ensures Dicts.Get(MacroStates(sel), MacroValue(m)) == Some(MacroState(sel, m))
  {
    Dicts.FindDistinct(MacroStates(sel), MacroValue(m), match m case V2_5 => 0 case V2_0 => 1 case MOTHER => 2);
  }

  // ---------------------------------------------------------------- location options

  /** Strictly ascending in code-point order: sorted and without a repeat. */
  predicate Increasing(s: seq<string>) {
    forall i, j :: 0 <= i < j < |s| ==> LexLess(StrKey(s[i]), StrKey(s[j]))
  }

  /** `list(set(pool))`, keeping first occurrences. */
  function Dedup(pool: seq<string>): seq<string>
    decreases |pool|
  {
    if |pool| == 0 then []
    else
      var init := Dedup(pool[..|pool| - 1]);
      if pool[|pool| - 1] in init then init else init + [pool[|pool| - 1]]
  }

  lemma {:induction false} DedupSpec(pool: seq<string>)
    ensures forall x :: x in Dedup(pool) <==> x in pool
    ensures forall i, j :: 0 <= i < j < |Dedup(pool)| ==> Dedup(pool)[i] != Dedup(pool)[j]
    decreases |pool|
  {
    if |pool| > 0 {
      DedupSpec(pool[..|pool| - 1]);
      assert pool == pool[..|pool| - 1] + [pool[|pool| - 1]];
    }
  }

  /** Sorting elements without a repeat gives a strictly ascending sequence of the same
      elements. */
  lemma SortedIncreasing(s: seq<string>)
    requires forall i, j :: 0 <= i < j < |s| ==> s[i] != s[j]
    ensures Increasing(SortStrings(s))
    ensures forall x :: x in SortStrings(s) <==> x in s
  {
    var r := SortStrings(s);
    SortStringsSpec(s, s);
    StrKeyInjective();
    assert forall x :: x in r <==> x in multiset(r);
    forall i, j | 0 <= i < j < |r| ensures LexLess(StrKey(r[i]), StrKey(r[j])) {
      if r[i] == r[j] {
        DistinctCount(s, r, i, j);
      }
      LexLessTotal(StrKey(r[i]), StrKey(r[j]));
    }
  }

  /** A sequence without repeats sorts to one without repeats. */
  lemma DistinctCount(s: seq<string>, r: seq<string>, i: nat, j: nat)
    requires forall a, b :: 0 <= a < b < |s| ==> s[a] != s[b]
    requires multiset(r) == multiset(s) && i < j < |r|
    ensures r[i] != r[j]
  {
    if r[i] == r[j] {
      var x := r[i];
      assert r == r[..j] + [x] + r[j + 1..];
      assert r[..j] == r[..i] + [x] + r[i + 1..j];
      assert multiset(r)[x] >= 2;
      CountAtMostOne(s, x);
    }
  }

  lemma {:induction false} CountAtMostOne(s: seq<string>, x: string)
    requires forall a, b :: 0 <= a < b < |s| ==> s[a] != s[b]
    ensures multiset(s)[x] <= 1
    decreases |s|
  {
    if |s| > 0 {
      var init := s[..|s| - 1];
      CountAtMostOne(init, x);
      assert s == init + [s[|s| - 1]];
      if s[|s| - 1] == x {
        assert x !in init;
      }
    }
  }

  /** `[c for c in s if query in c.lower()]`, the query lowered. */
  function Matching(s: seq<string>, query: string): seq<string>
    decreases |s|
  {
    if |s| == 0 then []
    else
      var c := s[|s| - 1];
      Matching(s[..|s| - 1], query) + if Contains(Lower(c), Lower(query)) then [c] else []
  }

  /** The filter keeps exactly the matching elements... */
  lemma {:induction false} MatchingSpec(s: seq<string>, query: string)
    ensures forall c :: c in Matching(s, query) <==> c in s && Contains(Lower(c), Lower(query))
    decreases |s|
  {
    if |s| > 0 {
      var init := s[..|s| - 1];
      MatchingSpec(init, query);
      assert s == init + [s[|s| - 1]];
    }
  }

  /** ... in their order. */
  lemma {:induction false} MatchingIncreasing(s: seq<string>, query: string)
    requires Increasing(s)
    ensures Increasing(Matching(s, query))
    decreases |s|
  {
    if |s| > 0 {
      var init := s[..|s| - 1];
      var last := s[|s| - 1];
      assert Increasing(init);
      MatchingIncreasing(init, query);
      MatchingSpec(init, query);
      var m := Matching(init, query);
      forall i | 0 <= i < |m| ensures LexLess(StrKey(m[i]), StrKey(last)) {
        assert m[i] in init;
        var k :| 0 <= k < |init| && init[k] == m[i];
        assert s[k] == init[k];
      }
    }
  }

  /** `[[c, c] for c in options]` */
  function Pairs(s: seq<string>): (r: seq<(string, string)>)
    ensures |r| == |s| && forall i :: 0 <= i < |s| ==> r[i] == (s[i], s[i])
  {
    Mapped(s, c => (c, c))
  }

  /** The options built from a pool: sorted, repeated entries dropped, filtered by the
      search text. */
  function OptionsOf(pool: seq<string>, query: string): seq<(string, string)> {
    Pairs(Matching(SortStrings(Dedup(pool)), query))
  }

  /** Options are label/value pairs of one name, strictly ascending (so sorted and
      duplicate-free), each containing the search text case-insensitively, and exactly the
      matching names of the pool. */
  lemma OptionsSpec(pool: seq<string>, query: string)
    ensures forall i :: 0 <= i < |OptionsOf(pool, query)| ==> OptionsOf(pool, query)[i].0 == OptionsOf(pool, query)[i].1
    ensures Increasing(Mapped(OptionsOf(pool, query), (p: (string, string)) => p.0))
    ensures forall c :: (c, c) in OptionsOf(pool, query) <==> c in pool && Contains(Lower(c), Lower(query))
  {
    DedupSpec(pool);
    SortedIncreasing(Dedup(pool));
    MatchingSpec(SortStrings(Dedup(pool)), query);
    MatchingIncreasing(SortStrings(Dedup(pool)), query);
    var m := Matching(SortStrings(Dedup(pool)), query);
    assert Mapped(OptionsOf(pool, query), (p: (string, string)) => p.0) == m;
    forall c | (c, c) in OptionsOf(pool, query) ensures c in m {
      var i :| 0 <= i < |m| && OptionsOf(pool, query)[i] == (c, c);
    }
    forall c | c in m ensures (c, c) in OptionsOf(pool, query) {
      var i :| 0 <= i < |m| && m[i] == c;
      assert OptionsOf(pool, query)[i] == (c, c);
    }
  }

  /** `continent_options`: the continents are sorted as they are (dict keys do not repeat)
      and filtered. */
  function ContinentOptionsOf(locs: Locations, query: string): seq<(string, string)> {
    Pairs(Matching(SortStrings(Dicts.KeysOf(locs)), query))
  }

  /** The continent options are the matching continents, strictly ascending. */
  lemma ContinentOptionsSpec(locs: Locations, query: string)
    requires Dicts.Distinct(locs)
    ensures Increasing(Mapped(ContinentOptionsOf(locs, query), (p: (string, string)) => p.0))
    ensures forall c :: (c, c) in ContinentOptionsOf(locs, query) <==>
      Dicts.Has(locs, c) && Contains(Lower(c), Lower(query))
  {
    var keys := Dicts.KeysOf(locs);
    SortedIncreasing(keys);
    MatchingSpec(SortStrings(keys), query);
    MatchingIncreasing(SortStrings(keys), query);
    var m := Matching(SortStrings(keys), query);
    assert Mapped(ContinentOptionsOf(locs, query), (p: (string, string)) => p.0) == m;
    forall c ensures (c, c) in ContinentOptionsOf(locs, query) <==> c in m {
      if (c, c) in ContinentOptionsOf(locs, query) {
        var i :| 0 <= i < |m| && ContinentOptionsOf(locs, query)[i] == (c, c);
      }
      if c in m {
        var i :| 0 <= i < |m| && m[i] == c;
        assert ContinentOptionsOf(locs, query)[i] == (c, c);
      }
      Dicts.HasIffKey(locs, c);
    }
  }

  /** `[k for k, v in selection.items() if v]` */
  function Active(sel: Selection): (r: seq<string>)
    ensures forall k :: k in r <==> exists i :: 0 <= i < |sel| && sel[i] == (k, true)
    decreases |sel|
  {
    if |sel| == 0 then []
    else
      var init := sel[..|sel| - 1];
      assert forall i :: 0 <= i < |init| ==> init[i] == sel[i];
      Active(init) + if sel[|sel| - 1].1 then [sel[|sel| - 1].0] else []
  }

  /** The countries of every continent, in order. */
  function AllCountries(locs: Locations): seq<string>
    decreases |locs|
  {
    if |locs| == 0 then [] else AllCountries(locs[..|locs| - 1]) + Dicts.KeysOf(locs[|locs| - 1].1)
  }

  /** The countries of the given continents, a continent not in the tree giving none. */
  function CountriesOf(locs: Locations, conts: seq<string>): seq<string>
    decreases |conts|
  {
    if |conts| == 0 then []
    else
      var tail := Dicts.KeysOf(Dicts.Get(locs, conts[|conts| - 1]).GetOr([]));
      CountriesOf(locs, conts[..|conts| - 1]) + tail
  }

  /** The pool of `country_options`: every country when no continent is selected, else
      those of the selected continents. */
  function CountryPool(locs: Locations, continents: Selection): seq<string> {
    var active := Active(continents);
    if |active| == 0 then AllCountries(locs) else CountriesOf(locs, active)
  }

  /** `country_options` */
  function CountryOptionsOf(locs: Locations, continents: Selection, query: string): seq<(string, string)> {
    OptionsOf(CountryPool(locs, continents), query)
  }

  /** The country `c` is in the tree under a continent that passes `ok`. */
  predicate CountryUnder(locs: Locations, c: string, conts: set<string>, any: bool) {
    exists i :: 0 <= i < |locs| && (any || locs[i].0 in conts) && Dicts.Has(locs[i].1, c)
  }

  lemma {:induction false} AllCountriesSpec(locs: Locations, c: string)
    ensures c in AllCountries(locs) <==> CountryUnder(locs, c, {}, true)
    decreases |locs|
  {
    if |locs| > 0 {
      var init := locs[..|locs| - 1];
      AllCountriesSpec(init, c);
      Dicts.HasIffKey(locs[|locs| - 1].1, c);
      if CountryUnder(locs, c, {}, true) && !Dicts.Has(locs[|locs| - 1].1, c) {
        var i :| 0 <= i < |locs| && Dicts.Has(locs[i].1, c);
        assert init[i] == locs[i];
      }
      if CountryUnder(init, c, {}, true) {
        var i :| 0 <= i < |init| && Dicts.Has(init[i].1, c);
        assert locs[i] == init[i];
      }
    }
  }

  lemma {:induction false} CountriesOfSpec(locs: Locations, conts: seq<string>, c: string)
    requires Dicts.Distinct(locs)
    ensures c in CountriesOf(locs, conts) <==> CountryUnder(locs, c, set k | k in conts, false)
    decreases |conts|
  {
    if |conts| > 0 {
      var init := conts[..|conts| - 1];
      var last := conts[|conts| - 1];
      CountriesOfSpec(locs, init, c);
      assert conts == init + [last];
      var inner := Dicts.Get(locs, last).GetOr([]);
      Dicts.HasIffKey(inner, c);
      if CountryUnder(locs, c, set k | k in conts, false) {
        var i :| 0 <= i < |locs| && locs[i].0 in conts && Dicts.Has(locs[i].1, c);
        if locs[i].0 == last {
          Dicts.FindDistinct(locs, last, i);
        } else {
          assert CountryUnder(locs, c, set k | k in init, false);
        }
      }
      if Dicts.Has(inner, c) {
        var i := Dicts.Find(locs, last).value;
        assert locs[i].0 in conts && Dicts.Has(locs[i].1, c);
      }
      if CountryUnder(locs, c, set k | k in init, false) {
        var i :| 0 <= i < |locs| && locs[i].0 in init && Dicts.Has(locs[i].1, c);
        assert locs[i].0 in conts;
      }
    }
  }

  /** The country options are the matching countries of the selected continents (of all
      continents when none is selected), strictly ascending. */
  lemma CountryOptionsSpec(locs: Locations, continents: Selection, query: string)
    requires Dicts.Distinct(locs)
    ensures Increasing(Mapped(CountryOptionsOf(locs, continents, query), (p: (string, string)) => p.0))
    ensures forall c :: (c, c) in CountryOptionsOf(locs, continents, query) <==>
      Contains(Lower(c), Lower(query)) &&
      CountryUnder(locs, c, set k | k in Active(continents), |Active(continents)| == 0)
  {
    OptionsSpec(CountryPool(locs, continents), query);
    forall c ensures c in CountryPool(locs, continents) <==>
      CountryUnder(locs, c, set k | k in Active(continents), |Active(continents)| == 0)
    {
      if |Active(continents)| == 0 {
        AllCountriesSpec(locs, c);
        if CountryUnder(locs, c, {}, true) {
          var i :| 0 <= i < |locs| && Dicts.Has(locs[i].1, c);
          assert CountryUnder(locs, c, set k | k in Active(continents), true);
        }
        if CountryUnder(locs, c, set k | k in Active(continents), true) {
          var i :| 0 <= i < |locs| && Dicts.Has(locs[i].1, c);
          assert CountryUnder(locs, c, {}, true);
        }
      } else {
        CountriesOfSpec(locs, Active(continents), c);
      }
    }
  }

  /** The cities of the countries of one continent that pass the filter. */
  function CitiesIn(countries: Dicts.Dict<string, seq<string>>, active: seq<string>, any: bool): seq<string>
    decreases |countries|
  {
    if |countries| == 0 then []
    else
      var e := countries[|countries| - 1];
      CitiesIn(countries[..|countries| - 1], active, any) + if any || e.0 in active then e.1 else []
  }

  /** The cities of every continent's countries that pass the filter. */
  function Cities(locs: Locations, active: seq<string>, any: bool): seq<string>
    decreases |locs|
  {
    if |locs| == 0 then [] else Cities(locs[..|locs| - 1], active, any) + CitiesIn(locs[|locs| - 1].1, active, any)
  }

  /** The pool of `city_options`: every city when no country is selected, else the cities
      of the selected countries, whichever continent lists them. */
  function CityPool(locs: Locations, countries: Selection): seq<string> {
    var active := Active(countries);
    Cities(locs, active, |active| == 0)
  }

  /** `city_options` */
  function CityOptionsOf(locs: Locations, countries: Selection, query: string): seq<(string, string)> {
    OptionsOf(CityPool(locs, countries), query)
  }

  /** The city `c` is listed under some country that passes the filter. */
  predicate CityUnder(locs: Locations, c: string, active: seq<string>, any: bool) {
    exists i, j :: 0 <= i < |locs| && 0 <= j < |locs[i].1| && (any || locs[i].1[j].0 in active) && c in locs[i].1[j].1
  }

  lemma {:induction false} CitiesInSpec(countries: Dicts.Dict<string, seq<string>>, active: seq<string>, any: bool, c: string)
    ensures c in CitiesIn(countries, active, any) <==>
      exists j :: 0 <= j < |countries| && (any || countries[j].0 in active) && c in countries[j].1
    decreases |countries|
  {
    if |countries| > 0 {
      var init := countries[..|countries| - 1];
      CitiesInSpec(init, active, any, c);
      if exists j :: 0 <= j < |init| && (any || init[j].0 in active) && c in init[j].1 {
        var j :| 0 <= j < |init| && (any || init[j].0 in active) && c in init[j].1;
        assert countries[j] == init[j];
      }
      if exists j :: 0 <= j < |countries| && (any || countries[j].0 in active) && c in countries[j].1 {
        var j :| 0 <= j < |countries| && (any || countries[j].0 in active) && c in countries[j].1;
        if j < |init| {
          assert init[j] == countries[j];
        }
      }
    }
  }

  lemma {:induction false} CitiesSpec(locs: Locations, active: seq<string>, any: bool, c: string)
    ensures c in Cities(locs, active, any) <==> CityUnder(locs, c, active, any)
    decreases |locs|
  {
    if |locs| > 0 {
      var init := locs[..|locs| - 1];
      var last := locs[|locs| - 1];
      CitiesSpec(init, active, any, c);
      CitiesInSpec(last.1, active, any, c);
      if CityUnder(init, c, active, any) {
        var i, j :| 0 <= i < |init| && 0 <= j < |init[i].1| && (any || init[i].1[j].0 in active) && c in init[i].1[j].1;
        assert locs[i] == init[i];
      }
      if c in CitiesIn(last.1, active, any) {
        var j :| 0 <= j < |last.1| && (any || last.1[j].0 in active) && c in last.1[j].1;
        assert locs[|locs| - 1] == last;
      }
      if CityUnder(locs, c, active, any) {
        var i, j :| 0 <= i < |locs| && 0 <= j < |locs[i].1| && (any || locs[i].1[j].0 in active) && c in locs[i].1[j].1;
        if i < |init| {
          assert init[i] == locs[i];
        }
      }
    }
  }

  /** The city options are the matching cities of the selected countries (of every country
      when none is selected), strictly ascending. */
  lemma CityOptionsSpec(locs: Locations, countries: Selection, query: string)
    ensures Increasing(Mapped(CityOptionsOf(locs, countries, query), (p: (string, string)) => p.0))
    ensures forall c :: (c, c) in CityOptionsOf(locs, countries, query) <==>
      Contains(Lower(c), Lower(query)) && CityUnder(locs, c, Active(countries), |Active(countries)| == 0)
  {
    OptionsSpec(CityPool(locs, countries), query);
    forall c ensures c in CityPool(locs, countries) <==> CityUnder(locs, c, Active(countries), |Active(countries)| == 0) {
      CitiesSpec(locs, Active(countries), |Active(countries)| == 0, c);
    }
  }

  // ---------------------------------------------------------------- the state

  /** The argument of `set_data_source`: a value, or the list a select component sends. */
  datatype SourceArg = Value(s: string) | Values(items: seq<string>)

  class GlobalFilterState {
    var dataSource: string
    var includeEpic: bool
    var dateStart: string
    var dateEnd: string
    var selectedFormats: Selection
    var selectedContinents: Selection
    var selectedCountries: Selection
    var selectedCities: Selection
    var continentSearch: string
    var countrySearch: string
    var citySearch: string
    var allLocations: Locations

    /** The field defaults. */
    constructor ()
      ensures dataSource == "xwa" && !includeEpic && dateStart == "" && dateEnd == ""
      ensures selectedFormats == [] && selectedContinents == [] && selectedCountries == [] && selectedCities == []
      ensures continentSearch == "" && countrySearch == "" && citySearch == "" && allLocations == []
    {
      dataSource := "xwa";
      includeEpic := false;
      dateStart := "";
      dateEnd := "";
      selectedFormats := [];
      selectedContinents := [];
      selectedCountries := [];
      selectedCities := [];
      continentSearch := "";
      countrySearch := "";
      citySearch := "";
      allLocations := [];
    }

    /** `set_data_source`: a list gives its first element; an empty list raises
        `IndexError` (`ok` false) before anything changes. */
    method SetDataSource(val: SourceArg) returns (ok: bool)
      modifies this`dataSource, this`selectedFormats
      ensures ok <==> !(val.Values? && |val.items| == 0)
      ensures !ok ==> dataSource == old(dataSource) && selectedFormats == old(selectedFormats)
      ensures ok ==> dataSource == (if val.Values? then val.items[0] else val.s)
      ensures ok ==> selectedFormats == DefaultFormats(dataSource)
    {
      if val.Values? && |val.items| == 0 {
        return false;
      }
      var v := if val.Values? then val.items[0] else val.s;
      dataSource := v;
      SetDefaultFormatsForSource(v);
      ok := true;
    }

    method SetIncludeEpic(val: bool)
      modifies this`includeEpic
      ensures includeEpic == val
    {
      includeEpic := val;
    }

    method SetDateStart(date: string)
      modifies this`dateStart
      ensures dateStart == date
    {
      dateStart := date;
    }

    method SetDateEnd(date: string)
      modifies this`dateEnd
      ensures dateEnd == date
    {
      dateEnd := date;
    }

    /** `on_mount`: the source's defaults when no format is selected yet. */
    method OnMount()
      modifies this`selectedFormats
      ensures old(selectedFormats) == [] ==> selectedFormats == DefaultFormats(dataSource)
      ensures old(selectedFormats) != [] ==> selectedFormats == old(selectedFormats)
    {
      if |selectedFormats| == 0 {
        SetDefaultFormatsForSource(dataSource);
      }
    }

    method SetDefaultFormatsForSource(source: string)
      modifies this`selectedFormats
      ensures selectedFormats == DefaultFormats(source)
    {
      selectedFormats := DefaultFormatsOf(source);
    }

    /** `toggle_format_macro`: a copy updated child by child, then written back. */
    method ToggleFormatMacro(v: string)
      modifies this`selectedFormats
      ensures selectedFormats == ToggleMacro(old(selectedFormats), v)
    {
      var target := !Checked(selectedFormats, v);
      var next := PutEach(selectedFormats, Members(v), target);
      selectedFormats := Dicts.Put(next, v, target);
    }

    method ToggleFormatChild(c: string)
      modifies this`selectedFormats
      ensures selectedFormats == ToggleChild(old(selectedFormats), c)
    {
      var checked := !Checked(selectedFormats, c);
      selectedFormats := Dicts.Put(selectedFormats, c, checked);
    }

    /** `load_locations`, the tree read from the database given as `locs`. */
    method LoadLocations(locs: Locations)
      modifies this`allLocations
      ensures allLocations == locs
    {
      allLocations := locs;
    }

    function MacroStatesVar(): Dicts.Dict<string, string>
      reads this
    {
      MacroStates(selectedFormats)
    }

    function ContinentOptions(): seq<(string, string)>
      reads this
    {
      ContinentOptionsOf(allLocations, continentSearch)
    }

    function CountryOptions(): seq<(string, string)>
      reads this
    {
      CountryOptionsOf(allLocations, selectedContinents, countrySearch)
    }

    function CityOptions(): seq<(string, string)>
      reads this
    {
      CityOptionsOf(allLocations, selectedCountries, citySearch)
    }

    method ToggleContinent(val: string, checked: bool)
      modifies this`selectedContinents
      ensures selectedContinents == Dicts.Put(old(selectedContinents), val, checked)
    {
      selectedContinents := Dicts.Put(selectedContinents, val, checked);
    }

    method ToggleCountry(val: string, checked: bool)
      modifies this`selectedCountries
      ensures selectedCountries == Dicts.Put(old(selectedCountries), val, checked)
    {
      selectedCountries := Dicts.Put(selectedCountries, val, checked);
    }

    method ToggleCity(val: string, checked: bool)
      modifies this`selectedCities
      ensures selectedCities == Dicts.Put(old(selectedCities), val, checked)
    {
      selectedCities := Dicts.Put(selectedCities, val, checked);
    }

    method SetContinentSearch(val: string)
      modifies this`continentSearch
      ensures continentSearch == val
    {
      continentSearch := val;
    }

    method SetCountrySearch(val: string)
      modifies this`countrySearch
      ensures countrySearch == val
    {
      countrySearch := val;
    }

    method SetCitySearch(val: string)
      modifies this`citySearch
      ensures citySearch == val
    {
      citySearch := val;
    }

    /** `_reset_logic`: the source goes back to "xwa" only when asked; the formats are
        always re-defaulted for the (possibly kept) source; the epic flag, the dates, the
        location selections and the searches are always cleared. The loaded locations
        stay. */
    method ResetLogic(resetSource: bool)
      modifies this`dataSource, this`selectedFormats, this`includeEpic, this`dateStart, this`dateEnd
      modifies this`selectedContinents, this`selectedCountries, this`selectedCities
      modifies this`continentSearch, this`countrySearch, this`citySearch
      ensures dataSource == if resetSource then "xwa" else old(dataSource)
      ensures selectedFormats == DefaultFormats(dataSource)
      ensures !includeEpic && dateStart == "" && dateEnd == ""
      ensures selectedContinents == [] && selectedCountries == [] && selectedCities == []
      ensures continentSearch == "" && countrySearch == "" && citySearch == ""
    {
      if resetSource {
        dataSource := "xwa";
      }
      SetDefaultFormatsForSource(dataSource);
      ClearTournamentFilters();
    }

    /** The fields `_reset_logic` always clears. */
    method ClearTournamentFilters()
      modifies this`includeEpic, this`dateStart, this`dateEnd
      modifies this`selectedContinents, this`selectedCountries, this`selectedCities
      modifies this`continentSearch, this`countrySearch, this`citySearch
      ensures !includeEpic && dateStart == "" && dateEnd == ""
      ensures selectedContinents == [] && selectedCountries == [] && selectedCities == []
      ensures continentSearch == "" && countrySearch == "" && citySearch == ""
    {
      includeEpic := false;
      dateStart := "";
      dateEnd := "";
      selectedContinents := [];
      selectedCountries := [];
      selectedCities := [];
      continentSearch := "";
      countrySearch := "";
      citySearch := "";
    }

    method ResetFilters()
      modifies this`dataSource, this`selectedFormats, this`includeEpic, this`dateStart, this`dateEnd
      modifies this`selectedContinents, this`selectedCountries, this`selectedCities
      modifies this`continentSearch, this`countrySearch, this`citySearch
      ensures dataSource == "xwa" && selectedFormats == DefaultFormats("xwa")
      ensures !includeEpic && dateStart == "" && dateEnd == ""
      ensures selectedContinents == [] && selectedCountries == [] && selectedCities == []
      ensures continentSearch == "" && countrySearch == "" && citySearch == ""
    {
      ResetLogic(true);
    }

    method ResetTournamentFilters()
      modifies this`dataSource, this`selectedFormats, this`includeEpic, this`dateStart, this`dateEnd
      modifies this`selectedContinents, this`selectedCountries, this`selectedCities
      modifies this`continentSearch, this`countrySearch, this`citySearch
      ensures dataSource == old(dataSource) && selectedFormats == DefaultFormats(dataSource)
      ensures !includeEpic && dateStart == "" && dateEnd == ""
      ensures selectedContinents == [] && selectedCountries == [] && selectedCities == []
      ensures continentSearch == "" && countrySearch == "" && citySearch == ""
    {
      ResetLogic(false);
    }
  }
}
