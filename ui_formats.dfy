/** The format hierarchy of the interface (`ui_utils/formats.py`): each macro format
    with the formats grouped under it, the default selection that enables every one,
    and the options of the format drop-down. */
module UiFormats {
  import opened Wrappers
  import Dicts
  import opened Formats

  /** `{"label": ..., "value": ...}` */
  datatype Item = Item(caption: string, value: string)

  /** `{"label": ..., "value": ..., "children": [...]}` */
  datatype Group = Group(caption: string, value: string, children: seq<Item>)

  type Selection = Dicts.Dict<string, bool>

  function ItemOf(f: Format): Item {
    Item(FormatLabel(f), FormatValue(f))
  }

  /** `[f for f in fs if f.macro == m]`, as items. */
  function Children(m: MacroFormat, fs: seq<Format>): seq<Item>
    decreases |fs|
  {
    if |fs| == 0 then []
    else
      var f := fs[|fs| - 1];
      Children(m, fs[..|fs| - 1]) + (if Macro(f) == m then [ItemOf(f)] else [])
  }

  /** The entry of `m`, labelled by its value. */
  function GroupFor(m: MacroFormat): Group {
    Group(MacroValue(m), MacroValue(m), Children(m, AllFormats))
  }

  /** One entry per macro format that has formats, in the order given. */
  function Groups(ms: seq<MacroFormat>): seq<Group>
    decreases |ms|
  {
    if |ms| == 0 then []
    else
      var m := ms[|ms| - 1];
      Groups(ms[..|ms| - 1]) + (if |Children(m, AllFormats)| > 0 then [GroupFor(m)] else [])
  }

  /** `FORMAT_HIERARCHY` */
  function Hierarchy(): seq<Group> {
    Groups(AllMacros)
  }

  /** A format's item is among the children of `m` exactly when the format belongs to
      `m`. */
  lemma {:induction false} ChildrenSpec(m: MacroFormat, fs: seq<Format>, f: Format)
    ensures ItemOf(f) in Children(m, fs) <==> f in fs && Macro(f) == m
    decreases |fs|
  {
    if |fs| > 0 {
      var init := fs[..|fs| - 1];
      ChildrenSpec(m, init, f);
      ItemInjective(f, fs[|fs| - 1]);
      assert fs == init + [fs[|fs| - 1]];
    }
  }

  lemma ItemInjective(f: Format, g: Format)
    ensures ItemOf(f) == ItemOf(g) ==> f == g
  {
    ValuesInjective();
  }

  /** Every entry is some macro format's entry, and has children. */
  lemma {:induction false} GroupsSpec(ms: seq<MacroFormat>)
    ensures forall g :: g in Groups(ms) ==> |g.children| > 0 && exists m :: m in ms && g == GroupFor(m)
    ensures forall m :: m in ms && |Children(m, AllFormats)| > 0 ==> GroupFor(m) in Groups(ms)
    decreases |ms|
  {
    if |ms| > 0 {
      var init := ms[..|ms| - 1];
      GroupsSpec(init);
      assert ms == init + [ms[|ms| - 1]];
    }
  }

  /** Each format sits under exactly one entry of the hierarchy, its own macro format's,
      which the hierarchy labels by its value. */
  lemma HierarchySpec(f: Format)
    ensures GroupFor(Macro(f)) in Hierarchy() && ItemOf(f) in GroupFor(Macro(f)).children
    ensures forall g :: g in Hierarchy() && ItemOf(f) in g.children ==> g == GroupFor(Macro(f))
    ensures forall g :: g in Hierarchy() ==> g.caption == g.value
  {
    GroupsSpec(AllMacros);
    FormatsPartition();
    ChildrenSpec(Macro(f), AllFormats, f);
    forall g | g in Hierarchy() && ItemOf(f) in g.children ensures g == GroupFor(Macro(f)) {
      var m :| m in AllMacros && g == GroupFor(m);
      ChildrenSpec(m, AllFormats, f);
    }
  }

  /** No macro format is left out: each has at least one format. */
  lemma EveryMacroListed(m: MacroFormat)
    ensures GroupFor(m) in Hierarchy()
  {
    var f := match m case V2_5 => AMG case V2_0 => FFG case MOTHER => OTHER;
    ChildrenSpec(m, AllFormats, f);
    GroupsSpec(AllMacros);
  }

  /** The module-level loop that builds `FORMAT_HIERARCHY`. */
  method BuildHierarchy() returns (h: seq<Group>)
    ensures h == Hierarchy()
  {
    h := [];
    var i := 0;
    while i < |AllMacros|
      invariant 0 <= i <= |AllMacros|
      invariant h == Groups(AllMacros[..i])
    {
      var m := AllMacros[i];
      assert AllMacros[..i + 1][..i] == AllMacros[..i];
      var children := ChildrenOf(m);
      if |children| > 0 {
        h := h + [Group(MacroValue(m), MacroValue(m), children)];
      }
      i := i + 1;
    }
    assert AllMacros[..i] == AllMacros;
  }

  /** The inner loop: the formats of `m`, in declaration order. */
  method ChildrenOf(m: MacroFormat) returns (children: seq<Item>)
    ensures children == Children(m, AllFormats)
  {
    children := [];
    var j := 0;
    while j < |AllFormats|
      invariant 0 <= j <= |AllFormats|
      invariant children == Children(m, AllFormats[..j])
    {
      assert AllFormats[..j + 1][..j] == AllFormats[..j];
      if Macro(AllFormats[j]) == m {
        children := children + [ItemOf(AllFormats[j])];
      }
      j := j + 1;
    }
    assert AllFormats[..j] == AllFormats;
  }

  // ---------------------------------------------------------------- the default selection

  /** The values named by the entries: each macro value and each child's value. */
  function Named(h: seq<Group>): set<string>
    decreases |h|
  {
    if |h| == 0 then {}
    else
      var g := h[|h| - 1];
      Named(h[..|h| - 1]) + {g.value} + (set c | c in g.children :: c.value)
  }

  function PutChildren(d: Selection, cs: seq<Item>): Selection
    decreases |cs|
  {
    if |cs| == 0 then d else Dicts.Put(PutChildren(d, cs[..|cs| - 1]), cs[|cs| - 1].value, true)
  }

  /** `result[macro["value"]] = True` and then `result[child["value"]] = True` for each
      entry. */
  function SelectionOf(h: seq<Group>): Selection
    decreases |h|
  {
    if |h| == 0 then []
    else
      var g := h[|h| - 1];
      PutChildren(Dicts.Put(SelectionOf(h[..|h| - 1]), g.value, true), g.children)
  }

  /** `get_default_format_selection()` */
  function DefaultSelection(): Selection {
    SelectionOf(Hierarchy())
  }

  /** Every value named is enabled and nothing else is present. */
  lemma {:induction false} SelectionSpec(h: seq<Group>)
    ensures Dicts.Distinct(SelectionOf(h))
    ensures forall k :: Dicts.Get(SelectionOf(h), k) == if k in Named(h) then Some(true) else None
    decreases |h|
  {
    if |h| > 0 {
      var g := h[|h| - 1];
      var init := h[..|h| - 1];
      SelectionSpec(init);
      var d := Dicts.Put(SelectionOf(init), g.value, true);
      Dicts.PutSpec(SelectionOf(init), g.value, true);
      PutChildrenSpec(d, g.children);
    }
  }

  lemma {:induction false} PutChildrenSpec(d: Selection, cs: seq<Item>)
    requires Dicts.Distinct(d)
    ensures Dicts.Distinct(PutChildren(d, cs))
    ensures forall k ::
      Dicts.Get(PutChildren(d, cs), k) == if k in (set c | c in cs :: c.value) then Some(true) else Dicts.Get(d, k)
    decreases |cs|
  {
    if |cs| > 0 {
      var init := cs[..|cs| - 1];
      var last := cs[|cs| - 1];
      PutChildrenSpec(d, init);
      Dicts.PutSpec(PutChildren(d, init), last.value, true);
      forall k | k != last.value
        ensures Dicts.Get(PutChildren(d, cs), k) == if k in (set c | c in cs :: c.value) then Some(true) else Dicts.Get(d, k)
      {
        if k in (set c | c in cs :: c.value) {
          var c :| c in cs && c.value == k;
          assert c in init by {
            var i :| 0 <= i < |cs| && cs[i] == c;
            assert i < |cs| - 1 && init[i] == c;
          }
        }
        if k in (set c | c in init :: c.value) {
          var c :| c in init && c.value == k;
          assert c in cs;
        }
      }
      assert last.value in (set c | c in cs :: c.value) by {
        assert last in cs;
      }
    }
  }

  /** The default selection enables every macro value and every format value, and holds
      no other key. */
  lemma DefaultSelectionSpec()
    ensures Dicts.Distinct(DefaultSelection())
    ensures forall k :: Dicts.Get(DefaultSelection(), k) == if k in AllValues() then Some(true) else None
  {
    SelectionSpec(Hierarchy());
    NamedHierarchy();
  }

  /** The hierarchy names exactly the macro values and the format values. */
  lemma NamedHierarchy()
    ensures Named(Hierarchy()) == AllValues()
  {
    GroupsSpec(AllMacros);
    NamedWithin(Hierarchy());
    forall m | m in AllMacros ensures MacroValue(m) in Named(Hierarchy()) {
      EveryMacroListed(m);
      NamedHas(Hierarchy(), GroupFor(m));
    }
    forall f | f in AllFormats ensures FormatValue(f) in Named(Hierarchy()) {
      HierarchySpec(f);
      NamedHas(Hierarchy(), GroupFor(Macro(f)));
      assert ItemOf(f).value == FormatValue(f);
    }
  }

  /** What macro entries name are macro values and format values. */
  lemma {:induction false} NamedWithin(h: seq<Group>)
    requires forall g :: g in h ==> exists m :: m in AllMacros && g == GroupFor(m)
    ensures Named(h) <= AllValues()
    decreases |h|
  {
    if |h| > 0 {
      var g := h[|h| - 1];
      var init := h[..|h| - 1];
      assert forall x :: x in init ==> x in h;
      NamedWithin(init);
      assert g in h;
      var m :| m in AllMacros && g == GroupFor(m);
      assert g.value in AllValues();
      forall c | c in g.children ensures c.value in AllValues() {
        ChildValue(m, AllFormats, c);
      }
    }
  }

  lemma {:induction false} ChildValue(m: MacroFormat, fs: seq<Format>, c: Item)
    requires c in Children(m, fs)
    ensures c.value in AllValues()
    decreases |fs|
  {
    var init := fs[..|fs| - 1];
    if c in Children(m, init) {
      ChildValue(m, init, c);
    } else {
      FormatsPartition();
      assert FormatValue(fs[|fs| - 1]) == c.value;
    }
  }

  /** An entry's value and its children's values are named. */
  lemma {:induction false} NamedHas(h: seq<Group>, g: Group)
    requires g in h
    ensures g.value in Named(h) && forall c :: c in g.children ==> c.value in Named(h)
    decreases |h|
  {
    if g != h[|h| - 1] {
      NamedHas(h[..|h| - 1], g);
    }
  }

  /** The loops of `get_default_format_selection`. */
  method DefaultSelectionOf(h: seq<Group>) returns (d: Selection)
    ensures d == SelectionOf(h)
  {
    d := [];
    var i := 0;
    while i < |h|
      invariant 0 <= i <= |h|
      invariant d == SelectionOf(h[..i])
    {
      SelectionNext(h, i);
      d := PutChildrenOf(Dicts.Put(d, h[i].value, true), h[i].children);
      i := i + 1;
    }
    assert h[..i] == h;
  }

  /** The inner loop: every child value set to true, in order. */
  method PutChildrenOf(base: Selection, cs: seq<Item>) returns (d: Selection)
    ensures d == PutChildren(base, cs)
  {
    d := base;
    var j := 0;
    while j < |cs|
      invariant 0 <= j <= |cs|
      invariant d == PutChildren(base, cs[..j])
    {
      assert cs[..j + 1][..j] == cs[..j];
      d := Dicts.Put(d, cs[j].value, true);
      j := j + 1;
    }
    assert cs[..j] == cs;
  }

  lemma SelectionNext(h: seq<Group>, i: nat)
    requires i < |h|
    ensures SelectionOf(h[..i + 1]) == PutChildren(Dicts.Put(SelectionOf(h[..i]), h[i].value, true), h[i].children)
  {
    assert h[..i + 1][..i] == h[..i];
  }

  // ---------------------------------------------------------------- the options

  /** `get_format_options()`, as (label, value) pairs. */
  function FormatOptions(): (r: seq<(string, string)>)
    ensures |r| == 1 + |Hierarchy()| && r[0] == ("All", "all")
    ensures forall i :: 0 <= i < |Hierarchy()| ==> r[i + 1] == (Hierarchy()[i].caption, Hierarchy()[i].value)
  {
    [("All", "all")] + seq(|Hierarchy()|, i requires 0 <= i < |Hierarchy()| => (Hierarchy()[i].caption, Hierarchy()[i].value))
  }

  /** After "All", the options name each macro format once, by its value. */
  lemma OptionsName(m: MacroFormat)
    ensures exists i :: 1 <= i < |FormatOptions()| && FormatOptions()[i] == (MacroValue(m), MacroValue(m))
  {
    EveryMacroListed(m);
    var h := Hierarchy();
    var i :| 0 <= i < |h| && h[i] == GroupFor(m);
    assert FormatOptions()[i + 1] == (MacroValue(m), MacroValue(m));
  }
}
