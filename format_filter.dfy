/** The hierarchical format filter's state mixin (`components/format_filter.py`): a
    selection of format and macro values, set by macro or by child. The rendering
    functions of that file are interface layout and are not modelled. */
module FormatFilter {
  import opened Wrappers
  import Dicts
  import opened Formats
  import UiFormats

  type Selection = Dicts.Dict<string, bool>

  /** `{v: True for v in keys}` */
  function AllTrue(keys: seq<string>): Selection {
    Dicts.PutAll([], keys, true)
  }

  /** `[m.value for m in MacroFormat]` */
  function MacroValues(): seq<string> {
    [MacroValue(V2_5), MacroValue(V2_0), MacroValue(MOTHER)]
  }

  /** `[f.value for f in Format]` */
  function AllFormatValues(): (r: seq<string>)
    ensures |r| == |AllFormats| && forall i :: 0 <= i < |r| ==> r[i] == FormatValue(AllFormats[i])
  {
    seq(|AllFormats|, i requires 0 <= i < |AllFormats| => FormatValue(AllFormats[i]))
  }

  /** The class default of `selected_formats`: the macro dict merged with the format dict
      by `|`, so the shared key "other" keeps its place among the macros. */
  function MixinDefault(): Selection {
    Dicts.PutAll(AllTrue(MacroValues()), AllFormatValues(), true)
  }

  /** The default selection checks every macro and format value and holds no other key. */
  lemma MixinDefaultSpec()
    ensures Dicts.Distinct(MixinDefault())
    ensures forall k :: Dicts.Get(MixinDefault(), k) == if k in AllValues() then Some(true) else None
  {
    Dicts.PutAllSpec([], MacroValues(), true);
    Dicts.PutAllSpec(AllTrue(MacroValues()), AllFormatValues(), true);
    forall k ensures k in AllValues() <==> k in MacroValues() || k in AllFormatValues() {
      if k in AllFormatValues() {
        var i :| 0 <= i < |AllFormatValues()| && AllFormatValues()[i] == k;
        assert AllFormats[i] in AllFormats;
      }
      if f :| f in AllFormats && FormatValue(f) == k {
        var i :| 0 <= i < |AllFormats| && AllFormats[i] == f;
        assert AllFormatValues()[i] == k;
      }
      if m :| m in AllMacros && MacroValue(m) == k {
        assert m == V2_5 || m == V2_0 || m == MOTHER;
      }
    }
  }

  /** The mixin's default agrees key by key with `get_default_format_selection()`. */
  lemma MixinMatchesUiDefault()
    ensures forall k :: Dicts.Get(MixinDefault(), k) == Dicts.Get(UiFormats.DefaultSelection(), k)
  {
    MixinDefaultSpec();
    UiFormats.DefaultSelectionSpec();
  }

  /** `toggle_format_macro(v, checked)`: `v` first, then the children of the macro format
      it names, if any. */
  function SetMacro(sel: Selection, v: string, checked: bool): Selection {
    Dicts.PutAll(Dicts.Put(sel, v, checked), Members(v), checked)
  }

  /** `v` and each of its children take `checked`; every other key is unchanged; a value
      that names no macro format (the `ValueError` branch) sets only its own key. */
  lemma SetMacroSpec(sel: Selection, v: string, checked: bool)
    requires Dicts.Distinct(sel)
    ensures Dicts.Distinct(SetMacro(sel, v, checked))
    ensures MacroFromValue(v).None? ==> SetMacro(sel, v, checked) == Dicts.Put(sel, v, checked)
    ensures forall k ::
      Dicts.Get(SetMacro(sel, v, checked), k) == if k == v || k in Members(v) then Some(checked) else Dicts.Get(sel, k)
  {
    Dicts.PutSpec(sel, v, checked);
    Dicts.PutAllSpec(Dicts.Put(sel, v, checked), Members(v), checked);
  }

  /** A macro format's value sets exactly it and its formats. */
  lemma MacroSetsChildren(sel: Selection, m: MacroFormat, checked: bool)
    requires Dicts.Distinct(sel)
    ensures Dicts.Get(SetMacro(sel, MacroValue(m), checked), MacroValue(m)) == Some(checked)
    ensures forall f :: Macro(f) == m ==> Dicts.Get(SetMacro(sel, MacroValue(m), checked), FormatValue(f)) == Some(checked)
  {
    SetMacroSpec(sel, MacroValue(m), checked);
    FormatValuesSpec(m);
    assert MacroFromValue(MacroValue(m)) == Some(m) by {
      ValuesInjective();
    }
  }

  class FormatFilterMixin {
    var selectedFormats: Selection
    /** How often the `on_filter_change` hook has run; the hook itself does nothing. */
    ghost var changes: nat

    constructor ()
      ensures selectedFormats == MixinDefault() && changes == 0
    {
      selectedFormats := MixinDefault();
      changes := 0;
    }

    /** `toggle_format_macro`: the dict is written in place, key by key, then the hook
        runs. */
    method ToggleFormatMacro(v: string, checked: bool)
      modifies this
      ensures selectedFormats == SetMacro(old(selectedFormats), v, checked)
      ensures changes == old(changes) + 1
    {
      selectedFormats := Dicts.Put(selectedFormats, v, checked);
      var cs := Members(v);
      var base := selectedFormats;
      var j := 0;
      while j < |cs|
        invariant 0 <= j <= |cs|
        invariant selectedFormats == Dicts.PutAll(base, cs[..j], checked)
        invariant changes == old(changes)
      {
        assert cs[..j + 1][..j] == cs[..j];
        selectedFormats := Dicts.Put(selectedFormats, cs[j], checked);
        j := j + 1;
      }
      assert cs[..j] == cs;
      OnFilterChange();
    }

    /** `toggle_format_child`: only `c` is written, then the hook runs. */
    method ToggleFormatChild(c: string, checked: bool)
      modifies this
      ensures selectedFormats == Dicts.Put(old(selectedFormats), c, checked)
      ensures changes == old(changes) + 1
    {
      selectedFormats := Dicts.Put(selectedFormats, c, checked);
      OnFilterChange();
    }

    /** The hook for sub-classes; here it changes no state. */
    method OnFilterChange()
      modifies this`changes
      ensures changes == old(changes) + 1
    {
      changes := changes + 1;
    }
  }
}
