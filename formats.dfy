/** Game formats, their grouping into macro formats, and inference of a list's format
    from the metadata its squad builder leaves in its XWS export. */
module Formats {
  import opened Wrappers
  import opened Strings
  import opened Json

  datatype MacroFormat = V2_5 | V2_0 | MOTHER

  datatype Format =
    | AMG | XWA | XWA_EPIC
    | FFG | LEGACY_X2PO | LEGACY_XLC | WILDSPACE | LEGACY_EPIC
    | OTHER

  /** Every macro format, in declaration order. */
  const AllMacros: seq<MacroFormat> := [V2_5, V2_0, MOTHER]

  /** Every format, in declaration order. */
  const AllFormats: seq<Format> :=
    [AMG, XWA, XWA_EPIC, FFG, LEGACY_X2PO, LEGACY_XLC, WILDSPACE, LEGACY_EPIC, OTHER]

  function MacroValue(m: MacroFormat): string {
    match m
    case V2_5 => "2.5"
    case V2_0 => "2.0"
    case MOTHER => "other"
  }

  function MacroLabel(m: MacroFormat): string {
    match m
    case V2_5 => "2.5"
    case V2_0 => "2.0"
    case MOTHER => "Unknown/Other"
  }

  function FormatValue(f: Format): string {
    match f
    case AMG => "amg"
    case XWA => "xwa"
    case XWA_EPIC => "xwa_epic"
    case FFG => "ffg"
    case LEGACY_X2PO => "legacy_x2po"
    case LEGACY_XLC => "legacy_xlc"
    case WILDSPACE => "wildspace"
    case LEGACY_EPIC => "legacy_epic"
    case OTHER => "other"
  }

  function FormatLabel(f: Format): string {
    match f
    case AMG => "AMG"
    case XWA => "XWA"
    case XWA_EPIC => "XWA Epic"
    case LEGACY_X2PO => "Legacy (X2PO)"
    case LEGACY_XLC => "Legacy (XLC)"
    case FFG => "FFG"
    case WILDSPACE => "Wildspace"
    case LEGACY_EPIC => "Legacy Epic"
    case OTHER => "Other"
  }

  /** `MacroFormat.formats()`: the formats grouped under a macro format. */
  function Formats(m: MacroFormat): seq<Format> {
    match m
    case V2_5 => [AMG, XWA, XWA_EPIC]
    case V2_0 => [LEGACY_X2PO, LEGACY_XLC, FFG, WILDSPACE, LEGACY_EPIC]
    case MOTHER => [OTHER]
  }

  /** `Format.macro`: the one macro format whose `formats()` list holds the format. */
  function Macro(f: Format): (m: MacroFormat)
    ensures f in Formats(m)
    ensures forall m' :: f in Formats(m') ==> m' == m
  {
    match f
    case AMG | XWA | XWA_EPIC => V2_5
    case LEGACY_X2PO | LEGACY_XLC | FFG | WILDSPACE | LEGACY_EPIC => V2_0
    case OTHER => MOTHER
  }

  /** The three `formats()` lists are pairwise disjoint and together hold every format. */
  lemma FormatsPartition()
    ensures forall f :: f in AllFormats
    ensures forall f, m :: f in Formats(m) <==> Macro(f) == m
    ensures forall m1, m2, f :: f in Formats(m1) && f in Formats(m2) ==> m1 == m2
  {
    forall f ensures f in AllFormats {
      match f
      case AMG => case XWA => case XWA_EPIC => case FFG => case LEGACY_X2PO =>
      case LEGACY_XLC => case WILDSPACE => case LEGACY_EPIC => case OTHER =>
    }
  }

  /** Values identify formats and macro formats, except that `MacroFormat.OTHER` and
      `Format.OTHER` share the value "other", so one selection key stands for both. */
  lemma ValuesInjective()
    ensures forall f, g :: FormatValue(f) == FormatValue(g) ==> f == g
    ensures forall m, n :: MacroValue(m) == MacroValue(n) ==> m == n
    ensures forall m, f :: MacroValue(m) == FormatValue(f) <==> m == MOTHER && f == OTHER
  {
  }

  /** No two formats, and no two macro formats, share a label. */
  lemma LabelsInjective()
    ensures forall f, g :: FormatLabel(f) == FormatLabel(g) ==> f == g
    ensures forall m, n :: MacroLabel(m) == MacroLabel(n) ==> m == n
  {
  }

  /** `Format(s)`: the format whose value is `s`; Python raises `ValueError` (None) otherwise. */
  function FormatFromValue(s: string): (r: Option<Format>)
    ensures r.Some? ==> FormatValue(r.value) == s
    ensures r.None? ==> forall f :: FormatValue(f) != s
  {
    if s == "amg" then Some(AMG)
    else if s == "xwa" then Some(XWA)
    else if s == "xwa_epic" then Some(XWA_EPIC)
    else if s == "ffg" then Some(FFG)
    else if s == "legacy_x2po" then Some(LEGACY_X2PO)
    else if s == "legacy_xlc" then Some(LEGACY_XLC)
    else if s == "wildspace" then Some(WILDSPACE)
    else if s == "legacy_epic" then Some(LEGACY_EPIC)
    else if s == "other" then Some(OTHER)
    else None
  }

  /** `MacroFormat(s)`: the macro format whose value is `s`, or None (`ValueError`). */
  function MacroFromValue(s: string): (r: Option<MacroFormat>)
    ensures r.Some? ==> MacroValue(r.value) == s
    ensures r.None? ==> forall m :: MacroValue(m) != s
  {
    if s == "2.5" then Some(V2_5)
    else if s == "2.0" then Some(V2_0)
    else if s == "other" then Some(MOTHER)
    else None
  }

  /** Every macro value and every format value: the keys of a full format selection. */
  function AllValues(): set<string> {
    (set m | m in AllMacros :: MacroValue(m)) + (set f | f in AllFormats :: FormatValue(f))
  }

  /** `[f.value for f in m.formats()]` */
  function FormatValues(m: MacroFormat): (r: seq<string>)
    ensures |r| == |Formats(m)| && forall i :: 0 <= i < |r| ==> r[i] == FormatValue(Formats(m)[i])
  {
    seq(|Formats(m)|, i requires 0 <= i < |Formats(m)| => FormatValue(Formats(m)[i]))
  }

  /** A format's value is among the values of `m` exactly when the format belongs to `m`;
      all such values are format values. */
  lemma FormatValuesSpec(m: MacroFormat)
    ensures forall f :: FormatValue(f) in FormatValues(m) <==> Macro(f) == m
    ensures forall v :: v in FormatValues(m) ==> exists f :: FormatValue(f) == v && Macro(f) == m
  {
    forall f ensures FormatValue(f) in FormatValues(m) <==> Macro(f) == m {
      ValueAt(m, f);
    }
    forall v | v in FormatValues(m) ensures exists f :: FormatValue(f) == v && Macro(f) == m {
      var i :| 0 <= i < |FormatValues(m)| && FormatValues(m)[i] == v;
      assert FormatValue(Formats(m)[i]) == v;
    }
  }

  /** A format's value is listed for `m` exactly when the format is. */
  lemma ValueAt(m: MacroFormat, f: Format)
    ensures FormatValue(f) in FormatValues(m) <==> f in Formats(m)
  {
    if FormatValue(f) in FormatValues(m) {
      var i :| 0 <= i < |FormatValues(m)| && FormatValues(m)[i] == FormatValue(f);
      ValuesInjective();
      assert Formats(m)[i] == f;
    }
    if f in Formats(m) {
      var i :| 0 <= i < |Formats(m)| && Formats(m)[i] == f;
      assert FormatValues(m)[i] == FormatValue(f);
    }
  }

  /** The children a selection toggle visits for the key `v`: the values of the macro
      format named `v`, or none when `MacroFormat(v)` raises `ValueError`. */
  function Members(v: string): (r: seq<string>)
    ensures MacroFromValue(v).None? ==> r == []
  {
    match MacroFromValue(v)
    case Some(m) => FormatValues(m)
    case None => []
  }

  // ---------------------------------------------------------------------------------
  // infer_format_from_xws
  //
  // Python raises AttributeError when `.get`, `.upper()` or `.lower()` meets a value of
  // the wrong type (for example a `None` vendor or a numeric ruleset). The model returns
  // None in exactly those cases.
  // ---------------------------------------------------------------------------------

  function UpperOf(v: Json): Option<string> {
    if v.JStr? then Some(Upper(v.s)) else None
  }

  function LowerOf(v: Json): Option<string> {
    if v.JStr? then Some(Lower(v.s)) else None
  }

  predicate IsEpic(f: Format) {
    f == XWA_EPIC || f == LEGACY_EPIC
  }

  /** The upper-cased `format` field of a dict, when it is a string. */
  function FormatField(xws: Json): Option<string> {
    UpperOf(GetOr(xws, "format", JStr("")))
  }

  /** The upper-cased `ruleset` field of a dict, when it is a string. */
  function RulesetField(xws: Json): Option<string> {
    UpperOf(GetOr(xws, "ruleset", JStr("")))
  }

  /** The `ruleset` fallback of the EPIC branch. */
  function EpicByRuleset(xws: Json): (r: Option<Format>)
    ensures r.Some? ==> IsEpic(r.value)
    ensures r == Some(XWA_EPIC) <==> RulesetField(xws) == Some("XWA")
  {
    match RulesetField(xws)
    case None => None
    case Some(rs) =>
      if rs == "LEGACY" || rs == "X2PO" then Some(LEGACY_EPIC)
      else if rs == "XWA" then Some(XWA_EPIC)
      else Some(LEGACY_EPIC)
  }

  /** The EPIC branch: a YASB builder naming yasb.app or a legacy host decides, then the
      ruleset, and LEGACY_EPIC is the default. */
  function InferEpic(xws: Json): (r: Option<Format>)
    ensures r.Some? ==> IsEpic(r.value)
  {
    var vendor := GetOr(xws, "vendor", JObj([]));
    if !vendor.JObj? then None
    else
      var yasb := GetOr(vendor, "yasb", JObj([]));
      if !Truthy(yasb) then EpicByRuleset(xws)
      else if !yasb.JObj? then None
      else
        match (LowerOf(GetOr(yasb, "builder", JStr(""))), LowerOf(GetOr(yasb, "builder_url", JStr(""))))
        case (Some(b), Some(u)) =>
          var combined := b + " " + u;
          if Contains(combined, "yasb.app") then Some(XWA_EPIC)
          else if Contains(combined, "legacy") || Contains(combined, "xwing-legacy") then Some(LEGACY_EPIC)
          else EpicByRuleset(xws)
        case _ => None
  }

  /** The text the non-EPIC branch searches in a YASB vendor block. */
  function YasbText(yasb: Json): string {
    Lower(Str(GetOr(yasb, "builder", JStr(""))) + " " + Str(GetOr(yasb, "link", JStr("")))
          + " " + Str(GetOr(yasb, "builder_url", JStr(""))))
  }

  /** The text the non-EPIC branch searches in a Launch Bay Next vendor block. */
  function LbnText(lbn: Json): string {
    Lower(Str(GetOr(lbn, "builder", JStr("Launch Bay Next"))) + " " + Str(GetOr(lbn, "link", JStr(""))))
  }

  /** The YASB verdict: None when no keyword is present. */
  function YasbFormat(text: string): (r: Option<Format>)
    ensures r.Some? ==> r.value in [LEGACY_X2PO, LEGACY_XLC, FFG, XWA]
    ensures r == Some(LEGACY_X2PO) <==> Contains(text, "xwing-legacy.com") || Contains(text, "yasb-legacy")
    ensures r == Some(LEGACY_XLC) <==>
      !Contains(text, "xwing-legacy.com") && !Contains(text, "yasb-legacy") && Contains(text, "lorenzosanti")
    ensures r.None? <==>
      !Contains(text, "xwing-legacy.com") && !Contains(text, "yasb-legacy") && !Contains(text, "lorenzosanti")
      && !Contains(text, "raithos") && !Contains(text, "yasb.app")
  {
    if Contains(text, "xwing-legacy.com") || Contains(text, "yasb-legacy") then Some(LEGACY_X2PO)
    else if Contains(text, "lorenzosanti") then Some(LEGACY_XLC)
    else if Contains(text, "raithos") then Some(FFG)
    else if Contains(text, "yasb.app") then Some(XWA)
    else None
  }

  /** The non-EPIC vendor fallback: YASB keywords, then Launch Bay Next, then OTHER. */
  function InferFromVendor(xws: Json): (r: Option<Format>)
    ensures r.Some? ==> !IsEpic(r.value) && r.value != WILDSPACE && r.value != AMG
  {
    var vendor := GetOr(xws, "vendor", JObj([]));
    if !vendor.JObj? then None
    else
      var yasb := GetOr(vendor, "yasb", JObj([]));
      if Truthy(yasb) && !yasb.JObj? then None
      else if Truthy(yasb) && YasbFormat(YasbText(yasb)).Some? then YasbFormat(YasbText(yasb))
      else
        var lbn := GetOr(vendor, "lbn", JObj([]));
        if !Truthy(lbn) then Some(OTHER)
        else if !lbn.JObj? then None
        else if Contains(LbnText(lbn), "legacy") then Some(LEGACY_X2PO)
        else Some(XWA)
  }

  /** `infer_format_from_xws` (formats.py). */
  function InferFormat(xws: Json): (r: Option<Format>)
    // An empty export is OTHER.
    ensures !Truthy(xws) ==> r == Some(OTHER)
    // A format field reading EPIC in any case gives one of the two epic formats.
    ensures Truthy(xws) && FormatField(xws) == Some("EPIC") && r.Some? ==> IsEpic(r.value)
    // Any other export never gives an epic or a wildspace format.
    ensures Truthy(xws) && FormatField(xws) != Some("EPIC") && r.Some? ==>
      !IsEpic(r.value) && r.value != WILDSPACE
    // Outside EPIC the ruleset decides before any vendor data is read.
    ensures xws.JObj? && Truthy(xws) && FormatField(xws).Some? && FormatField(xws) != Some("EPIC") ==>
      (RulesetField(xws) == Some("XWA") ==> r == Some(XWA)) &&
      (RulesetField(xws) == Some("AMG") ==> r == Some(AMG)) &&
      (RulesetField(xws) == Some("LEGACY") || RulesetField(xws) == Some("X2PO") ==> r == Some(LEGACY_X2PO))
  {
    if !Truthy(xws) then Some(OTHER)
    else if !xws.JObj? then None
    else
      match FormatField(xws)
      case None => None
      case Some(fmt) =>
        if fmt == "EPIC" then InferEpic(xws)
        else
          match RulesetField(xws)
          case None => None
          case Some(rs) =>
            if rs == "XWA" then Some(XWA)
            else if rs == "AMG" then Some(AMG)
            else if rs == "LEGACY" || rs == "X2PO" then Some(LEGACY_X2PO)
            else InferFromVendor(xws)
  }

  /** With no yasb block in an EPIC export, the ruleset alone decides and LEGACY_EPIC is
      the default: XWA_EPIC comes only from the ruleset XWA. */
  lemma EpicDefault(xws: Json)
    requires xws.JObj? && Truthy(xws) && FormatField(xws) == Some("EPIC")
    requires GetOr(xws, "vendor", JObj([])) == JObj([])
    ensures RulesetField(xws).Some? && RulesetField(xws) != Some("XWA") ==> InferFormat(xws) == Some(LEGACY_EPIC)
    ensures RulesetField(xws) == Some("XWA") ==> InferFormat(xws) == Some(XWA_EPIC)
  {
  }

  /** Outside EPIC, with no ruleset match and a YASB block, the keyword precedence is
      legacy hosts, lorenzosanti, raithos, yasb.app. */
  lemma YasbPrecedence(xws: Json)
    requires xws.JObj? && Truthy(xws) && FormatField(xws).Some? && FormatField(xws) != Some("EPIC")
    requires RulesetField(xws).Some?
    requires RulesetField(xws).value !in ["XWA", "AMG", "LEGACY", "X2PO"]
    requires GetOr(xws, "vendor", JObj([])).JObj?
    requires var y := GetOr(GetOr(xws, "vendor", JObj([])), "yasb", JObj([])); y.JObj? && Truthy(y)
    ensures var t := YasbText(GetOr(GetOr(xws, "vendor", JObj([])), "yasb", JObj([])));
      (Contains(t, "xwing-legacy.com") || Contains(t, "yasb-legacy") ==> InferFormat(xws) == Some(LEGACY_X2PO)) &&
      (YasbFormat(t).Some? ==> InferFormat(xws) == YasbFormat(t))
  {
    FallsToVendor(xws);
  }

  /** Outside EPIC, with no ruleset match and no YASB block, a Launch Bay Next block gives
      LEGACY_X2PO exactly when its builder or link mentions "legacy", and XWA otherwise. */
  lemma LbnRule(xws: Json)
    requires xws.JObj? && Truthy(xws) && FormatField(xws).Some? && FormatField(xws) != Some("EPIC")
    requires RulesetField(xws).Some?
    requires RulesetField(xws).value !in ["XWA", "AMG", "LEGACY", "X2PO"]
    requires var v := GetOr(xws, "vendor", JObj([])); v.JObj? && !Truthy(GetOr(v, "yasb", JObj([])))
    requires var l := GetOr(GetOr(xws, "vendor", JObj([])), "lbn", JObj([])); l.JObj? && Truthy(l)
    ensures var l := GetOr(GetOr(xws, "vendor", JObj([])), "lbn", JObj([]));
      InferFormat(xws) == (if Contains(LbnText(l), "legacy") then Some(LEGACY_X2PO) else Some(XWA))
  {
    FallsToVendor(xws);
  }

  /** Outside EPIC, a ruleset that is text but none of the four names leaves the verdict
      to the vendor data. */
  lemma FallsToVendor(xws: Json)
    requires xws.JObj? && Truthy(xws) && FormatField(xws).Some? && FormatField(xws) != Some("EPIC")
    requires RulesetField(xws).Some?
    requires RulesetField(xws).value !in ["XWA", "AMG", "LEGACY", "X2PO"]
    ensures InferFormat(xws) == InferFromVendor(xws)
  {
    var rs := RulesetField(xws).value;
    assert rs != "XWA" && rs != "AMG" && rs != "LEGACY" && rs != "X2PO";
  }
}
