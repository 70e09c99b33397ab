/** The older format inference over an XWS export (`inference.py`): the top-level ruleset
    first, then YASB vendor keywords, then Launch Bay Next. It has no EPIC branch and
    never reads the `format` field. Where Python raises (a `.get` on a value that is not
    a dict, `.lower()` on a value that is not text) the result is None. */
module Inference {
  import opened Wrappers
  import opened Strings
  import opened Json
  import opened Formats

  /** The formats this inference can name. */
  const Named: seq<Format> := [XWA, AMG, LEGACY_X2PO, LEGACY_XLC, FFG, OTHER]

  /** The text searched in a YASB block: builder, link and builder URL, each lowercased,
      joined by spaces; None when one of them is not text. */
  function YasbCombined(yasb: Json): Option<string> {
    match (LowerOf(GetOr(yasb, "builder", JStr(""))), LowerOf(GetOr(yasb, "link", JStr(""))),
           LowerOf(GetOr(yasb, "builder_url", JStr(""))))
    case (Some(b), Some(l), Some(u)) => Some(b + " " + l + " " + u)
    case _ => None
  }

  /** The Launch Bay Next verdict: LEGACY_X2PO when the builder (default "Launch Bay
      Next") or the link mentions "legacy", else XWA. */
  function LbnVerdict(lbn: Json): (r: Option<Format>)
    ensures r.Some? ==> r.value == LEGACY_X2PO || r.value == XWA
  {
    match (LowerOf(GetOr(lbn, "builder", JStr("Launch Bay Next"))), LowerOf(GetOr(lbn, "link", JStr(""))))
    case (Some(b), Some(l)) =>
      if Contains(b, "legacy") || Contains(l, "legacy") then Some(LEGACY_X2PO) else Some(XWA)
    case _ => None
  }

  /** The vendor part: a truthy YASB block whose text names a known host decides;
      otherwise a truthy Launch Bay Next block decides; otherwise OTHER. */
  function FromVendor(xws: Json): (r: Option<Format>)
    ensures r.Some? ==> r.value in Named
  {
    var vendor := GetOr(xws, "vendor", JObj([]));
    if !vendor.JObj? then None
    else
      var yasb := GetOr(vendor, "yasb", JObj([]));
      if Truthy(yasb) && !yasb.JObj? then None
      else if Truthy(yasb) && YasbCombined(yasb).None? then None
      else if Truthy(yasb) && YasbFormat(YasbCombined(yasb).value).Some? then YasbFormat(YasbCombined(yasb).value)
      else
        var lbn := GetOr(vendor, "lbn", JObj([]));
        if !Truthy(lbn) then Some(OTHER)
        else if !lbn.JObj? then None
        else LbnVerdict(lbn)
  }

  /** `infer_format_from_xws` of `inference.py`. */
  function InferFormat(xws: Json): (r: Option<Format>)
    // An empty export is OTHER.
    ensures !Truthy(xws) ==> r == Some(OTHER)
    // Only the six non-epic formats come out.
    ensures r.Some? ==> r.value in Named
    // The ruleset, in any case, decides before any vendor data is read.
    ensures xws.JObj? && Truthy(xws) ==>
      (RulesetField(xws) == Some("XWA") ==> r == Some(XWA)) &&
      (RulesetField(xws) == Some("AMG") ==> r == Some(AMG)) &&
      (RulesetField(xws) == Some("LEGACY") || RulesetField(xws) == Some("X2PO") ==> r == Some(LEGACY_X2PO))
  {
    if !Truthy(xws) then Some(OTHER)
    else if !xws.JObj? then None
    else
      match RulesetField(xws)
      case None => None
      case Some(rs) =>
        if rs == "XWA" then Some(XWA)
        else if rs == "AMG" then Some(AMG)
        else if rs == "LEGACY" || rs == "X2PO" then Some(LEGACY_X2PO)
        else FromVendor(xws)
  }

  /** A dict export whose ruleset is text but none of XWA, AMG, LEGACY, X2PO: the vendor
      data decides. */
  predicate VendorDecides(xws: Json) {
    xws.JObj? && Truthy(xws) && RulesetField(xws).Some? &&
    RulesetField(xws).value !in ["XWA", "AMG", "LEGACY", "X2PO"]
  }

  /** A ruleset that decides nothing leaves the verdict to the vendor data. */
  lemma VendorFallback(xws: Json)
    requires VendorDecides(xws)
    ensures InferFormat(xws) == FromVendor(xws)
  {
    var rs := RulesetField(xws).value;
    assert rs != "XWA" && rs != "AMG" && rs != "LEGACY" && rs != "X2PO";
  }

  /** YASB precedence: legacy hosts give LEGACY_X2PO, then lorenzosanti LEGACY_XLC, then
      raithos FFG, then yasb.app XWA. */
  lemma YasbPrecedence(xws: Json)
    requires VendorDecides(xws) && GetOr(xws, "vendor", JObj([])).JObj?
    requires var y := GetOr(GetOr(xws, "vendor", JObj([])), "yasb", JObj([]));
      y.JObj? && Truthy(y) && YasbCombined(y).Some?
    ensures var t := YasbCombined(GetOr(GetOr(xws, "vendor", JObj([])), "yasb", JObj([]))).value;
      (Contains(t, "xwing-legacy.com") || Contains(t, "yasb-legacy") ==> InferFormat(xws) == Some(LEGACY_X2PO)) &&
      (!Contains(t, "xwing-legacy.com") && !Contains(t, "yasb-legacy") && Contains(t, "lorenzosanti") ==>
        InferFormat(xws) == Some(LEGACY_XLC)) &&
      (YasbFormat(t).None? ==> InferFormat(xws) != Some(LEGACY_XLC) && InferFormat(xws) != Some(FFG))
  {
    VendorFallback(xws);
  }

  /** With no YASB block, a Launch Bay Next block gives LEGACY_X2PO exactly when its
      builder or link mentions "legacy", else XWA; with neither block the result is
      OTHER. */
  lemma LbnRule(xws: Json)
    requires VendorDecides(xws)
    requires var v := GetOr(xws, "vendor", JObj([])); v.JObj? && !Truthy(GetOr(v, "yasb", JObj([])))
    ensures var l := GetOr(GetOr(xws, "vendor", JObj([])), "lbn", JObj([]));
      (!Truthy(l) ==> InferFormat(xws) == Some(OTHER)) &&
      (l.JObj? && Truthy(l) ==> InferFormat(xws) == LbnVerdict(l)) &&
      (l.JObj? && !Has(l, "builder") && !Has(l, "link") ==> InferFormat(xws) != Some(LEGACY_X2PO))
  {
    VendorFallback(xws);
    DefaultNotLegacy();
  }

  /** The default builder "Launch Bay Next" and the default empty link do not mention
      "legacy". */
  lemma DefaultNotLegacy()
    ensures !Contains(Lower("Launch Bay Next"), "legacy") && !Contains(Lower(""), "legacy")
  {
    LowerAbsent("Launch Bay Next", 'g');
    AbsentChar(Lower("Launch Bay Next"), "legacy", 2);
    AbsentChar(Lower(""), "legacy", 0);
  }

  /** Where this inference reads the export without raising and the export's `format`
      field is text other than EPIC, the inference of `formats.py` gives the same
      format. */
  lemma AgreesWithFormats(xws: Json)
    requires InferFormat(xws).Some?
    requires FormatField(xws).Some? && FormatField(xws) != Some("EPIC")
    ensures Formats.InferFormat(xws) == InferFormat(xws)
  {
    if VendorDecides(xws) {
      VendorAgrees(xws);
    }
  }

  lemma VendorAgrees(xws: Json)
    requires FromVendor(xws).Some?
    ensures InferFromVendor(xws) == FromVendor(xws)
  {
    var vendor := GetOr(xws, "vendor", JObj([]));
    var yasb := GetOr(vendor, "yasb", JObj([]));
    if Truthy(yasb) {
      YasbAgrees(yasb);
    }
    var lbn := GetOr(vendor, "lbn", JObj([]));
    if lbn.JObj? && Truthy(lbn) && LbnVerdict(lbn).Some? {
      LbnAgrees(lbn);
    }
  }

  /** Lowering the parts one by one and lowering the joined text agree. */
  lemma YasbAgrees(yasb: Json)
    requires YasbCombined(yasb).Some?
    ensures YasbText(yasb) == YasbCombined(yasb).value
  {
    var b, l, u := YasbParts(yasb);
    LowerSpaced(b, l, u);
  }

  /** The builder, link and builder URL texts behind both. */
  lemma YasbParts(yasb: Json) returns (b: string, l: string, u: string)
    requires YasbCombined(yasb).Some?
    ensures YasbText(yasb) == Lower(b + " " + l + " " + u)
    ensures YasbCombined(yasb).value == Lower(b) + " " + Lower(l) + " " + Lower(u)
  {
    var bj, lj, uj := GetOr(yasb, "builder", JStr("")), GetOr(yasb, "link", JStr("")),
      GetOr(yasb, "builder_url", JStr(""));
    assert bj.JStr? && lj.JStr? && uj.JStr?;
    b, l, u := bj.s, lj.s, uj.s;
  }

  /** Lowering three texts joined by spaces lowers each of them. */
  lemma LowerSpaced(b: string, l: string, u: string)
    ensures Lower(b + " " + l + " " + u) == Lower(b) + " " + Lower(l) + " " + Lower(u)
  {
    LowerAppend(b + " " + l, " " + u);
    LowerAppend(b, " " + l);
    LowerAppend(" ", l);
    LowerAppend(" ", u);
    assert Lower(" ") == " ";
    assert b + " " + l + " " + u == (b + " " + l) + (" " + u);
    assert b + " " + l == b + (" " + l);
  }

  /** Searching builder and link apart and searching their joined text agree, since
      "legacy" holds no space. */
  lemma LbnAgrees(lbn: Json)
    requires LbnVerdict(lbn).Some?
    ensures (if Contains(LbnText(lbn), "legacy") then LEGACY_X2PO else XWA) == LbnVerdict(lbn).value
  {
    var b, l := LbnParts(lbn);
    LegacyAcrossSpace(b, l);
  }

  /** The builder and link texts behind both searches. */
  lemma LbnParts(lbn: Json) returns (b: string, l: string)
    requires LbnVerdict(lbn).Some?
    ensures LbnText(lbn) == Lower(b + " " + l)
    ensures LbnVerdict(lbn).value ==
      if Contains(Lower(b), "legacy") || Contains(Lower(l), "legacy") then LEGACY_X2PO else XWA
  {
    var bj, lj := GetOr(lbn, "builder", JStr("Launch Bay Next")), GetOr(lbn, "link", JStr(""));
    assert bj.JStr? && lj.JStr?;
    b, l := bj.s, lj.s;
    assert Str(bj) == b && Str(lj) == l;
    assert LowerOf(bj) == Some(Lower(b)) && LowerOf(lj) == Some(Lower(l));
  }

  lemma LegacyAcrossSpace(b: string, l: string)
    ensures Contains(Lower(b + " " + l), "legacy") <==> Contains(Lower(b), "legacy") || Contains(Lower(l), "legacy")
  {
    LowerAppend(b, " " + l);
    LowerAppend(" ", l);
    assert Lower(" ") == " ";
    assert b + " " + l == b + (" " + l);
    assert Lower(b + " " + l) == Lower(b) + " " + Lower(l);
    ContainsAcrossSpace(Lower(b), Lower(l), "legacy");
  }

  /** The worked examples of the inference test script that the ruleset or Launch Bay
      Next decides. */
  lemma ExampleXwaStandard()
    ensures InferFormat(JObj([("vendor", JObj([("yasb", JObj([("builder", JStr("YASB - X-Wing 2.5 XWA")),
      ("builder_url", JStr("https://yasb.app/")), ("link", JStr("https://yasb.app/?f=..."))]))])),
      ("version", JStr("50P-1.1")), ("ruleset", JStr("XWA"))])) == Some(XWA)
  {
    assert Upper("XWA") == "XWA";
  }

  lemma ExampleLbnLegacy(xws: Json)
    requires xws == JObj([("name", JStr("New Squadron")), ("faction", JStr("rebelalliance")),
      ("ruleset", JStr("legacy")), ("points", JInt(77)), ("version", JStr("2.2.2")),
      ("vendor", JObj([("lbn", JObj([("builder", JStr("Launch Bay Next"))]))]))])
    ensures InferFormat(xws) == Some(LEGACY_X2PO)
  {
    assert GetOr(xws, "ruleset", JStr("")) == JStr("legacy");
    assert RulesetField(xws) == Some("LEGACY") by {
      assert Upper("legacy") == "LEGACY";
    }
  }

  lemma ExampleLbnXwa(xws: Json)
    requires xws == JObj([("name", JStr("New Squadron")), ("faction", JStr("rebelalliance")),
      ("ruleset", JStr("xwa")), ("points", JInt(22)), ("version", JStr("2.2.3")),
      ("vendor", JObj([("lbn", JObj([("builder", JStr("Launch Bay Next"))]))]))])
    ensures InferFormat(xws) == Some(XWA)
  {
    assert GetOr(xws, "ruleset", JStr("")) == JStr("xwa");
    assert RulesetField(xws) == Some("XWA") by {
      assert Upper("xwa") == "XWA";
    }
  }

  lemma ExampleLbnAmg(xws: Json)
    requires xws == JObj([("name", JStr("New Squadron")), ("faction", JStr("rebelalliance")),
      ("ruleset", JStr("amg")), ("points", JInt(17)), ("version", JStr("2.4.4")),
      ("vendor", JObj([("lbn", JObj([("builder", JStr("Launch Bay Next"))]))]))])
    ensures InferFormat(xws) == Some(AMG)
  {
    assert GetOr(xws, "ruleset", JStr("")) == JStr("amg");
    assert RulesetField(xws) == Some("AMG") by {
      assert Upper("amg") == "AMG";
    }
  }

  /** The Launch Bay Next block of the "standard" example, whose link is absent. */
  lemma StandardLbnVerdict()
    ensures LbnVerdict(JObj([("builder", JStr("Launch Bay Next"))])) == Some(XWA)
  {
    var lbn := JObj([("builder", JStr("Launch Bay Next"))]);
    assert GetOr(lbn, "builder", JStr("Launch Bay Next")) == JStr("Launch Bay Next");
    assert GetOr(lbn, "link", JStr("")) == JStr("");
    DefaultNotLegacy();
  }

  lemma ExampleLbnStandard(xws: Json)
    requires xws == JObj([("vendor", JObj([("lbn", JObj([("builder", JStr("Launch Bay Next"))]))]))])
    ensures InferFormat(xws) == Some(XWA)
  {
    var lbn := JObj([("builder", JStr("Launch Bay Next"))]);
    assert GetOr(xws, "ruleset", JStr("")) == JStr("");
    assert RulesetField(xws) == Some("") by { assert Upper("") == ""; }
    assert VendorDecides(xws);
    assert GetOr(xws, "vendor", JObj([])) == JObj([("lbn", lbn)]);
    StandardLbnVerdict();
    LbnOnly(xws, lbn);
  }

  /** A vendor block holding only a Launch Bay Next block hands the verdict to it. */
  lemma LbnOnly(xws: Json, lbn: Json)
    requires VendorDecides(xws)
    requires GetOr(xws, "vendor", JObj([])) == JObj([("lbn", lbn)])
    requires lbn.JObj? && Truthy(lbn)
    ensures InferFormat(xws) == LbnVerdict(lbn)
  {
    VendorFallback(xws);
    var vendor := JObj([("lbn", lbn)]);
    assert GetOr(vendor, "yasb", JObj([])) == JObj([]);
    assert GetOr(vendor, "lbn", JObj([])) == lbn;
  }
}
