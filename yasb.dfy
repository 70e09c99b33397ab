/** Links to the YASB squad builders (`backend/utils/yasb.py`): the builder that serves a
    tournament format, and the link to a squad in it, taken from the squad's XWS vendor
    data. */
module Yasb {
  import opened Wrappers
  import opened Strings
  import opened Json
  import opened Formats

  const YasbApp := "https://yasb.app"
  const Lorenzo := "https://lorenzosanti359-beep.github.io/X-wing-builder-madness"
  const XwingLegacy := "https://xwing-legacy.com"

  /** The format argument: a `Format` member or a text. */
  datatype FormatArg = Member(f: Format) | Text(s: string)

  /** `get_yasb_base_url`: a text is lowercased; a member is a `StrEnum`, so it is a
      string too, and compares equal to its value. */
  function BaseUrl(fmt: FormatArg): (r: string)
    ensures r in {YasbApp, Lorenzo, XwingLegacy}
  {
    var v := match fmt
      case Member(f) => Lower(FormatValue(f))
      case Text(s) => Lower(s);
    if v in {"xwa", "amg", "xwa_epic"} then YasbApp
    else if v == "legacy_xlc" then Lorenzo
    else XwingLegacy
  }

  /** Format values are already lowercase. */
  lemma ValueLower(f: Format)
    ensures Lower(FormatValue(f)) == FormatValue(f)
  {
    var v := FormatValue(f);
    assert forall i :: 0 <= i < |v| ==> !('A' <= v[i] <= 'Z');
    assert forall i :: 0 <= i < |v| ==> Lower(v)[i] == v[i];
  }

  /** The 2.5 formats use yasb.app, Legacy (XLC) the lorenzosanti builder and every other
      format xwing-legacy.com. */
  lemma BaseUrlOfFormat(f: Format)
    ensures BaseUrl(Member(f)) == YasbApp <==> Macro(f) == V2_5
    ensures BaseUrl(Member(f)) == Lorenzo <==> f == LEGACY_XLC
  {
    ValueLower(f);
  }

  /** A text in any case names the same builder as the format whose value it spells. */
  lemma BaseUrlOfText(s: string, f: Format)
    requires Lower(s) == FormatValue(f)
    ensures BaseUrl(Text(s)) == BaseUrl(Member(f))
  {
    LowerIdempotent(s);
  }

  /** The first `d=` followed by a character other than `&`, with the run of such
      characters after it: `re.search(r'd=([^&]+)', s).group(1)`. */
  function DParam(s: string): (r: Option<string>)
    ensures r.Some? ==> |r.value| > 0 && NoChar(r.value, '&') && Contains(s, "d=" + r.value)
    decreases |s|
  {
    if |s| > 2 && s[..2] == "d=" && s[2] != '&' then
      var v := Run(s[2..]);
      assert StartsWith(s, "d=" + v) by {
        assert s[..|"d=" + v|] == s[..2] + s[2..][..|v|];
      }
      Some(v)
    else if |s| == 0 then None
    else DParam(s[1..])
  }

  /** The characters before the first `&`. */
  function Run(s: string): (r: string)
    ensures |r| <= |s| && r == s[..|r|] && NoChar(r, '&')
    ensures |s| > 0 && s[0] != '&' ==> |r| > 0
    ensures |r| == |s| || s[|r|] == '&'
    decreases |s|
  {
    if |s| == 0 || s[0] == '&' then "" else [s[0]] + Run(s[1..])
  }

  /** A `d` parameter is found only in a text holding "d=". */
  lemma DParamNeedsMarker(s: string)
    ensures DParam(s).Some? ==> Contains(s, "d=")
  {
    if DParam(s).Some? {
      var i := ContainsIndex(s, "d=" + DParam(s).value);
      assert s[i..i + 2] == s[i..i + 2 + |DParam(s).value|][..2];
      ContainsAt(s, "d=", i);
    }
  }

  /** What a vendor field of the wrong kind makes the code do (an `AttributeError`, or an
      operation on a non-string value) is not modelled further. */
  const NotDict := "AttributeError"
  const NotText := "non-string vendor field"

  /** `urlencode(params, quote_via=quote)` of `f`, then `sn` when the name is truthy, then
      `d`; `quote` percent-encodes a value. */
  function Query(faction: Json, name: Json, d: string, quote: string -> string): string {
    "f=" + quote(Str(faction)) + (if Truthy(name) then "&sn=" + quote(Str(name)) else "") + "&d=" + quote(d)
  }

  /** `xws_to_yasb_url` */
  function XwsToYasbUrl(xws: Json, fmt: FormatArg, quote: string -> string): (r: Result<string>)
    ensures !xws.JObj? ==> r == Ok("")
  {
    if !Truthy(xws) || !xws.JObj? then Ok("")
    else
      var base := BaseUrl(fmt);
      var faction := GetOr(xws, "faction", JStr(""));
      if !Truthy(faction) then Ok("")
      else
        var vendor := GetOr(xws, "vendor", JObj([]));
        if !vendor.JObj? then Err(NotDict)
        else
          var yv := GetOr(vendor, "yasb", JObj([]));
          if !yv.JObj? then Err(NotDict)
          else
            var link := GetOr(yv, "link", JStr(""));
            var data := GetOr(yv, "builder_url", JStr(""));
            if Truthy(link) && !link.JStr? then Err(NotText)
            else if Truthy(link) && Contains(link.s, base) then Ok(link.s)
            else if Truthy(data) && !data.JStr? then Err(NotText)
            else
              var d := if Truthy(data) && Contains(data.s, "d=") then DParam(data.s) else None;
              if d.None? then (if Truthy(link) then Ok(link.s) else Ok(""))
              else Ok(base + "?" + Query(faction, GetOr(xws, "name", JStr("")), d.value, quote))
  }

  /** XWS data given as dicts down to the YASB vendor entry. */
  predicate VendorShaped(xws: Json) {
    xws.JObj? && GetOr(xws, "vendor", JObj([])).JObj? &&
    GetOr(GetOr(xws, "vendor", JObj([])), "yasb", JObj([])).JObj?
  }

  function YasbVendor(xws: Json): Json {
    GetOr(GetOr(xws, "vendor", JObj([])), "yasb", JObj([]))
  }

  /** Data that is not a dict, or has no truthy faction, gives no link. */
  lemma NoSquadNoLink(xws: Json, fmt: FormatArg, quote: string -> string)
    requires !xws.JObj? || !Truthy(GetOr(xws, "faction", JStr("")))
    ensures XwsToYasbUrl(xws, fmt, quote) == Ok("")
  {
  }

  /** A stored link that is already on the format's builder is returned unchanged. */
  lemma ExistingLinkKept(xws: Json, fmt: FormatArg, quote: string -> string, link: string)
    requires VendorShaped(xws) && Truthy(GetOr(xws, "faction", JStr("")))
    requires GetOr(YasbVendor(xws), "link", JStr("")) == JStr(link) && Contains(link, BaseUrl(fmt))
    ensures XwsToYasbUrl(xws, fmt, quote) == Ok(link)
  {
    ContainsEmptyFree(link, BaseUrl(fmt));
  }

  lemma ContainsEmptyFree(s: string, sub: string)
    requires Contains(s, sub) && |sub| > 0
    ensures s != ""
  {
  }

  /** Without a `d` parameter in the builder URL the result is the stored link, or "" when
      there is none. */
  lemma NoDataGivesLink(xws: Json, fmt: FormatArg, quote: string -> string)
    requires VendorShaped(xws) && Truthy(GetOr(xws, "faction", JStr("")))
    requires GetOr(YasbVendor(xws), "link", JStr("")).JStr?
    requires var data := GetOr(YasbVendor(xws), "builder_url", JStr(""));
      data.JStr? && DParam(data.s).None?
    ensures XwsToYasbUrl(xws, fmt, quote) == Ok(GetOr(YasbVendor(xws), "link", JStr("")).s)
  {
  }

  /** A link is built only on the format's own builder, from the faction and a non-empty
      `d` parameter found in the builder URL. */
  lemma BuiltLinkShape(xws: Json, fmt: FormatArg, quote: string -> string)
    requires VendorShaped(xws) && Truthy(GetOr(xws, "faction", JStr("")))
    requires var link := GetOr(YasbVendor(xws), "link", JStr("")); link.JStr? && !Contains(link.s, BaseUrl(fmt))
    requires var data := GetOr(YasbVendor(xws), "builder_url", JStr(""));
      data.JStr? && DParam(data.s).Some?
    ensures XwsToYasbUrl(xws, fmt, quote).Ok?
    ensures StartsWith(XwsToYasbUrl(xws, fmt, quote).value, BaseUrl(fmt) + "?f=")
  {
    var data := GetOr(YasbVendor(xws), "builder_url", JStr(""));
    var link := GetOr(YasbVendor(xws), "link", JStr(""));
    assert Truthy(xws);
    assert Truthy(data) && Contains(data.s, "d=") by {
      DParamNeedsMarker(data.s);
    }
    assert !(Truthy(link) && Contains(link.s, BaseUrl(fmt)));
    var q := Query(GetOr(xws, "faction", JStr("")), GetOr(xws, "name", JStr("")), DParam(data.s).value, quote);
    assert XwsToYasbUrl(xws, fmt, quote) == Ok(BaseUrl(fmt) + "?" + q);
    QueryPrefix(BaseUrl(fmt), q);
  }

  /** A query starts with its faction parameter. */
  lemma QueryPrefix(base: string, q: string)
    requires StartsWith(q, "f=")
    ensures StartsWith(base + "?" + q, base + "?f=")
  {
    var p := base + "?f=";
    assert (base + "?" + q)[..|p|] == base + "?" + q[..2];
  }
}
