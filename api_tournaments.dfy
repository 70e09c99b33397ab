/** The tournament listing of the HTTP interface (`backend/api/tournaments.py`): the two
    short rows of a tournament's format badge, and the location text built from the
    stored location's city, country and continent. The database query around them is
    not modelled; its rows are the inputs. */
module ApiTournaments {
  import opened Wrappers
  import opened Strings
  import opened Json
  import GlobalFilters

  /** `s[:n]` */
  function Head(s: string, n: nat): (r: string)
    ensures |r| == if |s| < n then |s| else n
    ensures r == s[..|r|]
  {
    if |s| <= n then s else s[..n]
  }

  /** `s[a:b]` for `0 <= a <= b` */
  function Slice(s: string, a: nat, b: nat): (r: string)
    requires a <= b
    ensures |r| <= b - a
  {
    if a >= |s| then "" else if b >= |s| then s[a..] else s[a..b]
  }

  /** Removing a word from the label and stripping the rest, when the word occurs. */
  function Drop(text: string, word: string): string
    requires |word| > 0
  {
    if Contains(text, word) then Strip(Replace(text, word, "")) else text
  }

  /** The text the badge rules look at: the label uppercased ("UNK" when missing or
      empty), without "STANDARD" and then without "EXTENDED". */
  function BadgeText(formatLabel: Option<string>): string {
    var upper := if formatLabel.Some? && formatLabel.value != "" then Upper(formatLabel.value) else "UNK";
    Drop(Drop(upper, "STANDARD"), "EXTENDED")
  }

  /** The badge rules, first match wins. */
  function BadgeOf(text: string): (r: (string, string))
    ensures |r.0| <= 4 && |r.1| <= 4
  {
    if text == "AMG" then ("AMG", "")
    else if text == "XWA" then ("XWA", "")
    else if Contains(text, "LEGACY (X2PO)") then ("LGCY", "X2PO")
    else if Contains(text, "LEGACY (XLC)") then ("LGCY", "XLC")
    else if Contains(text, "LEGACY") then ("LGCY", "2.0")
    else if Contains(text, "FFG") then ("FFG", "2.0")
    else if Contains(text, "WILD") then ("WILD", "CARD")
    else if Contains(text, "EPIC") then ("EPIC", "PLAY")
    else
      var words := Words(text);
      if |words| >= 2 then (Head(words[0], 4), Head(words[1], 4))
      else if |text| > 4 then (Head(text, 4), Slice(text, 4, 8))
      else (text, "")
  }

  /** `_split_format_badge`: each row holds at most four characters, whatever the label. */
  function SplitFormatBadge(formatLabel: Option<string>): (r: (string, string))
    ensures |r.0| <= 4 && |r.1| <= 4
  {
    BadgeOf(BadgeText(formatLabel))
  }

  /** A text shorter than a pattern cannot hold it. */
  lemma {:induction false} ShortNoContains(s: string, sub: string)
    requires |s| < |sub|
    ensures !Contains(s, sub)
    decreases |s|
  {
    if |s| > 0 {
      ShortNoContains(s[1..], sub);
    }
  }

  /** A missing or empty label shows "UNK" on one row. */
  lemma BadgeUnknown()
    ensures SplitFormatBadge(None) == ("UNK", "")
    ensures SplitFormatBadge(Some("")) == ("UNK", "")
  {
    ShortNoContains("UNK", "STANDARD");
    ShortNoContains("UNK", "EXTENDED");
    ShortNoContains("UNK", "LEGACY (X2PO)");
    ShortNoContains("UNK", "LEGACY (XLC)");
    ShortNoContains("UNK", "LEGACY");
    ShortNoContains("UNK", "WILD");
    ShortNoContains("UNK", "EPIC");
    assert !Contains("UNK", "FFG") by {
      assert "UNK"[..3][0] != "FFG"[0];
      ShortNoContains("UNK"[1..], "FFG");
    }
    assert Word("UNK") == "UNK";
    assert Words("UNK") == ["UNK"];
  }

  lemma UpperIdempotent(s: string)
    ensures Upper(Upper(s)) == Upper(s)
  {
  }

  /** The label's case does not matter: it is uppercased first. */
  lemma BadgeCaseInsensitive(s: string)
    ensures SplitFormatBadge(Some(s)) == SplitFormatBadge(Some(Upper(s)))
  {
    UpperIdempotent(s);
  }

  /** The exact labels "AMG" and "XWA" show on one row. */
  lemma BadgeExact(formatLabel: Option<string>)
    ensures BadgeText(formatLabel) == "AMG" ==> SplitFormatBadge(formatLabel) == ("AMG", "")
    ensures BadgeText(formatLabel) == "XWA" ==> SplitFormatBadge(formatLabel) == ("XWA", "")
  {
  }

  /** Any label mentioning LEGACY is a legacy badge, whatever else it mentions (FFG, WILD,
      EPIC): the legacy rules come first, and the variant is X2PO, XLC or 2.0. */
  lemma BadgeLegacyFirst(formatLabel: Option<string>)
    requires Contains(BadgeText(formatLabel), "LEGACY")
    ensures SplitFormatBadge(formatLabel).0 == "LGCY"
    ensures SplitFormatBadge(formatLabel).1 in {"X2PO", "XLC", "2.0"}
    ensures Contains(BadgeText(formatLabel), "LEGACY (X2PO)") ==> SplitFormatBadge(formatLabel).1 == "X2PO"
  {
    var l := BadgeText(formatLabel);
    if l == "AMG" {
      ShortNoContains("AMG", "LEGACY");
    } else if l == "XWA" {
      ShortNoContains("XWA", "LEGACY");
    }
  }

  /** The label matches no rule. */
  predicate NoKeyword(text: string) {
    text != "AMG" && text != "XWA" &&
    !Contains(text, "LEGACY") && !Contains(text, "FFG") && !Contains(text, "WILD") && !Contains(text, "EPIC")
  }

  /** Both bracketed legacy labels mention LEGACY. */
  lemma LegacyVariants(l: string)
    ensures Contains(l, "LEGACY (X2PO)") ==> Contains(l, "LEGACY")
    ensures Contains(l, "LEGACY (XLC)") ==> Contains(l, "LEGACY")
  {
    if Contains(l, "LEGACY (X2PO)") {
      var i := ContainsIndex(l, "LEGACY (X2PO)");
      assert l[i..i + 6] == l[i..i + 13][..6] == "LEGACY (X2PO)"[..6] == "LEGACY";
      ContainsAt(l, "LEGACY", i);
    }
    if Contains(l, "LEGACY (XLC)") {
      var i := ContainsIndex(l, "LEGACY (XLC)");
      assert l[i..i + 6] == l[i..i + 12][..6] == "LEGACY (XLC)"[..6] == "LEGACY";
      ContainsAt(l, "LEGACY", i);
    }
  }

  /** The fallback rows of a text matching no rule. */
  lemma FallbackRows(l: string)
    requires NoKeyword(l)
    ensures var w := Words(l); var r := BadgeOf(l);
      |w| >= 2 ==>
        StartsWith(w[0], r.0) && StartsWith(w[1], r.1) &&
        |r.0| == (if |w[0]| < 4 then |w[0]| else 4) && |r.1| == (if |w[1]| < 4 then |w[1]| else 4)
    ensures |Words(l)| < 2 ==> BadgeOf(l).0 + BadgeOf(l).1 == Head(l, 8)
  {
    LegacyVariants(l);
    if |Words(l)| < 2 && |l| > 4 {
      if |l| >= 8 {
        assert l[..4] + l[4..8] == l[..8];
      } else {
        assert l[..4] + l[4..] == l;
      }
    }
  }

  /** Without a keyword, two or more words show the first four characters of each of the
      first two; a single long word shows its first eight characters over the two rows;
      anything shorter shows as it is. */
  lemma BadgeFallback(formatLabel: Option<string>)
    requires NoKeyword(BadgeText(formatLabel))
    ensures var l := BadgeText(formatLabel); var w := Words(l); var r := SplitFormatBadge(formatLabel);
      |w| >= 2 ==>
        StartsWith(w[0], r.0) && StartsWith(w[1], r.1) &&
        |r.0| == (if |w[0]| < 4 then |w[0]| else 4) && |r.1| == (if |w[1]| < 4 then |w[1]| else 4)
    ensures var l := BadgeText(formatLabel); var r := SplitFormatBadge(formatLabel);
      |Words(l)| < 2 ==> r.0 + r.1 == Head(l, 8)
  {
    FallbackRows(BadgeText(formatLabel));
  }

  // ---------------------------------------------------------------- location

  /** The location text, or the exception the `try` block catches. */
  datatype Parts = Parts(ps: seq<string>) | Raised

  const LocationKeys: seq<string> := ["city", "country", "continent"]

  /** `k in d and d[k]` for each key of `keys` in turn, appending the truthy values: a
      dict's non-string value makes the later `join` raise; for a list or a string, `in`
      tests membership or a substring and a hit makes `d[k]` raise; `in` on anything else
      raises. */
  function PartsOf(d: Json, keys: seq<string>): (r: Parts)
    ensures r.Parts? ==> |r.ps| <= |keys| && forall i :: 0 <= i < |r.ps| ==> r.ps[i] != ""
    decreases |keys|
  {
    if |keys| == 0 then (if d.JObj? || d.JList? || d.JStr? then Parts([]) else Raised)
    else
      var k := keys[|keys| - 1];
      match PartsOf(d, keys[..|keys| - 1])
      case Raised => Raised
      case Parts(ps) =>
        match d
        case JObj(_) =>
          var v := Get(d, k);
          if !Truthy(v) then Parts(ps)
          else if v.JStr? then Parts(ps + [v.s])
          else Raised
        case JList(items) => if JStr(k) in items then Raised else Parts(ps)
        case JStr(s) => if Contains(s, k) then Raised else Parts(ps)
        case _ => Raised
  }

  /** The location shown for a tournament: "Unknown Location" for a falsy location; the
      distinct parts in first-occurrence order joined by ", " when there are any; the
      location's own text when the `try` block raises. A string location is read by
      `parse` (`json.loads`, None when it raises). */
  function LocationText(location: Json, parse: string -> Option<Json>): (r: string)
    ensures !Truthy(location) ==> r == "Unknown Location"
    ensures Truthy(location) && location.JStr? && parse(location.s).None? ==> r == location.s
  {
    if !Truthy(location) then "Unknown Location"
    else
      var d := if location.JStr? then parse(location.s) else Some(location);
      if d.None? then Str(location)
      else match PartsOf(d.value, LocationKeys)
        case Raised => Str(location)
        case Parts(ps) =>
          var unique := GlobalFilters.Dedup(ps);
          if |unique| == 0 then "Unknown Location" else Join(unique, ", ")
  }

  /** The de-duplication loop: a part is appended the first time it is seen. */
  method UniqueParts(parts: seq<string>) returns (unique: seq<string>)
    ensures unique == GlobalFilters.Dedup(parts)
  {
    var seen: set<string> := {};
    unique := [];
    var i := 0;
    while i < |parts|
      invariant 0 <= i <= |parts|
      invariant unique == GlobalFilters.Dedup(parts[..i])
      invariant forall x :: x in seen <==> x in parts[..i]
    {
      var p := parts[i];
      GlobalFilters.DedupSpec(parts[..i]);
      assert parts[..i + 1][..i] == parts[..i];
      if p !in seen {
        unique := unique + [p];
        seen := seen + {p};
      }
      i := i + 1;
    }
    assert parts[..i] == parts;
  }

  /** `get_tournaments`' location block, with the loop above. */
  method FormatLocation(location: Json, parse: string -> Option<Json>) returns (text: string)
    ensures text == LocationText(location, parse)
  {
    text := "Unknown Location";
    if Truthy(location) {
      var d := if location.JStr? then parse(location.s) else Some(location);
      if d.None? {
        return Str(location);
      }
      match PartsOf(d.value, LocationKeys)
      case Raised =>
        text := Str(location);
      case Parts(ps) =>
        var unique := UniqueParts(ps);
        if |unique| > 0 {
          text := Join(unique, ", ");
        }
    }
  }

  /** Each part appears once, every part is kept, and parts that are already distinct
      keep their order. */
  lemma {:induction false} DedupDistinct(ps: seq<string>)
    ensures forall x :: x in GlobalFilters.Dedup(ps) <==> x in ps
    ensures forall i, j :: 0 <= i < j < |GlobalFilters.Dedup(ps)| ==> GlobalFilters.Dedup(ps)[i] != GlobalFilters.Dedup(ps)[j]
    ensures (forall i, j :: 0 <= i < j < |ps| ==> ps[i] != ps[j]) ==> GlobalFilters.Dedup(ps) == ps
    decreases |ps|
  {
    GlobalFilters.DedupSpec(ps);
    if |ps| > 0 && forall i, j :: 0 <= i < j < |ps| ==> ps[i] != ps[j] {
      DedupDistinct(ps[..|ps| - 1]);
    }
  }

  /** The parts of a location whose city and country coincide. */
  lemma CityStateParts(city: string, continent: string)
    requires city != "" && continent != ""
    ensures PartsOf(JObj([("city", JStr(city)), ("country", JStr(city)), ("continent", JStr(continent))]), LocationKeys)
      == Parts([city, city, continent])
  {
    var d := JObj([("city", JStr(city)), ("country", JStr(city)), ("continent", JStr(continent))]);
    LookupAt(d.fields, "city", 0);
    LookupAt(d.fields, "country", 1);
    LookupAt(d.fields, "continent", 2);
    assert LocationKeys[..2][..1] == ["city"] && LocationKeys[..2][..1][..0] == [];
    assert LocationKeys[..2] == ["city", "country"];
    assert PartsOf(d, []) == Parts([]);
    assert PartsOf(d, ["city"]) == Parts([city]);
    assert PartsOf(d, ["city", "country"]) == Parts([city, city]);
  }

  /** A city named like its country is shown once: "Singapore, Asia". */
  lemma CityStateShownOnce(city: string, continent: string, parse: string -> Option<Json>)
    requires city != "" && continent != "" && city != continent
    ensures LocationText(JObj([("city", JStr(city)), ("country", JStr(city)), ("continent", JStr(continent))]), parse)
      == city + ", " + continent
  {
    CityStateParts(city, continent);
    assert [city, city, continent][..2][..1] == [city];
    assert [city, city, continent][..2] == [city, city];
    assert GlobalFilters.Dedup([city]) == [city];
    assert GlobalFilters.Dedup([city, city]) == [city];
    assert GlobalFilters.Dedup([city, city, continent]) == [city, continent];
    assert [city, continent][1..] == [continent];
    assert Join([city, continent], ", ") == city + ", " + continent;
  }
}
