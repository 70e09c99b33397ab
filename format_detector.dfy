/** The format detector (`format_detector.py`): a (macro format, sub-format) pair read
    from the builder text of an XWS export, a majority vote over a tournament's lists,
    the ListFortress heuristics on top of the vote, and the display string. */
module FormatDetector {
  import opened Wrappers
  import opened Strings
  import opened Json
  import Dicts
  import opened Dates
  import Formats

  /** The sub-formats the detector names. */
  datatype SubFormat = XWA | AMG | X2PO | FFG | XLC | EPIC | UNKNOWN

  /** A detected (macro, sub) pair; `None` stands for Python's `(None, None)`, so the
      two components are set together or not at all. */
  type Detected = (Formats.MacroFormat, SubFormat)

  const Raised := "exception"

  /** The sub-formats that belong to each macro format. */
  predicate Belongs(d: Detected) {
    match d.0
    case V2_5 => d.1 == XWA || d.1 == AMG
    case V2_0 => d.1 == X2PO || d.1 == FFG || d.1 == XLC || d.1 == UNKNOWN
    case MOTHER => d.1 == EPIC || d.1 == UNKNOWN
  }

  // ---------------------------------------------------------------- one export

  /** The text appended for the vendor blocks, each part passed through `norm`: a dict
      YASB block adds its builder and link, a dict Launch Bay Next block (under "lbn",
      else "launchbaynext") adds " launchbaynext " and its ruleset. */
  function VendorText(vendor: Json, lowered: bool): string {
    var yasb :=
      if Has(vendor, "yasb") && Get(vendor, "yasb").JObj? then
        var y := Get(vendor, "yasb");
        " " + Norm(Str(GetOr(y, "builder", JStr(""))), lowered) + " " + Norm(Str(GetOr(y, "link", JStr(""))), lowered)
      else "";
    var lbn :=
      if Has(vendor, "lbn") || Has(vendor, "launchbaynext") then
        var l := Or(Get(vendor, "lbn"), Get(vendor, "launchbaynext"));
        if l.JObj? then " launchbaynext " + Norm(Str(GetOr(l, "ruleset", JStr(""))), lowered) else ""
      else "";
    yasb + lbn
  }

  function Norm(s: string, lowered: bool): string {
    if lowered then Lower(s) else s
  }

  /** The builder text as the source builds it: the top-level builder lowercased, the
      vendor parts appended as they are. */
  function BuilderTextAsWritten(xws: Json): string {
    var vendor := GetOr(xws, "vendor", JObj([]));
    Lower(Str(GetOr(xws, "builder", JStr("")))) + (if vendor.JObj? then VendorText(vendor, false) else "")
  }

  /** The builder text with every part lowercased, as the lowercase keywords it is
      searched for require. */
  function BuilderText(xws: Json): (r: string)
    ensures r == Lower(r)
  {
    var vendor := GetOr(xws, "vendor", JObj([]));
    var r := Lower(Str(GetOr(xws, "builder", JStr("")))) + (if vendor.JObj? then VendorText(vendor, true) else "");
    LowerIdempotent(Str(GetOr(xws, "builder", JStr(""))));
    LowerVendorText(vendor);
    LowerAppend(Lower(Str(GetOr(xws, "builder", JStr("")))), if vendor.JObj? then VendorText(vendor, true) else "");
    r
  }

  lemma LowerVendorText(vendor: Json)
    ensures Lower(VendorText(vendor, true)) == VendorText(vendor, true)
  {
    var y := Get(vendor, "yasb");
    var b := Str(GetOr(y, "builder", JStr("")));
    var k := Str(GetOr(y, "link", JStr("")));
    LowerIdempotent(b);
    LowerIdempotent(k);
    LowerAppend(" " + Lower(b) + " ", Lower(k));
    LowerAppend(" " + Lower(b), " ");
    LowerAppend(" ", Lower(b));
    var l := Or(Get(vendor, "lbn"), Get(vendor, "launchbaynext"));
    var rs := Str(GetOr(l, "ruleset", JStr("")));
    LowerIdempotent(rs);
    LowerAppend(" launchbaynext ", Lower(rs));
    var yt := VendorText(vendor, true);
    assert Lower(" launchbaynext ") == " launchbaynext ";
    assert Lower(" ") == " ";
    if Has(vendor, "yasb") && y.JObj? {
      assert yt == (" " + Lower(b) + " " + Lower(k)) + (yt[|" " + Lower(b) + " " + Lower(k)|..]);
    }
    LowerAppend(if Has(vendor, "yasb") && y.JObj? then " " + Lower(b) + " " + Lower(k) else "",
      if (Has(vendor, "lbn") || Has(vendor, "launchbaynext")) && l.JObj? then " launchbaynext " + Lower(rs) else "");
  }

  predicate SquadDesigner(b: string) {
    Contains(b, "xwingsquaddesigner") || Contains(b, "squaddesigner")
  }

  predicate LbnMentioned(b: string) {
    Contains(b, "launchbaynext") || Contains(b, "lbn")
  }

  /** The Launch Bay Next decision by the lowered top-level ruleset, then by "xwa" in
      the text; None falls through. */
  function LbnDecision(b: string, ruleset: string): (r: Option<Detected>)
    ensures r.Some? ==> Belongs(r.value) && (r.value.0 == Formats.V2_5 || r.value == (Formats.V2_0, X2PO))
  {
    if ruleset == "xwa" then Some((Formats.V2_5, XWA))
    else if ruleset == "amg" then Some((Formats.V2_5, AMG))
    else if ruleset == "legacy" then Some((Formats.V2_0, X2PO))
    else if Contains(b, "xwa") then Some((Formats.V2_5, XWA))
    else None
  }

  /** The YASB decision: "xwa" or "2.5" gives 2.5 XWA; "2.0" gives 2.0 with legacy,
      raithos, lorenzosanti or an unknown sub-format; None falls through. */
  function YasbDecision(b: string): (r: Option<Detected>)
    ensures r.Some? ==> Belongs(r.value) && r.value.0 != Formats.MOTHER
    ensures r.None? <==> !Contains(b, "xwa") && !Contains(b, "2.5") && !Contains(b, "2.0")
  {
    if Contains(b, "xwa") || Contains(b, "2.5") then Some((Formats.V2_5, XWA))
    else if Contains(b, "2.0") then
      if Contains(b, "legacy") then Some((Formats.V2_0, X2PO))
      else if Contains(b, "raithos") then Some((Formats.V2_0, FFG))
      else if Contains(b, "lorenzosanti") then Some((Formats.V2_0, XLC))
      else Some((Formats.V2_0, UNKNOWN))
    else None
  }

  /** The keyword fallback: x2po, then raithos. */
  function Fallback(b: string): (r: Option<Detected>)
    ensures r.Some? ==> r.value.0 == Formats.V2_0 && Belongs(r.value)
  {
    if Contains(b, "x2po") then Some((Formats.V2_0, X2PO))
    else if Contains(b, "raithos") then Some((Formats.V2_0, FFG))
    else None
  }

  /** The decision on a builder text and the lowered top-level ruleset. */
  function Classify(b: string, ruleset: string): (r: Option<Detected>)
    // The squad designer is never classified, whatever else the text says.
    ensures SquadDesigner(b) ==> r.None?
    // Every pair names a sub-format of its macro format, and no EPIC comes out.
    ensures r.Some? ==> Belongs(r.value) && r.value.1 != EPIC && r.value.0 != Formats.MOTHER
  {
    if SquadDesigner(b) then None
    else if LbnMentioned(b) && LbnDecision(b, ruleset).Some? then LbnDecision(b, ruleset)
    else if Contains(b, "yasb") && YasbDecision(b).Some? then YasbDecision(b)
    else Fallback(b)
  }

  function RulesetText(xws: Json): string {
    Lower(Str(GetOr(xws, "ruleset", JStr(""))))
  }

  /** `detect_format_from_xws` as written: Err where `.get` is called on a truthy
      value that is not a dict. */
  function DetectXwsAsWritten(xws: Json): (r: Result<Option<Detected>>)
    ensures !Truthy(xws) ==> r == Ok(None)
    ensures r.Err? <==> Truthy(xws) && !xws.JObj?
    ensures r.Ok? && r.value.Some? ==> Belongs(r.value.value)
  {
    if !Truthy(xws) then Ok(None)
    else if !xws.JObj? then Err(Raised)
    else Ok(Classify(BuilderTextAsWritten(xws), RulesetText(xws)))
  }

  /** `detect_format_from_xws` with the whole builder text lowercased. */
  function DetectXws(xws: Json): (r: Result<Option<Detected>>)
    ensures !Truthy(xws) ==> r == Ok(None)
    ensures r.Err? <==> Truthy(xws) && !xws.JObj?
    ensures r.Ok? && r.value.Some? ==> Belongs(r.value.value) && r.value.value.1 != EPIC
    ensures r.Ok? && SquadDesigner(BuilderText(xws)) ==> r == Ok(None)
  {
    if !Truthy(xws) then Ok(None)
    else if !xws.JObj? then Err(Raised)
    else Ok(Classify(BuilderText(xws), RulesetText(xws)))
  }

  /** A Launch Bay Next export: ruleset xwa, amg and legacy (in any case) give 2.5 XWA,
      2.5 AMG and 2.0 X2PO. */
  lemma LbnRuleset(xws: Json)
    requires xws.JObj? && Truthy(xws)
    requires !SquadDesigner(BuilderText(xws)) && LbnMentioned(BuilderText(xws))
    ensures RulesetText(xws) == "xwa" ==> DetectXws(xws) == Ok(Some((Formats.V2_5, XWA)))
    ensures RulesetText(xws) == "amg" ==> DetectXws(xws) == Ok(Some((Formats.V2_5, AMG)))
    ensures RulesetText(xws) == "legacy" ==> DetectXws(xws) == Ok(Some((Formats.V2_0, X2PO)))
    ensures RulesetText(xws) !in ["xwa", "amg", "legacy"] && Contains(BuilderText(xws), "xwa") ==>
      DetectXws(xws) == Ok(Some((Formats.V2_5, XWA)))
  {
  }

  /** A YASB 2.0 text without "xwa" or "2.5" gives 2.0 with X2PO for legacy, FFG for
      raithos, XLC for lorenzosanti, else an unknown sub-format. */
  lemma Yasb20(b: string, ruleset: string)
    requires !SquadDesigner(b) && !(LbnMentioned(b) && LbnDecision(b, ruleset).Some?)
    requires Contains(b, "yasb") && !Contains(b, "xwa") && !Contains(b, "2.5") && Contains(b, "2.0")
    ensures Contains(b, "legacy") ==> Classify(b, ruleset) == Some((Formats.V2_0, X2PO))
    ensures !Contains(b, "legacy") && Contains(b, "raithos") ==> Classify(b, ruleset) == Some((Formats.V2_0, FFG))
    ensures !Contains(b, "legacy") && !Contains(b, "raithos") && Contains(b, "lorenzosanti") ==>
      Classify(b, ruleset) == Some((Formats.V2_0, XLC))
    ensures !Contains(b, "legacy") && !Contains(b, "raithos") && !Contains(b, "lorenzosanti") ==>
      Classify(b, ruleset) == Some((Formats.V2_0, UNKNOWN))
  {
  }

  /** The sub-format under the name of `formats.py`, where there is one. */
  function AsFormat(s: SubFormat): Option<Formats.Format> {
    match s
    case XWA => Some(Formats.XWA)
    case AMG => Some(Formats.AMG)
    case X2PO => Some(Formats.LEGACY_X2PO)
    case FFG => Some(Formats.FFG)
    case XLC => Some(Formats.LEGACY_XLC)
    case EPIC => None
    case UNKNOWN => None
  }

  /** Every known sub-format the detector names sits under the macro format that
      `formats.py` groups it under. */
  lemma MacroAgrees(xws: Json)
    requires DetectXws(xws).Ok? && DetectXws(xws).value.Some?
    requires DetectXws(xws).value.value.1 != UNKNOWN
    ensures var d := DetectXws(xws).value.value;
      AsFormat(d.1).Some? && Formats.Macro(AsFormat(d.1).value) == d.0
  {
  }

  // ---------------------------------------------------------------- the vote

  /** The votes of the detected pairs: each pair with the number of lists detected as
      it, in the order the pairs were first seen. */
  function Tally(ds: seq<Option<Detected>>): (r: Dicts.Dict<Detected, nat>)
    decreases |ds|
  {
    if |ds| == 0 then []
    else
      AddVote(Tally(ds[..|ds| - 1]), ds[|ds| - 1])
  }

  /** `votes[key] = votes.get(key, 0) + 1` for a detected pair; nothing otherwise. */
  function AddVote(v: Dicts.Dict<Detected, nat>, d: Option<Detected>): Dicts.Dict<Detected, nat> {
    match d
    case None => v
    case Some(k) => Dicts.Put(v, k, Dicts.Get(v, k).GetOr(0) + 1)
  }

  /** How many lists were detected as `k`. */
  function Count(ds: seq<Option<Detected>>, k: Detected): (n: nat)
    ensures n <= |ds|
    decreases |ds|
  {
    if |ds| == 0 then 0 else Count(ds[..|ds| - 1], k) + (if ds[|ds| - 1] == Some(k) then 1 else 0)
  }

  /** The first list detected as `k`. */
  function FirstSeen(ds: seq<Option<Detected>>, k: Detected): (i: nat)
    requires Count(ds, k) > 0
    ensures i < |ds| && ds[i] == Some(k) && forall j :: 0 <= j < i ==> ds[j] != Some(k)
    decreases |ds|
  {
    if Count(ds[..|ds| - 1], k) > 0 then FirstSeen(ds[..|ds| - 1], k)
    else
      CountZero(ds[..|ds| - 1], k);
      |ds| - 1
  }

  lemma {:induction false} CountZero(ds: seq<Option<Detected>>, k: Detected)
    requires Count(ds, k) == 0
    ensures forall j :: 0 <= j < |ds| ==> ds[j] != Some(k)
    decreases |ds|
  {
    if |ds| > 0 {
      CountZero(ds[..|ds| - 1], k);
    }
  }

  /** The tally holds each key once, and a pair's vote is its count; a pair never
      detected has no entry. */
  lemma {:induction false} TallyCounts(ds: seq<Option<Detected>>)
    ensures Dicts.Distinct(Tally(ds))
    ensures forall k :: Dicts.Get(Tally(ds), k) == (if Count(ds, k) > 0 then Some(Count(ds, k)) else None)
    decreases |ds|
  {
    if |ds| > 0 {
      var init := ds[..|ds| - 1];
      TallyCounts(init);
      var v := Tally(init);
      match ds[|ds| - 1]
      case None =>
      case Some(k) =>
        Dicts.PutSpec(v, k, Dicts.Get(v, k).GetOr(0) + 1);
    }
  }

  /** Pairs enter the tally in the order they are first seen. */
  lemma {:induction false} TallyOrder(ds: seq<Option<Detected>>, i: nat, j: nat)
    requires i < j < |Tally(ds)|
    ensures Count(ds, Tally(ds)[i].0) > 0 && Count(ds, Tally(ds)[j].0) > 0
    ensures FirstSeen(ds, Tally(ds)[i].0) < FirstSeen(ds, Tally(ds)[j].0)
    decreases |ds|
  {
    var init := ds[..|ds| - 1];
    var v := Tally(init);
    TallyCounts(init);
    TallyCounts(ds);
    match ds[|ds| - 1]
    case None =>
      TallyOrder(init, i, j);
      SameCountNone(ds, v[i].0);
      SameCountNone(ds, v[j].0);
    case Some(k) =>
      var t := Tally(ds);
      Dicts.PutKeys(v, k, Dicts.Get(v, k).GetOr(0) + 1);
      assert Dicts.KeysOf(t)[i] == t[i].0 && Dicts.KeysOf(t)[j] == t[j].0;
      if Dicts.Has(v, k) {
        assert Dicts.KeysOf(v)[i] == v[i].0 && Dicts.KeysOf(v)[j] == v[j].0;
        TallyOrder(init, i, j);
        SeenBefore(ds, v[i].0);
        SeenBefore(ds, v[j].0);
      } else {
        assert Dicts.KeysOf(v)[i] == v[i].0;
        if j < |v| {
          assert Dicts.KeysOf(v)[j] == v[j].0;
          TallyOrder(init, i, j);
          SeenBefore(ds, v[i].0);
          SeenBefore(ds, v[j].0);
        } else {
          assert t[j].0 == k;
          KeyCounted(init, i);
          SeenBefore(ds, v[i].0);
          Dicts.HasIffKey(v, k);
          NotCountedYet(init, k);
        }
      }
  }

  /** A key of the tally has been seen. */
  lemma KeyCounted(ds: seq<Option<Detected>>, i: nat)
    requires i < |Tally(ds)|
    ensures Count(ds, Tally(ds)[i].0) > 0
  {
    TallyCounts(ds);
    var k := Tally(ds)[i].0;
    assert Dicts.KeysOf(Tally(ds))[i] == k;
    Dicts.HasIffKey(Tally(ds), k);
  }

  /** A pair without a tally entry has not been seen. */
  lemma NotCountedYet(ds: seq<Option<Detected>>, k: Detected)
    requires !Dicts.Has(Tally(ds), k)
    ensures Count(ds, k) == 0
  {
    TallyCounts(ds);
  }

  /** A pair seen before the last list keeps its first sighting. */
  lemma SeenBefore(ds: seq<Option<Detected>>, k: Detected)
    requires |ds| > 0 && Count(ds[..|ds| - 1], k) > 0
    ensures Count(ds, k) > 0 && FirstSeen(ds, k) == FirstSeen(ds[..|ds| - 1], k)
  {
  }

  /** A last list that detected nothing changes no count and no first sighting. */
  lemma SameCountNone(ds: seq<Option<Detected>>, k: Detected)
    requires |ds| > 0 && ds[|ds| - 1].None? && Count(ds[..|ds| - 1], k) > 0
    ensures Count(ds, k) == Count(ds[..|ds| - 1], k) && FirstSeen(ds, k) == FirstSeen(ds[..|ds| - 1], k)
  {
  }

  /** `max(items, key=count)`: the first entry of greatest count. */
  function FirstMax(items: Dicts.Dict<Detected, nat>): (i: nat)
    requires |items| > 0
    ensures i < |items|
    ensures forall j :: 0 <= j < |items| ==> items[j].1 <= items[i].1
    ensures forall j :: 0 <= j < i ==> items[j].1 < items[i].1
    decreases |items|
  {
    if |items| == 1 then 0
    else
      var i := FirstMax(items[..|items| - 1]);
      if items[|items| - 1].1 > items[i].1 then |items| - 1 else i
  }

  /** `xs[:n]` for any integer `n`. */
  function PySliceTo<T>(xs: seq<T>, n: int): (r: seq<T>)
    ensures |r| <= |xs| && r == xs[..|r|]
    ensures 0 <= n ==> |r| == if n < |xs| then n else |xs|
  {
    if n >= 0 then (if n < |xs| then xs[..n] else xs)
    else if |xs| + n > 0 then xs[..|xs| + n]
    else []
  }

  /** The winner of a tally: `(OTHER, UNKNOWN)` when nothing was detected. */
  function Winner(votes: Dicts.Dict<Detected, nat>): Detected {
    if |votes| == 0 then (Formats.MOTHER, UNKNOWN) else votes[FirstMax(votes)].0
  }

  /** The votes of a sample, or the exception its first unreadable list raises. */
  function Votes(sample: seq<Json>): (r: Result<Dicts.Dict<Detected, nat>>)
    ensures r.Err? ==> r == Err(Raised)
  {
    CollectErr(sample, DetectXws, Raised);
    match Collect(sample, DetectXws)
    case Err(m) => Err(m)
    case Ok(ds) => Ok(Tally(ds))
  }

  /** `detect_format_from_tournament_lists(lists, sample_size)`. */
  function TournamentFormat(lists: seq<Json>, sampleSize: int): (r: Result<Detected>)
    ensures |lists| == 0 ==> r == Ok((Formats.MOTHER, UNKNOWN))
    ensures r.Err? ==> r == Err(Raised)
  {
    if |lists| == 0 then Ok((Formats.MOTHER, UNKNOWN))
    else
      match Votes(PySliceTo(lists, sampleSize))
      case Err(m) => Err(m)
      case Ok(v) => Ok(Winner(v))
  }

  /** Only the sampled lists count: two tournaments whose first `sampleSize` lists
      agree get one verdict. */
  lemma SampleOnly(a: seq<Json>, b: seq<Json>, sampleSize: int)
    requires |a| > 0 && |b| > 0 && PySliceTo(a, sampleSize) == PySliceTo(b, sampleSize)
    ensures TournamentFormat(a, sampleSize) == TournamentFormat(b, sampleSize)
  {
  }

  /** The vote: with no pair detected the verdict is (OTHER, UNKNOWN); otherwise it is
      a pair with the greatest count, and any other pair with as many votes was first
      seen later. */
  lemma VoteWinner(ds: seq<Option<Detected>>)
    ensures (forall i :: 0 <= i < |ds| ==> ds[i].None?) ==> Winner(Tally(ds)) == (Formats.MOTHER, UNKNOWN)
    ensures (exists i :: 0 <= i < |ds| && ds[i].Some?) ==>
      var w := Winner(Tally(ds));
      Count(ds, w) > 0 &&
      (forall k :: Count(ds, k) <= Count(ds, w)) &&
      (forall k :: k != w && Count(ds, k) == Count(ds, w) ==> FirstSeen(ds, w) < FirstSeen(ds, k))
  {
    var v := Tally(ds);
    TallyCounts(ds);
    if exists i :: 0 <= i < |ds| && ds[i].Some? {
      var i :| 0 <= i < |ds| && ds[i].Some?;
      CountPositive(ds, i);
      Dicts.HasIffKey(v, ds[i].value);
      var m := FirstMax(v);
      var w := v[m].0;
      Dicts.FindDistinct(v, w, m);
      forall k ensures Count(ds, k) <= Count(ds, w) {
        if Count(ds, k) > 0 {
          var j := Dicts.Find(v, k).value;
          Dicts.FindDistinct(v, k, j);
        }
      }
      forall k | k != w && Count(ds, k) == Count(ds, w) ensures FirstSeen(ds, w) < FirstSeen(ds, k) {
        var j := Dicts.Find(v, k).value;
        Dicts.FindDistinct(v, k, j);
        if j < m {
          assert false;
        }
        TallyOrder(ds, m, j);
      }
    } else {
      forall k ensures Count(ds, k) == 0 {
        CountNone(ds, k);
      }
      if |v| > 0 {
        KeyCounted(ds, 0);
      }
    }
  }

  lemma {:induction false} CountPositive(ds: seq<Option<Detected>>, i: nat)
    requires i < |ds| && ds[i].Some?
    ensures Count(ds, ds[i].value) > 0
    decreases |ds|
  {
    if i < |ds| - 1 {
      CountPositive(ds[..|ds| - 1], i);
    }
  }

  lemma {:induction false} CountNone(ds: seq<Option<Detected>>, k: Detected)
    requires forall i :: 0 <= i < |ds| ==> ds[i].None?
    ensures Count(ds, k) == 0
    decreases |ds|
  {
    if |ds| > 0 {
      CountNone(ds[..|ds| - 1], k);
    }
  }

  /** The voting loop of `detect_format_from_tournament_lists`. */
  method VotesOf(sample: seq<Json>) returns (r: Result<Dicts.Dict<Detected, nat>>)
    ensures r == Votes(sample)
  {
    var votes: Dicts.Dict<Detected, nat> := [];
    ghost var ds: seq<Option<Detected>> := [];
    var i := 0;
    while i < |sample|
      invariant 0 <= i <= |sample|
      invariant Collect(sample[..i], DetectXws) == Ok(ds)
      invariant votes == Tally(ds)
    {
      var d := DetectXws(sample[i]);
      if d.Err? {
        VotesStop(sample, i);
        return Err(Raised);
      }
      CollectGrow(sample, i, DetectXws, ds);
      TallyGrow(ds, d.value);
      votes := AddVote(votes, d.value);
      ds := ds + [d.value];
      i := i + 1;
    }
    assert sample[..i] == sample;
    return Ok(votes);
  }

  /** `max(votes.items(), key=...)`: the first entry of greatest count. */
  method FirstMaxOf(votes: Dicts.Dict<Detected, nat>) returns (best: nat)
    requires |votes| > 0
    ensures best == FirstMax(votes)
  {
    best := 0;
    var j := 1;
    while j < |votes|
      invariant 1 <= j <= |votes| && best < j
      invariant best == FirstMax(votes[..j])
    {
      assert votes[..j + 1][..j] == votes[..j];
      if votes[j].1 > votes[best].1 {
        best := j;
      }
      j := j + 1;
    }
    assert votes[..j] == votes;
  }

  /** `detect_format_from_tournament_lists` as written. */
  method TournamentFormatOf(lists: seq<Json>, sampleSize: int) returns (r: Result<Detected>)
    ensures r == TournamentFormat(lists, sampleSize)
  {
    if |lists| == 0 {
      return Ok((Formats.MOTHER, UNKNOWN));
    }
    var votes := VotesOf(PySliceTo(lists, sampleSize));
    if votes.Err? {
      return Err(votes.msg);
    }
    if |votes.value| == 0 {
      return Ok((Formats.MOTHER, UNKNOWN));
    }
    var best := FirstMaxOf(votes.value);
    return Ok(votes.value[best].0);
  }

  /** One more detection adds its vote. */
  lemma TallyGrow(ds: seq<Option<Detected>>, d: Option<Detected>)
    ensures Tally(ds + [d]) == AddVote(Tally(ds), d)
  {
    assert (ds + [d])[..|ds|] == ds;
  }

  /** A list that raises stops the vote with its exception. */
  lemma VotesStop(sample: seq<Json>, i: nat)
    requires i < |sample| && Collect(sample[..i], DetectXws).Ok? && DetectXws(sample[i]).Err?
    ensures Votes(sample) == Err(Raised)
  {
    CollectPointwise(sample, DetectXws);
    CollectPointwise(sample[..i], DetectXws);
    assert forall j :: 0 <= j < i ==> sample[..i][j] == sample[j];
  }

  // ---------------------------------------------------------------- the lowercase slip

  /** A YASB 2.0 export from the lorenzosanti builder, cut down to the two fields read. */
  const LorenzoExport := JObj([("vendor", JObj([("yasb", LorenzoYasb)]))])
  const LorenzoYasb := JObj([("builder", JStr("YASB 2.0")), ("link", JStr("lorenzosanti"))])

  lemma LorenzoVendor(xws: Json)
    requires xws == LorenzoExport
    ensures GetOr(xws, "vendor", JObj([])) == JObj([("yasb", LorenzoYasb)])
    ensures Str(GetOr(xws, "builder", JStr(""))) == ""
  {
  }

  lemma LorenzoParts(vendor: Json, lowered: bool)
    requires vendor == JObj([("yasb", LorenzoYasb)])
    ensures VendorText(vendor, lowered) ==
      " " + Norm("YASB 2.0", lowered) + " " + Norm("lorenzosanti", lowered)
  {
    assert Has(vendor, "yasb") && Get(vendor, "yasb") == LorenzoYasb;
    assert !Has(vendor, "lbn") && !Has(vendor, "launchbaynext");
    assert GetOr(LorenzoYasb, "builder", JStr("")) == JStr("YASB 2.0");
    assert GetOr(LorenzoYasb, "link", JStr("")) == JStr("lorenzosanti");
  }

  lemma LorenzoTextAsWritten(xws: Json)
    requires xws == LorenzoExport
    ensures BuilderTextAsWritten(xws) == " YASB 2.0 lorenzosanti"
  {
    LorenzoVendor(xws);
    LorenzoParts(GetOr(xws, "vendor", JObj([])), false);
    assert Lower("") == "";
    LorenzoJoined();
  }

  lemma LorenzoTextLowered(xws: Json)
    requires xws == LorenzoExport
    ensures BuilderText(xws) == " yasb 2.0 lorenzosanti"
  {
    BuilderTextParts(xws);
    LorenzoVendor(xws);
    var vendor := GetOr(xws, "vendor", JObj([]));
    LorenzoVendorLowered(vendor);
    assert Lower("") == "";
  }

  lemma LorenzoVendorLowered(vendor: Json)
    requires vendor == JObj([("yasb", LorenzoYasb)])
    ensures VendorText(vendor, true) == " yasb 2.0 lorenzosanti"
  {
    LorenzoParts(vendor, true);
    assert Norm("YASB 2.0", true) == "yasb 2.0" && Norm("lorenzosanti", true) == "lorenzosanti" by {
      LorenzoLower();
    }
    LorenzoJoined();
  }

  lemma LorenzoJoined()
    ensures " " + "yasb 2.0" + " " + "lorenzosanti" == " yasb 2.0 lorenzosanti"
    ensures " " + "YASB 2.0" + " " + "lorenzosanti" == " YASB 2.0 lorenzosanti"
  {
  }

  lemma LorenzoLower()
    ensures Lower("YASB 2.0") == "yasb 2.0" && Lower("lorenzosanti") == "lorenzosanti" && Lower("") == ""
  {
  }

  lemma BuilderTextParts(xws: Json)
    ensures var vendor := GetOr(xws, "vendor", JObj([]));
      BuilderText(xws) == Lower(Str(GetOr(xws, "builder", JStr("")))) + (if vendor.JObj? then VendorText(vendor, true) else "")
  {
  }

  /** As written, the upper-case builder name hides "yasb", so the lorenzosanti branch is
      never reached and the export is not classified. */
  lemma LorenzoMissedAsWritten(xws: Json)
    requires xws == LorenzoExport
    ensures DetectXwsAsWritten(xws) == Ok(None)
  {
    LorenzoTextAsWritten(xws);
    var t := BuilderTextAsWritten(xws);
    UpperChars(t);
    Unclassified(t, RulesetText(xws));
  }

  /** The letters of the as-written text that the keyword searches turn on. */
  lemma UpperChars(t: string)
    requires t == " YASB 2.0 lorenzosanti"
    ensures 'q' !in t && 'u' !in t && 'b' !in t && 'y' !in t && 'x' !in t && 'h' !in t
  {
  }

  /** A text without q, u, b, y, x and h holds none of the keywords that classify. */
  lemma Unclassified(t: string, ruleset: string)
    requires 'q' !in t && 'u' !in t && 'b' !in t && 'y' !in t && 'x' !in t && 'h' !in t
    ensures Classify(t, ruleset) == None
  {
    AbsentChar(t, "xwingsquaddesigner", 6);
    AbsentChar(t, "squaddesigner", 1);
    AbsentChar(t, "launchbaynext", 2);
    AbsentChar(t, "lbn", 1);
    AbsentChar(t, "yasb", 0);
    AbsentChar(t, "x2po", 0);
    AbsentChar(t, "raithos", 4);
  }

  /** Lowercased, the same export is read as 2.0 XLC. */
  lemma LorenzoFound(xws: Json)
    requires xws == LorenzoExport
    ensures DetectXws(xws) == Ok(Some((Formats.V2_0, XLC)))
  {
    LorenzoTextLowered(xws);
    var t := BuilderText(xws);
    LowerChars(t);
    LowerWindows(t);
    NoLbPair(t);
    XlcText(t, RulesetText(xws));
  }

  /** The letters missing from the lowered text and the places of its keywords. */
  lemma LowerChars(t: string)
    requires t == " yasb 2.0 lorenzosanti"
    ensures 'q' !in t && 'u' !in t && 'x' !in t && 'h' !in t && 'g' !in t && '5' !in t
  {
  }

  lemma LowerWindows(t: string)
    requires t == " yasb 2.0 lorenzosanti"
    ensures |t| == 22 && t[1..5] == "yasb" && t[6..9] == "2.0" && t[10..22] == "lorenzosanti"
  {
    assert forall k :: 0 <= k < 4 ==> t[1..5][k] == "yasb"[k];
    assert forall k :: 0 <= k < 3 ==> t[6..9][k] == "2.0"[k];
  }

  lemma NoLbPair(t: string)
    requires t == " yasb 2.0 lorenzosanti"
    ensures forall i :: 0 <= i < |t| - 1 && t[i] == 'l' ==> t[i + 1] != 'b'
  {
  }

  /** A YASB 2.0 text naming lorenzosanti and none of the keywords tested before it is
      classified 2.0 XLC. */
  lemma XlcText(t: string, ruleset: string)
    requires 'q' !in t && 'u' !in t && 'x' !in t && 'h' !in t && 'g' !in t && '5' !in t
    requires forall i :: 0 <= i < |t| - 1 && t[i] == 'l' ==> t[i + 1] != 'b'
    requires |t| == 22 && t[1..5] == "yasb" && t[6..9] == "2.0" && t[10..22] == "lorenzosanti"
    ensures Classify(t, ruleset) == Some((Formats.V2_0, XLC))
  {
    AbsentChar(t, "xwingsquaddesigner", 6);
    AbsentChar(t, "squaddesigner", 1);
    AbsentChar(t, "launchbaynext", 2);
    NoLbn(t);
    ContainsAt(t, "yasb", 1);
    AbsentChar(t, "xwa", 0);
    AbsentChar(t, "2.5", 2);
    ContainsAt(t, "2.0", 6);
    AbsentChar(t, "legacy", 2);
    AbsentChar(t, "raithos", 4);
    ContainsAt(t, "lorenzosanti", 10);
  }

  lemma NoLbn(t: string)
    requires forall i :: 0 <= i < |t| - 1 && t[i] == 'l' ==> t[i + 1] != 'b'
    ensures !Contains(t, "lbn")
  {
    if Contains(t, "lbn") {
      var i := ContainsIndex(t, "lbn");
      WindowChar(t, "lbn", i, 0);
      WindowChar(t, "lbn", i, 1);
      assert false;
    }
  }

  // ---------------------------------------------------------------- ListFortress

  predicate NamesXwa(name: string) {
    Contains(name, "xwa") || Contains(name, "alliance")
  }

  /** The heuristics on the lowered format field and tournament name and on the date:
      "standard"/"extended" are 2.5; "other" reads the name's keywords, then a date
      from 2025 on. */
  function Heuristics(format: string, name: string, date: string): (r: Detected)
    ensures Belongs(r)
  {
    if format == "standard" || format == "extended" then
      if NamesXwa(name) then (Formats.V2_5, XWA) else (Formats.V2_5, AMG)
    else if format == "other" then
      if NamesXwa(name) then (Formats.V2_5, XWA)
      else if Contains(name, "epic") then (Formats.MOTHER, EPIC)
      else if Contains(name, "legacy") || Contains(name, "2.0") then (Formats.V2_0, X2PO)
      else if Contains(name, "x2po") then (Formats.V2_0, X2PO)
      else if Contains(name, "xlc") || Contains(name, "lorenzosanti") then (Formats.V2_0, XLC)
      else if Recent(date) then (Formats.V2_5, XWA)
      else (Formats.MOTHER, UNKNOWN)
    else (Formats.MOTHER, UNKNOWN)
  }

  /** The date's first ten characters read as "%Y-%m-%d" and fall on or after
      2025-01-01; an unreadable date is not recent. */
  predicate Recent(date: string) {
    |date| > 0 &&
    var d := StrptimeYmd(PySliceTo(date, 10));
    d.Some? && Le(Date(2025, 1, 1), d.value)
  }

  /** `detect_format_from_listfortress(format, name, date, lists)`; a None field reads
      like the empty text. */
  function ListFortressFormat(format: string, name: string, date: string, lists: seq<Json>): (r: Result<Detected>)
    ensures r.Err? ==> r == Err(Raised)
    ensures r.Ok? ==> Belongs(r.value)
  {
    var vote := if |lists| > 0 then TournamentFormat(lists, 10) else Ok((Formats.MOTHER, UNKNOWN));
    match vote
    case Err(m) => Err(m)
    case Ok(v) =>
      if |lists| > 0 && v.1 != UNKNOWN then
        VoteBelongs(lists);
        Ok(v)
      else Ok(Heuristics(Lower(format), Lower(name), date))
  }

  /** The vote names a pair that belongs together. */
  lemma VoteBelongs(lists: seq<Json>)
    requires TournamentFormat(lists, 10).Ok?
    ensures Belongs(TournamentFormat(lists, 10).value)
  {
    if |lists| > 0 {
      var sample := PySliceTo(lists, 10);
      var ds := Collect(sample, DetectXws).value;
      CollectPointwise(sample, DetectXws);
      var v := Tally(ds);
      TallyCounts(ds);
      if |v| > 0 {
        var k := v[FirstMax(v)].0;
        KeyCounted(ds, FirstMax(v));
        var i := FirstSeen(ds, k);
        assert DetectXws(sample[i]) == Ok(Some(k));
      }
    }
  }

  /** The XWS vote wins whenever it names a known sub-format. */
  lemma XwsWins(format: string, name: string, date: string, lists: seq<Json>)
    requires |lists| > 0 && TournamentFormat(lists, 10).Ok? && TournamentFormat(lists, 10).value.1 != UNKNOWN
    ensures ListFortressFormat(format, name, date, lists) == TournamentFormat(lists, 10)
  {
  }

  /** Without a decisive vote, "standard" and "extended" are 2.5: XWA when the name
      mentions xwa or alliance, else AMG. */
  lemma StandardIsV25(format: string, name: string, date: string, lists: seq<Json>)
    requires Lower(format) == "standard" || Lower(format) == "extended"
    requires |lists| == 0 || TournamentFormat(lists, 10) == Ok((Formats.MOTHER, UNKNOWN))
    ensures ListFortressFormat(format, name, date, lists) ==
      Ok(if NamesXwa(Lower(name)) then (Formats.V2_5, XWA) else (Formats.V2_5, AMG))
  {
  }

  /** Without a decisive vote, an "other" tournament whose name has no keyword is 2.5
      XWA exactly when its date is from 2025 on, else unknown. */
  lemma OtherByDate(format: string, name: string, date: string, lists: seq<Json>)
    requires Lower(format) == "other"
    requires |lists| == 0 || TournamentFormat(lists, 10) == Ok((Formats.MOTHER, UNKNOWN))
    requires var n := Lower(name);
      !NamesXwa(n) && !Contains(n, "epic") && !Contains(n, "legacy") && !Contains(n, "2.0") &&
      !Contains(n, "x2po") && !Contains(n, "xlc") && !Contains(n, "lorenzosanti")
    ensures ListFortressFormat(format, name, date, lists) ==
      Ok(if Recent(date) then (Formats.V2_5, XWA) else (Formats.MOTHER, UNKNOWN))
  {
  }

  /** An ISO date from 2025-01-01 on is recent, one before it is not. */
  lemma RecentIso(d: Date)
    requires Valid(d)
    ensures Recent(IsoFormat(d)) <==> Le(Date(2025, 1, 1), d)
  {
    StrptimeOfIso(d);
    assert PySliceTo(IsoFormat(d), 10) == IsoFormat(d);
  }

  // ---------------------------------------------------------------- display

  /** `get_format_display(macro, sub)`; `unknown` is the text of the unknown
      sub-format. */
  function Display(macro: string, sub: string, unknown: string): (r: string)
    ensures r == macro <==> sub == unknown
    ensures sub != unknown ==> |r| == |macro| + 1 + |sub| && r[..|macro|] == macro && r[|macro|] == ' ' && r[|macro| + 1..] == sub
  {
    if sub == unknown then macro else macro + " " + sub
  }

  /** The display names the macro format first, so a macro value without a space is
      read back from it up to the first space. */
  lemma DisplayReadsBack(macro: string, sub: string, unknown: string)
    requires NoChar(macro, ' ') && sub != unknown
    ensures SplitOnce(Display(macro, sub, unknown), ' ') == Some((macro, sub))
  {
    var r := Display(macro, sub, unknown);
    assert r[|macro|] == ' ';
    assert forall j :: 0 <= j < |macro| ==> r[j] == macro[j];
    assert IndexOfChar(r, ' ') == Some(|macro|);
  }
}
