/** The List Fortress API client's data handling: validating the XWS a participant record
    carries, totalling a list's pilot points, and filtering, ordering and cutting the
    tournament list after it is fetched. */
module ListFortress {
  import opened Wrappers
  import opened Json
  import opened Sorting

  // ---------------------------------------------------------------- participant XWS

  /** Carries one of the fields that mark a dict as an XWS list. */
  predicate LooksLikeXws(d: Json) {
    Has(d, "faction") || Has(d, "pilots") || Has(d, "vendor") || Has(d, "points")
  }

  /** `extract_xws_from_participant`: the "list_json" value, parsed when it is text; `None`
      when it is missing or falsy, unparsable, not a dict, or a dict with none of faction,
      pilots, vendor and points. */
  function ExtractXws(participant: Json, parse: string -> Option<Json>): (r: Option<Json>)
    requires participant.JObj?
    ensures r.Some? ==> r.value.JObj? && LooksLikeXws(r.value)
    ensures !Truthy(Get(participant, "list_json")) ==> r.None?
    ensures Get(participant, "list_json").JObj? ==>
      r == (if LooksLikeXws(Get(participant, "list_json")) then Some(Get(participant, "list_json")) else None)
    ensures Get(participant, "list_json").JStr? && Truthy(Get(participant, "list_json")) ==>
      var p := parse(Get(participant, "list_json").s);
      r == (if p.Some? && p.value.JObj? && LooksLikeXws(p.value) then p else None)
    ensures r.Some? ==> Get(participant, "list_json").JObj? || Get(participant, "list_json").JStr?
  {
    var squad := Get(participant, "list_json");
    if !Truthy(squad) then None
    else
      var value := if squad.JStr? then parse(squad.s) else Some(squad);
      match value
      case None => None
      case Some(v) => if v.JObj? && LooksLikeXws(v) then Some(v) else None
  }

  /** A participant carrying an already extracted XWS gives it back unchanged. */
  lemma ExtractIdempotent(participant: Json, parse: string -> Option<Json>)
    requires participant.JObj? && ExtractXws(participant, parse).Some?
    ensures ExtractXws(JObj([("list_json", ExtractXws(participant, parse).value)]), parse) ==
      ExtractXws(participant, parse)
  {
    var x := ExtractXws(participant, parse).value;
    assert Get(JObj([("list_json", x)]), "list_json") == x;
    assert Truthy(x) by {
      assert x.JObj? && |x.fields| > 0;
    }
  }

  // ---------------------------------------------------------------- list points

  /** `total + p` for a number `p`: an integer total stays integral until a float is added;
      `None` for a value `+` rejects. The total is kept as a real. */
  function AddPoints(total: real, p: Json): Option<real> {
    match Number(p)
    case None => None
    case Some(x) => Some(total + x)
  }

  /** The total of the pilots' "points" (0 when absent); `None` when a pilot is not a dict
      or its points are not a number. */
  function SumPoints(pilots: seq<Json>): Option<real> {
    if |pilots| == 0 then Some(0.0)
    else match SumPoints(pilots[..|pilots| - 1])
      case None => None
      case Some(t) =>
        var p := pilots[|pilots| - 1];
        if !p.JObj? then None else AddPoints(t, GetOr(p, "points", JInt(0)))
  }

  /** `calculate_list_points` as a value: the pilots value is iterated as Python does. */
  function ListPoints(xws: Json): Option<real>
    requires xws.JObj?
  {
    match Iter(GetOr(xws, "pilots", JList([])))
    case None => None
    case Some(ps) => SumPoints(ps)
  }

  /** The total over a concatenation is the sum of the totals. */
  lemma {:induction false} SumPointsAppend(a: seq<Json>, b: seq<Json>)
    requires SumPoints(a).Some? && SumPoints(b).Some?
    ensures SumPoints(a + b) == Some(SumPoints(a).value + SumPoints(b).value)
    decreases |b|
  {
    if |b| == 0 {
      assert a + b == a;
    } else {
      var b' := b[..|b| - 1];
      assert (a + b)[..|a + b| - 1] == a + b';
      assert (a + b)[|a + b| - 1] == b[|b| - 1];
      assert SumPoints(b').Some?;
      SumPointsAppend(a, b');
    }
  }

  /** The total does not depend on the order of the pilots: swapping two neighbours
      keeps it. */
  lemma SumPointsSwap(a: seq<Json>, x: Json, y: Json, b: seq<Json>)
    requires SumPoints(a + [x, y] + b).Some?
    ensures SumPoints(a + [y, x] + b) == SumPoints(a + [x, y] + b)
  {
    SumPointsSplit(a + [x, y], b);
    SumPointsSplit(a, [x, y]);
    SumPointsTwo(x, y);
    SumPointsTwo(y, x);
    SumPointsAppend(a, [y, x]);
    SumPointsAppend(a + [y, x], b);
    SumPointsAppend(a, [x, y]);
    SumPointsAppend(a + [x, y], b);
  }

  lemma SumPointsTwo(x: Json, y: Json)
    ensures SumPoints([x, y]).Some? <==> SumPoints([x]).Some? && SumPoints([y]).Some?
    ensures SumPoints([x, y]).Some? ==> (SumPoints([x, y]) == SumPoints([y, x]) &&
      SumPoints([x, y]).value == SumPoints([x]).value + SumPoints([y]).value)
  {
    assert [x, y][..1] == [x];
    assert [y, x][..1] == [y];
    assert [x][..0] == [] && [y][..0] == [];
  }

  /** A defined total over `a + b` has defined totals over both parts. */
  lemma {:induction false} SumPointsSplit(a: seq<Json>, b: seq<Json>)
    requires SumPoints(a + b).Some?
    ensures SumPoints(a).Some? && SumPoints(b).Some?
    decreases |b|
  {
    if |b| == 0 {
      assert a + b == a;
    } else {
      var b' := b[..|b| - 1];
      assert (a + b)[..|a + b| - 1] == a + b';
      SumPointsSplit(a, b');
      SumPointsLast(b, b');
    }
  }

  lemma SumPointsLast(b: seq<Json>, b': seq<Json>)
    requires |b| > 0 && b' == b[..|b| - 1] && SumPoints(b').Some?
    requires b[|b| - 1].JObj? && Number(GetOr(b[|b| - 1], "points", JInt(0))).Some?
    ensures SumPoints(b).Some?
  {
  }

  /** A pilot without "points" adds nothing; one with integer points adds them. */
  lemma PointsOfPilot(a: seq<Json>, n: int)
    requires SumPoints(a).Some?
    ensures SumPoints(a + [JObj([])]) == SumPoints(a)
    ensures SumPoints(a + [JObj([("points", JInt(n))])]) == Some(SumPoints(a).value + n as real)
  {
    SumPointsSnoc(a, JObj([]));
    assert GetOr(JObj([]), "points", JInt(0)) == JInt(0);
    var p := JObj([("points", JInt(n))]);
    SumPointsSnoc(a, p);
    assert GetOr(p, "points", JInt(0)) == JInt(n);
  }

  /** One more pilot dict adds its points to a defined total. */
  lemma SumPointsSnoc(a: seq<Json>, p: Json)
    requires SumPoints(a).Some? && p.JObj?
    ensures SumPoints(a + [p]) == AddPoints(SumPoints(a).value, GetOr(p, "points", JInt(0)))
  {
    assert (a + [p])[..|a|] == a;
  }

  /** `calculate_list_points`: the accumulation loop. */
  method CalculateListPoints(xws: Json) returns (total: Option<real>)
    requires xws.JObj?
    ensures total == ListPoints(xws)
  {
    var ps := Iter(GetOr(xws, "pilots", JList([])));
    if ps.None? {
      return None;
    }
    var pilots := ps.value;
    var t := 0.0;
    var i := 0;
    while i < |pilots|
      invariant 0 <= i <= |pilots|
      invariant SumPoints(pilots[..i]) == Some(t)
    {
      assert pilots[..i + 1][..i] == pilots[..i];
      var p := pilots[i];
      if !p.JObj? {
        SumPointsStops(pilots, i + 1);
        return None;
      }
      var next := AddPoints(t, GetOr(p, "points", JInt(0)));
      if next.None? {
        SumPointsStops(pilots, i + 1);
        return None;
      }
      t := next.value;
      i := i + 1;
    }
    assert pilots[..i] == pilots;
    total := Some(t);
  }

  /** Once the running total fails it stays failed. */
  lemma {:induction false} SumPointsStops(ps: seq<Json>, k: nat)
    requires k <= |ps| && SumPoints(ps[..k]).None?
    ensures SumPoints(ps).None?
    decreases |ps| - k
  {
    if k < |ps| {
      var pre := ps[..|ps| - 1];
      assert pre[..k] == ps[..k];
      SumPointsStops(pre, k);
    } else {
      assert ps[..k] == ps;
    }
  }

  // ---------------------------------------------------------------- tournament list

  /** `t.get("date", "1900-01-01")` read by `fromisoformat`; `None` when `.get` or the
      parse raises. */
  function IsoDate(t: Json, iso: string -> Option<int>): Option<int> {
    if !t.JObj? then None
    else
      var v := GetOr(t, "date", JStr("1900-01-01"));
      if v.JStr? then iso(v.s) else None
  }

  /** The comprehension keeping tournaments on or after the cutoff; `None` when a date
      cannot be read. */
  function SinceFilter(ts: seq<Json>, cutoff: int, iso: string -> Option<int>): (r: Option<seq<Json>>)
    ensures r.Some? <==> forall i :: 0 <= i < |ts| ==> IsoDate(ts[i], iso).Some?
    ensures r.Some? ==> forall t :: t in r.value ==> t in ts && IsoDate(t, iso).value >= cutoff
    ensures r.Some? ==> forall t :: t in ts && IsoDate(t, iso).value >= cutoff ==> t in r.value
    ensures r.Some? ==> |r.value| <= |ts|
  {
    if |ts| == 0 then Some([])
    else
      var t := ts[|ts| - 1];
      match SinceFilter(ts[..|ts| - 1], cutoff, iso)
      case None => None
      case Some(kept) =>
        match IsoDate(t, iso)
        case None => None
        case Some(d) =>
          assert forall u :: u in ts <==> u in ts[..|ts| - 1] || u == t by {
            assert ts == ts[..|ts| - 1] + [t];
          }
          Some(if d >= cutoff then kept + [t] else kept)
  }

  /** The sort key `t.get("date", "")`, compared as text by code points. */
  function DateKey(t: Json): seq<real> {
    Codes(StrOr(t, "date", ""))
  }

  /** Sorting compares keys only when there are two or more tournaments; the keys must then
      be text (a missing date reads "", a date of another type makes the comparison
      raise). */
  predicate SortableKeys(ts: seq<Json>) {
    (forall i :: 0 <= i < |ts| ==> ts[i].JObj?) &&
    (|ts| >= 2 ==> forall i :: 0 <= i < |ts| ==> GetOr(ts[i], "date", JStr("")).JStr?)
  }

  /** The tournaments kept by the `since` filter: all of them when `since` is missing or
      empty, `None` where Python raises. */
  function Kept(ts: seq<Json>, since: Option<string>, iso: string -> Option<int>): (r: Option<seq<Json>>)
    ensures !(since.Some? && since.value != "") ==> r == Some(ts)
    ensures since.Some? && since.value != "" && iso(since.value).None? ==> r.None?
  {
    if since.Some? && since.value != "" then
      match iso(since.value)
      case None => None
      case Some(cutoff) => SinceFilter(ts, cutoff, iso)
    else Some(ts)
  }

  /** `fetch_tournaments` after the fetch: keep the tournaments dated on or after
      `since` (when given), sort them by date text, newest first (ties keep their order),
      and return the first `limit`. `None` where Python raises. */
  function PostFetch(ts: seq<Json>, since: Option<string>, limit: int,
                     iso: string -> Option<int>): Option<seq<Json>>
  {
    match Kept(ts, since, iso)
    case None => None
    case Some(k) =>
      if !SortableKeys(k) then None
      else Some(Take(SortBy(k, DateKey, true), limit))
  }

  /** The post-fetch step returns the `limit` newest of the kept tournaments (all of
      them when fewer): no kept tournament left out is newer than one returned. */
  lemma PostFetchNewest(ts: seq<Json>, since: Option<string>, limit: int, iso: string -> Option<int>)
    requires PostFetch(ts, since, limit, iso).Some?
    ensures Kept(ts, since, iso).Some?
    ensures var r := PostFetch(ts, since, limit, iso).value;
      var k := Kept(ts, since, iso).value;
      limit >= 0 ==> |r| == if limit < |k| then limit else |k|
    ensures var r := PostFetch(ts, since, limit, iso).value;
      multiset(r) <= multiset(Kept(ts, since, iso).value)
    ensures var r := PostFetch(ts, since, limit, iso).value;
      var k := Kept(ts, since, iso).value;
      forall t, u :: t in r && u in multiset(k) - multiset(r) ==> !Before(DateKey, true, u, t)
  {
    var kept := Kept(ts, since, iso).value;
    var sorted := SortBy(kept, DateKey, true);
    SortByMultiset(kept, DateKey, true);
    SortByOrdered(kept, DateKey, true);
    TakeFront(sorted, limit, DateKey, true);
  }

  /** What the post-fetch step returns: each one of the input and on or after the
      cutoff, newest date text first. */
  lemma PostFetchSpec(ts: seq<Json>, since: Option<string>, limit: int, iso: string -> Option<int>)
    requires PostFetch(ts, since, limit, iso).Some?
    ensures var r := PostFetch(ts, since, limit, iso).value;
      forall t :: t in r ==> t in ts
    ensures var r := PostFetch(ts, since, limit, iso).value;
      since.Some? && since.value != "" ==>
        forall t :: t in r ==> IsoDate(t, iso).value >= iso(since.value).value
    ensures var r := PostFetch(ts, since, limit, iso).value;
      Ordered(r, DateKey, true)
  {
    var kept := Kept(ts, since, iso).value;
    var sorted := SortBy(kept, DateKey, true);
    SortByMultiset(kept, DateKey, true);
    SortByOrdered(kept, DateKey, true);
    var r := Take(sorted, limit);
    assert r == PostFetch(ts, since, limit, iso).value;
    assert forall t :: t in r ==> t in sorted by {
      forall t | t in r ensures t in sorted {
        var i :| 0 <= i < |r| && r[i] == t;
        TakeElement(sorted, limit, i);
      }
    }
    assert forall t :: t in sorted ==> t in kept by {
      forall t | t in sorted ensures t in kept {
        assert t in multiset(sorted);
      }
    }
    TakeOrdered(sorted, limit, DateKey, true);
  }

  lemma TakeElement<T>(s: seq<T>, n: int, i: nat)
    requires i < |Take(s, n)|
    ensures Take(s, n)[i] in s
  {
  }
}
