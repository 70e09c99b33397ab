/** The List Fortress scraper's reading of a tournament export: the format-id table, the
    location text, the tournament record with its format choice, and the match dicts
    `get_matches` builds from the rounds, naming both sides and the winner through the
    export's participant ids. */
module ListFortressScraper {
  import opened Wrappers
  import opened Strings
  import opened Json
  import opened Formats
  import opened Models
  import Rollbetter

  const Platform := "listfortress"

  // ---------------------------------------------------------------- format ids

  /** `_map_format`: id 2 (extended) is OTHER; 1, 34 and every other id are AMG. */
  function MapFormat(fmtId: Json): (f: Format)
    ensures f == OTHER <==> PyEq(fmtId, JInt(2))
    ensures f == AMG || f == OTHER
  {
    if PyEq(fmtId, JInt(1)) then AMG
    else if PyEq(fmtId, JInt(2)) then OTHER
    else if PyEq(fmtId, JInt(34)) then AMG
    else AMG
  }

  // ---------------------------------------------------------------- location

  /** `[x for x in xs if x]` */
  function KeepTruthy(xs: seq<Json>): (r: seq<Json>)
    ensures forall i :: 0 <= i < |r| ==> Truthy(r[i])
    ensures |r| == 0 <==> forall i :: 0 <= i < |xs| ==> !Truthy(xs[i])
  {
    if |xs| == 0 then []
    else (if Truthy(xs[0]) then [xs[0]] else []) + KeepTruthy(xs[1..])
  }

  /** The truthy values among location, state and country. */
  function LocationParts(data: Json): seq<Json> {
    KeepTruthy([Get(data, "location"), Get(data, "state"), Get(data, "country")])
  }

  /** The texts of a list of strings; `None` when one is not a string (`join` raises). */
  function Texts(xs: seq<Json>): (r: Option<seq<string>>)
    ensures r.Some? <==> forall i :: 0 <= i < |xs| ==> xs[i].JStr?
    ensures r.Some? ==> |r.value| == |xs| && forall i :: 0 <= i < |xs| ==> r.value[i] == xs[i].s
  {
    if |xs| == 0 then Some([])
    else if !xs[0].JStr? then None
    else match Texts(xs[1..])
      case None => None
      case Some(ts) => Some([xs[0].s] + ts)
  }

  /** `_format_location`: the non-empty location parts joined by ", ". */
  function FormatLocation(data: Json): (r: Option<string>)
    ensures r.Some? <==> forall i :: 0 <= i < |LocationParts(data)| ==> LocationParts(data)[i].JStr?
  {
    match Texts(LocationParts(data))
    case None => None
    case Some(ts) => Some(Join(ts, ", "))
  }

  /** `parts` with a space before every part but the first: what splitting a ", " join at
      its commas gives back. */
  function Spaced(parts: seq<string>): (r: seq<string>)
    ensures |r| == |parts|
  {
    if |parts| == 0 then [] else [parts[0]] + SpaceAll(parts[1..])
  }

  function SpaceAll(parts: seq<string>): (r: seq<string>)
    ensures |r| == |parts|
  {
    if |parts| == 0 then [] else [" " + parts[0]] + SpaceAll(parts[1..])
  }

  lemma {:induction false} SplitJoinComma(parts: seq<string>)
    requires |parts| >= 1
    requires forall k :: 0 <= k < |parts| ==> NoChar(parts[k], ',')
    ensures Split(Join(parts, ", "), ',') == Spaced(parts)
    decreases |parts|
  {
    if |parts| == 1 {
      assert IndexOfChar(parts[0], ',').None?;
    } else {
      var rest := Join(parts[1..], ", ");
      assert Join(parts, ", ") == parts[0] + ", " + rest;
      assert parts[0] + ", " + rest == parts[0] + "," + (" " + rest);
      SplitAtFirst(parts[0], " " + rest);
      SplitJoinComma(parts[1..]);
      SplitSpaced(rest);
      assert parts[1..][1..] == parts[2..];
    }
  }

  /** Splitting at a first comma. */
  lemma SplitAtFirst(a: string, b: string)
    requires NoChar(a, ',')
    ensures Split(a + "," + b, ',') == [a] + Split(b, ',')
  {
    var s := a + "," + b;
    assert s[|a|] == ',';
    assert forall j :: 0 <= j < |a| ==> s[j] == a[j];
    assert IndexOfChar(s, ',') == Some(|a|);
    assert s[..|a|] == a;
    assert s[|a| + 1..] == b;
  }

  /** A leading space sticks to the first piece of a split. */
  lemma SplitSpaced(s: string)
    ensures Split(" " + s, ',') == [" " + Split(s, ',')[0]] + Split(s, ',')[1..]
  {
    var t := " " + s;
    assert t[1..] == s;
    match IndexOfChar(s, ',')
    case None =>
      assert IndexOfChar(t, ',').None? by {
        forall j | 0 <= j < |t| ensures t[j] != ',' {
          if j > 0 { assert t[j] == s[j - 1]; }
        }
      }
    case Some(i) =>
      assert IndexOfChar(t, ',') == Some(i + 1) by {
        assert t[i + 1] == ',';
        forall j | 0 <= j < i + 1 ensures t[j] != ',' {
          if j > 0 { assert t[j] == s[j - 1]; }
        }
      }
      assert t[..i + 1] == " " + s[..i];
      assert t[i + 2..] == s[i + 1..];
  }

  /** The location text is empty iff every part is missing or empty, and splitting it at
      its commas gives back each present part (after the first, behind its space) when
      the parts hold no comma. */
  lemma FormatLocationParts(data: Json)
    requires FormatLocation(data).Some?
    ensures FormatLocation(data).value == "" <==>
      (!Truthy(Get(data, "location")) && !Truthy(Get(data, "state")) && !Truthy(Get(data, "country")))
    ensures var ts := Texts(LocationParts(data)).value;
      |ts| >= 1 && (forall k :: 0 <= k < |ts| ==> NoChar(ts[k], ',')) ==>
        Split(FormatLocation(data).value, ',') == Spaced(ts)
  {
    var xs := [Get(data, "location"), Get(data, "state"), Get(data, "country")];
    var ps := LocationParts(data);
    assert ps == KeepTruthy(xs);
    assert |ps| == 0 <==> !Truthy(xs[0]) && !Truthy(xs[1]) && !Truthy(xs[2]);
    var ts := Texts(ps).value;
    assert forall k :: 0 <= k < |ts| ==> ts[k] != "" by {
      forall k | 0 <= k < |ts| ensures ts[k] != "" { assert Truthy(ps[k]); }
    }
    JoinEmpty(ts);
    if |ts| >= 1 && (forall k :: 0 <= k < |ts| ==> NoChar(ts[k], ',')) {
      SplitJoinComma(ts);
    }
  }

  lemma {:induction false} JoinEmpty(ts: seq<string>)
    requires forall k :: 0 <= k < |ts| ==> ts[k] != ""
    ensures Join(ts, ", ") == "" <==> |ts| == 0
  {
    if |ts| > 1 {
      assert |Join(ts, ", ")| >= |ts[0]|;
    }
  }

  // ---------------------------------------------------------------- tournament record

  /** `get_tournament_data` as written. Neither this class nor m3tacron's `BaseScraper`
      defines `_parse_date`, so reading the date always raises once id and name are read;
      the handler's fallback record names `Format.UNKNOWN`, which `Format` lacks, so the
      call fails for every export. */
  function TournamentDataAsWritten(data: Json, inferred: Option<Format>): (t: Option<Tournament>)
    ensures t.None?
  {
    if !data.JObj? || !Has(data, "id") || !Has(data, "name") then None
    else None
  }

  /** `get_tournament_data` with the date read as the other scrapers' `_parse_date` reads
      it. The supplied inferred format wins; without one the format is OTHER (the export's
      own format id is ignored). `None` is the failure path (a missing id or name, a
      location part that is not text, a participants value without a length). */
  function TournamentData(data: Json, inferred: Option<Format>, today: int,
                          strptime: string -> Option<int>): (t: Option<Tournament>)
    ensures t.Some? <==> (data.JObj? && Has(data, "id") && Has(data, "name") &&
      FormatLocation(data).Some? && Length(GetOr(data, "participants", JList([]))).Some?)
    ensures t.Some? ==> t.value.format == Some(if inferred.Some? then inferred.value else OTHER)
    ensures t.Some? ==> t.value.platform == Platform && t.value.location == FormatLocation(data).value
    ensures t.Some? ==> Length(GetOr(data, "participants", JList([]))) == Some(t.value.playerCount)
    ensures t.Some? ==> t.value.name == Strip(Str(Get(data, "name")))
  {
    if !data.JObj? || !Has(data, "id") || !Has(data, "name") then None
    else
      var loc := FormatLocation(data);
      var count := Length(GetOr(data, "participants", JList([])));
      if loc.None? || count.None? then None
      else
        var fmt := if inferred.Some? then inferred.value else OTHER;
        Some(Tournament(Strip(Str(Get(data, "name"))), Rollbetter.EventDate(Get(data, "date"), today, strptime),
                        loc.value, count.value, "", Platform, Some(fmt)))
  }

  /** An export with only an id and a name: the code as written fails, the corrected
      reading gives a tournament of format OTHER with no players. */
  lemma DateReaderMissing(today: int, strptime: string -> Option<int>)
    ensures TournamentDataAsWritten(JObj([("id", JInt(1)), ("name", JStr("Open"))]), None).None?
    ensures var t := TournamentData(JObj([("id", JInt(1)), ("name", JStr("Open"))]), None, today, strptime);
      t.Some? && t.value.format == Some(OTHER) && t.value.playerCount == 0 && t.value.date == today
  {
    var d := JObj([("id", JInt(1)), ("name", JStr("Open"))]);
    assert Has(d, "id") && Has(d, "name");
    assert LocationParts(d) == [];
  }

  // ---------------------------------------------------------------- matches

  /** A match dict as `get_matches` emits it: the round's number, the sides' names and the
      scores are the export's values as found; the winner name is `None` (`JNull`) when
      the winner id is neither side's. */
  datatype MatchDict = MatchDict(
    roundNumber: Json,
    roundType: RoundType,
    p1Name: Json,
    p2Name: Json,
    player1Score: Json,
    player2Score: Json,
    winnerName: Json)

  /** `{p["id"]: p["name"] for p in participants}` as its entries in order; `None` when the
      comprehension raises (a value that is not iterable, an entry without id or name, an
      unhashable id). */
  function PlayerMap(parts: Json): (r: Option<seq<(Json, Json)>>)
    ensures r.Some? ==> forall i :: 0 <= i < |r.value| ==> Hashable(r.value[i].0)
  {
    match Iter(parts)
    case None => None
    case Some(ps) => Entries(ps)
  }

  function Entries(ps: seq<Json>): (r: Option<seq<(Json, Json)>>)
    ensures r.Some? ==> |r.value| == |ps| && forall i :: 0 <= i < |r.value| ==> Hashable(r.value[i].0)
  {
    if |ps| == 0 then Some([])
    else
      var p := ps[|ps| - 1];
      match Entries(ps[..|ps| - 1])
      case None => None
      case Some(es) =>
        if p.JObj? && Has(p, "id") && Has(p, "name") && Hashable(Get(p, "id"))
        then Some(es + [(Get(p, "id"), Get(p, "name"))])
        else None
  }

  /** `m.get(k, default)` on the comprehension's dict: the last entry with an equal key
      wins. */
  function MapGet(m: seq<(Json, Json)>, k: Json, default: Json): (r: Json)
    ensures (forall i :: 0 <= i < |m| ==> !PyEq(m[i].0, k)) ==> r == default
    ensures (exists i :: 0 <= i < |m| && PyEq(m[i].0, k)) ==>
      exists i :: 0 <= i < |m| && PyEq(m[i].0, k) && r == m[i].1
  {
    if |m| == 0 then default
    else if PyEq(m[|m| - 1].0, k) then m[|m| - 1].1
    else
      var r := MapGet(m[..|m| - 1], k, default);
      assert forall i :: 0 <= i < |m| - 1 ==> m[..|m| - 1][i] == m[i];
      r
  }

  /** `SWISS if r["roundtype_id"] == 1 else ELIMINATION` */
  function RoundTypeOf(r: Json): (t: RoundType)
    ensures t == SWISS <==> PyEq(Get(r, "roundtype_id"), JInt(1))
    ensures t != CUT
  {
    if PyEq(Get(r, "roundtype_id"), JInt(1)) then SWISS else ELIMINATION
  }

  /** One match of a round. `None` when `m.get` or a dict lookup raises (a match that is
      not a dict, an unhashable side id). A side id missing from the participants is named
      "Unknown", except that a falsy player-2 id is named "Bye"; the winner name is the
      first side whose id equals the winner id. */
  function MatchOf(r: Json, rt: RoundType, m: Json, pm: seq<(Json, Json)>): (d: Option<MatchDict>)
    ensures d.Some? <==> m.JObj? && Hashable(Get(m, "player1_id")) && Hashable(Get(m, "player2_id"))
  {
    if !m.JObj? then None
    else
      var p1 := Get(m, "player1_id");
      var p2 := Get(m, "player2_id");
      var w := Get(m, "winner_id");
      if !Hashable(p1) || !Hashable(p2) then None
      else
        var n1 := MapGet(pm, p1, JStr("Unknown"));
        var n2 := MapGet(pm, p2, JStr(if Truthy(p2) then "Unknown" else "Bye"));
        var wn := if PyEq(w, p1) then n1 else if PyEq(w, p2) then n2 else JNull;
        Some(MatchDict(GetOr(r, "round_number", JInt(0)), rt, n1, n2,
                       GetOr(m, "player1_points", JInt(0)), GetOr(m, "player2_points", JInt(0)), wn))
  }

  /** The fields of a match dict: the round's number and type, each side named through
      the participant map with its placeholder, the winner the first side whose id equals
      the winner id, and the scores as found (0 when absent). */
  lemma MatchOfFields(r: Json, rt: RoundType, m: Json, pm: seq<(Json, Json)>)
    requires MatchOf(r, rt, m, pm).Some?
    ensures var d := MatchOf(r, rt, m, pm).value;
      d.roundType == rt && d.roundNumber == GetOr(r, "round_number", JInt(0))
    ensures var d := MatchOf(r, rt, m, pm).value;
      d.p1Name == MapGet(pm, Get(m, "player1_id"), JStr("Unknown"))
    ensures var d := MatchOf(r, rt, m, pm).value;
      d.p2Name == MapGet(pm, Get(m, "player2_id"), JStr(if Truthy(Get(m, "player2_id")) then "Unknown" else "Bye"))
    ensures var d := MatchOf(r, rt, m, pm).value;
      PyEq(Get(m, "winner_id"), Get(m, "player1_id")) ==> d.winnerName == d.p1Name
    ensures var d := MatchOf(r, rt, m, pm).value;
      !PyEq(Get(m, "winner_id"), Get(m, "player1_id")) && PyEq(Get(m, "winner_id"), Get(m, "player2_id")) ==>
        d.winnerName == d.p2Name
    ensures var d := MatchOf(r, rt, m, pm).value;
      !PyEq(Get(m, "winner_id"), Get(m, "player1_id")) && !PyEq(Get(m, "winner_id"), Get(m, "player2_id")) ==>
        d.winnerName == JNull
    ensures var d := MatchOf(r, rt, m, pm).value;
      d.player1Score == GetOr(m, "player1_points", JInt(0)) && d.player2Score == GetOr(m, "player2_points", JInt(0))
  {
  }

  /** A side named in a result is either a participant's name or one of the two
      placeholders, and a winner name, when set, is one side's name. */
  lemma MatchNames(r: Json, rt: RoundType, m: Json, pm: seq<(Json, Json)>)
    requires MatchOf(r, rt, m, pm).Some?
    ensures var d := MatchOf(r, rt, m, pm).value;
      d.winnerName == JNull || d.winnerName == d.p1Name || d.winnerName == d.p2Name
    ensures var d := MatchOf(r, rt, m, pm).value;
      d.p2Name == JStr("Bye") ==> !Truthy(Get(m, "player2_id")) || exists i :: 0 <= i < |pm| && pm[i].1 == JStr("Bye")
  {
  }

  /** A bye recorded without a winner (both ids `None`) names the bye itself as winner,
      unless player 1 is also missing. */
  lemma ByeWithoutWinner(r: Json, rt: RoundType, p1: Json, pm: seq<(Json, Json)>)
    requires Hashable(p1) && !PyEq(JNull, p1)
    requires forall i :: 0 <= i < |pm| ==> !PyEq(pm[i].0, JNull)
    ensures var d := MatchOf(r, rt, JObj([("player1_id", p1)]), pm);
      d.Some? && d.value.p2Name == JStr("Bye") && d.value.winnerName == JStr("Bye")
  {
    var m := JObj([("player1_id", p1)]);
    assert Get(m, "player2_id") == JNull && Get(m, "winner_id") == JNull;
  }

  /** The progress of the loops: the dicts appended so far, and whether no exception has
      ended them. */
  datatype Run = Run(rows: seq<MatchDict>, ok: bool)

  /** The inner loop over a round's matches, stopping at the first match that raises. */
  function ItemRows(r: Json, rt: RoundType, ms: seq<Json>, pm: seq<(Json, Json)>): (run: Run)
    ensures |run.rows| <= |ms|
    ensures run.ok ==> |run.rows| == |ms|
  {
    if |ms| == 0 then Run([], true)
    else
      var prev := ItemRows(r, rt, ms[..|ms| - 1], pm);
      if !prev.ok then prev
      else match MatchOf(r, rt, ms[|ms| - 1], pm)
        case None => Run(prev.rows, false)
        case Some(d) => Run(prev.rows + [d], true)
  }

  /** A round is read without raising: a dict with a round type whose matches value is
      iterable. */
  predicate RoundReadable(r: Json) {
    r.JObj? && Has(r, "roundtype_id") && Iter(GetOr(r, "matches", JList([]))).Some?
  }

  function RoundMatches(r: Json): seq<Json>
    requires RoundReadable(r)
  {
    Iter(GetOr(r, "matches", JList([]))).value
  }

  /** One round: the rows of its matches, or nothing when reading the round raises. */
  function RoundRun(r: Json, pm: seq<(Json, Json)>): (run: Run)
    ensures !RoundReadable(r) ==> run == Run([], false)
  {
    if !RoundReadable(r) then Run([], false)
    else ItemRows(r, RoundTypeOf(r), RoundMatches(r), pm)
  }

  /** The outer loop over the rounds; an exception keeps what was appended before it. */
  function AllRun(rs: seq<Json>, pm: seq<(Json, Json)>): Run {
    if |rs| == 0 then Run([], true)
    else
      var prev := AllRun(rs[..|rs| - 1], pm);
      if !prev.ok then prev
      else
        var q := RoundRun(rs[|rs| - 1], pm);
        Run(prev.rows + q.rows, q.ok)
  }

  /** `get_matches` on an export: nothing for a non-dict, for no rounds, or when the
      participant map cannot be built; else the rows the loops appended before the first
      exception, if any. */
  function GetMatches(data: Json): (r: seq<MatchDict>)
    ensures !data.JObj? || !Truthy(GetOr(data, "rounds", JList([]))) ==> r == []
    ensures Iter(GetOr(data, "rounds", JList([]))).Some? ==> |r| <= MatchCount(Iter(GetOr(data, "rounds", JList([]))).value)
  {
    if !data.JObj? then []
    else
      var rounds := GetOr(data, "rounds", JList([]));
      if !Truthy(rounds) then []
      else match PlayerMap(GetOr(data, "participants", JList([])))
        case None => []
        case Some(pm) =>
          match Iter(rounds)
          case None => []
          case Some(rs) =>
            AllRunCount(rs, pm);
            AllRun(rs, pm).rows
  }

  /** Rows of an earlier prefix of rounds are a prefix of the rows of a longer one: an
      exception only cuts the list short. */
  lemma {:induction false} AllRunPrefix(rs: seq<Json>, k: nat, pm: seq<(Json, Json)>)
    requires k <= |rs|
    ensures AllRun(rs[..k], pm).rows <= AllRun(rs, pm).rows
    ensures !AllRun(rs[..k], pm).ok ==> AllRun(rs, pm) == AllRun(rs[..k], pm)
    decreases |rs| - k
  {
    if k < |rs| {
      var pre := rs[..|rs| - 1];
      assert pre[..k] == rs[..k];
      AllRunPrefix(pre, k, pm);
    } else {
      assert rs[..k] == rs;
    }
  }

  /** The sum of the match counts of readable rounds. */
  function MatchCount(rs: seq<Json>): nat {
    if |rs| == 0 then 0
    else MatchCount(rs[..|rs| - 1]) + (if RoundReadable(rs[|rs| - 1]) then |RoundMatches(rs[|rs| - 1])| else 0)
  }

  /** Never more rows than matches; exactly one row per match when nothing raised. */
  lemma {:induction false} AllRunCount(rs: seq<Json>, pm: seq<(Json, Json)>)
    ensures |AllRun(rs, pm).rows| <= MatchCount(rs)
    ensures AllRun(rs, pm).ok ==> |AllRun(rs, pm).rows| == MatchCount(rs)
  {
    if |rs| > 0 {
      AllRunCount(rs[..|rs| - 1], pm);
    }
  }

  /** Every row carries the number and type of one of the rounds. */
  lemma {:induction false} AllRunFromRounds(rs: seq<Json>, pm: seq<(Json, Json)>)
    ensures forall d :: d in AllRun(rs, pm).rows ==>
      exists i :: 0 <= i < |rs| && d.roundType == RoundTypeOf(rs[i]) &&
        d.roundNumber == GetOr(rs[i], "round_number", JInt(0))
  {
    if |rs| > 0 {
      var pre := rs[..|rs| - 1];
      var last := rs[|rs| - 1];
      AllRunFromRounds(pre, pm);
      var prev := AllRun(pre, pm);
      if prev.ok {
        forall d | d in RoundRun(last, pm).rows
          ensures d.roundType == RoundTypeOf(last) && d.roundNumber == GetOr(last, "round_number", JInt(0))
        {
          ItemRowsOfRound(last, RoundTypeOf(last), RoundMatches(last), pm);
        }
      }
      forall d | d in AllRun(rs, pm).rows
        ensures exists i :: (0 <= i < |rs| && d.roundType == RoundTypeOf(rs[i]) &&
          d.roundNumber == GetOr(rs[i], "round_number", JInt(0)))
      {
        if d in prev.rows {
          var i :| 0 <= i < |pre| && d.roundType == RoundTypeOf(pre[i]) &&
            d.roundNumber == GetOr(pre[i], "round_number", JInt(0));
          assert pre[i] == rs[i];
        } else {
          assert rs[|rs| - 1] == last;
        }
      }
    }
  }

  lemma {:induction false} ItemRowsOfRound(r: Json, rt: RoundType, ms: seq<Json>, pm: seq<(Json, Json)>)
    ensures forall d :: d in ItemRows(r, rt, ms, pm).rows ==>
      d.roundType == rt && d.roundNumber == GetOr(r, "round_number", JInt(0))
  {
    if |ms| > 0 {
      ItemRowsOfRound(r, rt, ms[..|ms| - 1], pm);
    }
  }

  /** `get_matches`: the early exits, then the loops. */
  method ReadMatches(data: Json) returns (rows: seq<MatchDict>)
    ensures rows == GetMatches(data)
  {
    if !data.JObj? {
      return [];
    }
    var rounds := GetOr(data, "rounds", JList([]));
    if !Truthy(rounds) {
      return [];
    }
    var pm := PlayerMap(GetOr(data, "participants", JList([])));
    var rs := Iter(rounds);
    if pm.None? || rs.None? {
      return [];
    }
    rows := CollectMatches(rs.value, pm.value);
  }

  /** `get_matches` after the export is read: the nested loops over rounds and matches,
      leaving them at the first exception. */
  method CollectMatches(rs: seq<Json>, pm: seq<(Json, Json)>) returns (rows: seq<MatchDict>)
    ensures rows == AllRun(rs, pm).rows
  {
    rows := [];
    var i := 0;
    var ok := true;
    while i < |rs| && ok
      invariant 0 <= i <= |rs|
      invariant AllRun(rs[..i], pm) == Run(rows, ok)
      invariant !ok ==> AllRun(rs, pm) == Run(rows, ok)
    {
      assert rs[..i + 1][..i] == rs[..i];
      var r := rs[i];
      if !RoundReadable(r) {
        assert rows + [] == rows;
        ok := false;
      } else {
        var more, done := RoundRows(r, RoundTypeOf(r), RoundMatches(r), pm);
        rows := rows + more;
        ok := done;
      }
      i := i + 1;
      if !ok {
        AllRunPrefix(rs, i, pm);
      }
    }
    if ok {
      assert rs[..i] == rs;
    }
  }

  /** The inner loop over one round's matches. */
  method RoundRows(r: Json, rt: RoundType, ms: seq<Json>, pm: seq<(Json, Json)>)
    returns (rows: seq<MatchDict>, ok: bool)
    ensures ItemRows(r, rt, ms, pm) == Run(rows, ok)
  {
    rows := [];
    ok := true;
    var j := 0;
    while j < |ms| && ok
      invariant 0 <= j <= |ms|
      invariant ItemRows(r, rt, ms[..j], pm) == Run(rows, ok)
    {
      ItemRowsStep(r, rt, ms, j, pm);
      var d := MatchOf(r, rt, ms[j], pm);
      if d.None? {
        ok := false;
      } else {
        rows := rows + [d.value];
      }
      j := j + 1;
    }
    if ok {
      assert ms[..j] == ms;
    } else {
      ItemRowsStops(r, rt, ms, j, pm);
    }
  }

  /** One more match: the step of the inner loop. */
  lemma ItemRowsStep(r: Json, rt: RoundType, ms: seq<Json>, j: nat, pm: seq<(Json, Json)>)
    requires j < |ms| && ItemRows(r, rt, ms[..j], pm).ok
    ensures ItemRows(r, rt, ms[..j + 1], pm) ==
      (match MatchOf(r, rt, ms[j], pm)
       case None => Run(ItemRows(r, rt, ms[..j], pm).rows, false)
       case Some(d) => Run(ItemRows(r, rt, ms[..j], pm).rows + [d], true))
  {
    assert ms[..j + 1][..j] == ms[..j];
  }

  /** Once a match raises, later matches change nothing. */
  lemma {:induction false} ItemRowsStops(r: Json, rt: RoundType, ms: seq<Json>, k: nat, pm: seq<(Json, Json)>)
    requires k <= |ms|
    requires !ItemRows(r, rt, ms[..k], pm).ok
    ensures ItemRows(r, rt, ms, pm) == ItemRows(r, rt, ms[..k], pm)
    decreases |ms| - k
  {
    if k < |ms| {
      var pre := ms[..|ms| - 1];
      assert pre[..k] == ms[..k];
      ItemRowsStops(r, rt, pre, k, pm);
    } else {
      assert ms[..k] == ms;
    }
  }
}
