/** The Rollbetter scraper's reading of a List Fortress style JSON export: the tournament
    header, one result per player entry, and the format guessed from the first lists.
    Matches come from the page and are not part of this reading. */
module Rollbetter {
  import opened Wrappers
  import opened Strings
  import opened Json
  import opened Formats
  import opened Models
  import Sorting

  const Platform: string := "rollbetter"

  /** Where every location-less Rollbetter tournament is placed. */
  const UnknownLocation: string := "Unknown"

  function DefaultName(tid: int): string { "Rollbetter Event " + IntToString(tid) }

  /** The title, unless it is missing or empty or already holds "Rollbetter Event" (as a
      substring of a text, an element of a list or a key of a dict). `None` stands for
      a truthy title on which `in` raises: a number or a boolean. */
  function EventName(title: Json, tid: int): (r: Option<Json>)
    ensures !Truthy(title) ==> r == Some(JStr(DefaultName(tid)))
    ensures title.JStr? ==>
      r == Some(if title.s == "" || Contains(title.s, "Rollbetter Event") then JStr(DefaultName(tid)) else title)
    ensures Truthy(title) && InJson("Rollbetter Event", title) == Ok(true) ==> r == Some(JStr(DefaultName(tid)))
    ensures Truthy(title) && InJson("Rollbetter Event", title) == Ok(false) ==> r == Some(title)
    ensures r.None? <==> Truthy(title) && !(title.JStr? || title.JList? || title.JObj?)
  {
    if !Truthy(title) then Some(JStr(DefaultName(tid)))
    else match InJson("Rollbetter Event", title)
      case Err(_) => None
      case Ok(generic) => if generic then Some(JStr(DefaultName(tid))) else Some(title)
  }

  /** A list title is kept unless "Rollbetter Event" is one of its elements: a longer
      element that merely contains it does not count. */
  lemma ListTitleKept(tid: int)
    ensures EventName(JList([JStr("Rollbetter Event 7")]), tid) == Some(JList([JStr("Rollbetter Event 7")]))
    ensures EventName(JList([JStr("Rollbetter Event")]), tid) == Some(JStr(DefaultName(tid)))
    ensures EventName(JInt(3), tid) == None
  {
    assert JStr("Rollbetter Event") != JStr("Rollbetter Event 7");
  }

  /** The event day: the "date" text read by `strptime`, or today when it is missing,
      not text or not a date. */
  function EventDate(date: Json, today: int, strptime: string -> Option<int>): (d: int)
    ensures !Truthy(date) || !date.JStr? ==> d == today
    ensures Truthy(date) && date.JStr? && strptime(date.s).Some? ==> d == strptime(date.s).value
  {
    if Truthy(date) && date.JStr? then strptime(date.s).GetOr(today) else today
  }

  /** `players or participants or standings`, each defaulting to an empty list. */
  function PlayersJson(data: Json): Json {
    Or(Or(GetOr(data, "players", JList([])), GetOr(data, "participants", JList([]))),
       GetOr(data, "standings", JList([])))
  }

  /** The player list is the first non-empty of the three keys. */
  lemma PlayersJsonChoice(data: Json)
    ensures Truthy(GetOr(data, "players", JList([]))) ==> PlayersJson(data) == GetOr(data, "players", JList([]))
    ensures !Truthy(GetOr(data, "players", JList([]))) && Truthy(GetOr(data, "participants", JList([]))) ==>
      PlayersJson(data) == GetOr(data, "participants", JList([]))
    ensures !Truthy(GetOr(data, "players", JList([]))) && !Truthy(GetOr(data, "participants", JList([]))) ==>
      PlayersJson(data) == GetOr(data, "standings", JList([]))
  {
  }

  /** `safe_int(v, default)`: `None` gives the default, `int(v)` is used when it works,
      and anything `int` refuses gives the default. */
  function SafeInt(v: Json, default: int): (r: int)
    ensures v.JNull? ==> r == default
    ensures v.JInt? ==> r == v.i
    ensures v.JStr? ==> r == ParseInt(v.s).GetOr(default)
    ensures v.JList? || v.JObj? ==> r == default
  {
    if v.JNull? then default else IntOr(v, default)
  }

  /** A rank object `{"swiss": …, "elimination": …}` gives its swiss entry, else its
      elimination entry, else 0; any other rank is read by `safe_int` with default 0. */
  function RankOf(rank: Json): int {
    if rank.JObj? then SafeInt(GetOr(rank, "swiss", GetOr(rank, "elimination", JInt(0))), 0)
    else SafeInt(rank, 0)
  }

  lemma RankRules(rank: Json)
    ensures rank.JInt? ==> RankOf(rank) == rank.i
    ensures rank.JObj? && Lookup(rank.fields, "swiss") == Some(JInt(1)) ==> RankOf(rank) == 1
    ensures rank.JObj? && Lookup(rank.fields, "swiss").None? ==>
      RankOf(rank) == SafeInt(GetOr(rank, "elimination", JInt(0)), 0)
    ensures rank.JObj? && Lookup(rank.fields, "swiss").None? && Lookup(rank.fields, "elimination").None? ==>
      RankOf(rank) == 0
    ensures rank.JStr? && ParseInt(rank.s).None? ==> RankOf(rank) == 0
    ensures rank.JNull? ==> RankOf(rank) == 0
  {
  }

  /** `player.get("name", "Unknown")`, a non-text name read by `str`. */
  function NameOf(p: Json): string {
    var v := GetOr(p, "name", JStr("Unknown"));
    if v.JStr? then v.s else Str(v)
  }

  /** A player's list: a text is parsed (an empty text or a failed parse gives `{}`), an
      object is used as it is, anything else gives `{}`. */
  function ListOf(raw: Json, parse: string -> Option<Json>): (r: Json)
    ensures raw.JObj? ==> r == raw
    ensures !raw.JObj? && !raw.JStr? ==> r == JObj([])
  {
    match raw
    case JStr(s) => if Strip(s) != "" then parse(s).GetOr(JObj([])) else JObj([])
    case JObj(_) => raw
    case _ => JObj([])
  }

  /** "points", else "tournament_points", else -1. */
  function Points(p: Json): int {
    SafeInt(Get(p, "points"), SafeInt(Get(p, "tournament_points"), -1))
  }

  /** A player entry's result as the source writes it. The points are passed to
      `PlayerResult` as `swiss_points`, which the record does not have, so they are not
      kept: the event points stay at their default. */
  function ResultAsWritten(p: Json, tid: int, parse: string -> Option<Json>): (r: PlayerResult)
    ensures r.swissEventPoints.None?
  {
    NewPlayerResult(tid, NameOf(p), None).(
      swissRank := RankOf(Get(p, "rank")),
      swissWins := SafeInt(Get(p, "wins"), -1),
      swissLosses := SafeInt(Get(p, "losses"), -1),
      swissDraws := SafeInt(Get(p, "draws"), 0),
      listJson := ListOf(GetOr(p, "list", JObj([])), parse))
  }

  /** A player entry's result with its points kept as swiss event points. */
  function ResultOf(p: Json, tid: int, parse: string -> Option<Json>): (r: PlayerResult)
    ensures r.swissEventPoints == Some(Points(p))
  {
    ResultAsWritten(p, tid, parse).(swissEventPoints := Some(Points(p)))
  }

  /** Missing counters keep the placeholders -1/-1 for wins and losses and 0 for draws,
      and the points fall back from "points" to "tournament_points" to -1. */
  lemma ResultDefaults(p: Json, tid: int, parse: string -> Option<Json>)
    requires p.JObj?
    ensures var r := ResultOf(p, tid, parse);
      (Lookup(p.fields, "wins").None? ==> r.swissWins == -1) &&
      (Lookup(p.fields, "losses").None? ==> r.swissLosses == -1) &&
      (Lookup(p.fields, "draws").None? ==> r.swissDraws == 0) &&
      (Lookup(p.fields, "points").None? && Lookup(p.fields, "tournament_points").None? ==>
        r.swissEventPoints == Some(-1)) &&
      (Lookup(p.fields, "points").None? && Lookup(p.fields, "tournament_points") == Some(JInt(7)) ==>
        r.swissEventPoints == Some(7)) &&
      r.playerName == NameOf(p) && r.tournamentId == tid
  {
  }

  /** An entry with 5 points: the source drops them, the corrected reading keeps them. */
  lemma PointsLost(tid: int, parse: string -> Option<Json>)
    ensures ResultAsWritten(JObj([("points", JInt(5))]), tid, parse).swissEventPoints == None
    ensures ResultOf(JObj([("points", JInt(5))]), tid, parse).swissEventPoints == Some(5)
  {
    var p := JObj([("points", JInt(5))]);
    assert Get(p, "points") == JInt(5);
  }

  /** How many entries precede the first one that is not an object. */
  function LeadingObjects(s: seq<Json>): (n: nat)
    ensures n <= |s|
    ensures forall i :: 0 <= i < n ==> s[i].JObj?
    ensures n < |s| ==> !s[n].JObj?
  {
    if |s| > 0 && s[0].JObj? then
      var m := LeadingObjects(s[1..]);
      assert forall i :: 1 <= i < m + 1 ==> s[i] == s[1..][i - 1];
      1 + m
    else 0
  }

  /** The results of the players loop. An entry that is not an object ends the loop by
      an AttributeError, which the surrounding `try` swallows, keeping the results so
      far; a player value that is not a list yields none. */
  function Results(players: Json, tid: int, parse: string -> Option<Json>): (rs: seq<PlayerResult>)
    ensures players.JList? ==> |rs| == LeadingObjects(players.items)
    ensures players.JList? ==> forall i :: 0 <= i < |rs| ==> rs[i] == ResultOf(players.items[i], tid, parse)
    ensures !players.JList? ==> rs == []
  {
    match players
    case JList(xs) =>
      var n := LeadingObjects(xs);
      seq(n, i requires 0 <= i < n => ResultOf(xs[i], tid, parse))
    case _ => []
  }

  /** The players loop: one result per entry, up to the first entry that is not an
      object. */
  method ParsePlayers(players: seq<Json>, tid: int, parse: string -> Option<Json>) returns (rs: seq<PlayerResult>)
    ensures rs == Results(JList(players), tid, parse)
  {
    rs := MapLeading(players, p => ResultOf(p, tid, parse));
    var expected := Results(JList(players), tid, parse);
    assert |expected| == |rs|;
    assert forall i :: 0 <= i < |rs| ==> expected[i] == rs[i];
  }

  method MapLeading<T>(xs: seq<Json>, f: Json -> T) returns (rs: seq<T>)
    ensures |rs| == LeadingObjects(xs)
    ensures forall i :: 0 <= i < |rs| ==> rs[i] == f(xs[i])
  {
    rs := [];
    var k := 0;
    while k < |xs| && xs[k].JObj?
      invariant 0 <= k <= |xs|
      invariant forall i :: 0 <= i < k ==> xs[i].JObj?
      invariant |rs| == k && forall i :: 0 <= i < k ==> rs[i] == f(xs[i])
    {
      rs := rs + [f(xs[k])];
      k := k + 1;
    }
    assert k == LeadingObjects(xs);
  }

  /** The format of the event: the first inference other than OTHER among the lists that
      are non-empty objects with pilots, else OTHER. `None` is the AttributeError of a
      non-empty list that is not an object, or an inference that raises. */
  function FormatChoice(rs: seq<PlayerResult>): (r: Option<Format>)
    ensures r.Some? && r.value != OTHER ==>
      exists i :: 0 <= i < |rs| && InferFormat(rs[i].listJson) == Some(r.value) && Truthy(Get(rs[i].listJson, "pilots"))
    decreases |rs|
  {
    if |rs| == 0 then Some(OTHER)
    else
      var lj := rs[0].listJson;
      if !Truthy(lj) then FormatChoice(rs[1..])
      else if !lj.JObj? then None
      else if !Truthy(Get(lj, "pilots")) then FormatChoice(rs[1..])
      else match InferFormat(lj)
        case None => None
        case Some(f) =>
          if f != OTHER then Some(f)
          else
            var r := FormatChoice(rs[1..]);
            assert r.Some? && r.value != OTHER ==>
              exists i :: 1 <= i < |rs| && InferFormat(rs[i].listJson) == Some(r.value) && Truthy(Get(rs[i].listJson, "pilots")) by {
              if r.Some? && r.value != OTHER {
                var i :| 0 <= i < |rs[1..]| && InferFormat(rs[1..][i].listJson) == Some(r.value) && Truthy(Get(rs[1..][i].listJson, "pilots"));
                assert rs[1..][i] == rs[i + 1];
              }
            }
            r
  }

  /** With no list carrying pilots, the format is OTHER. */
  lemma {:induction false} NoPilotsOther(rs: seq<PlayerResult>)
    requires forall i :: 0 <= i < |rs| ==> rs[i].listJson.JObj? || !Truthy(rs[i].listJson)
    requires forall i :: 0 <= i < |rs| ==> !Truthy(Get(rs[i].listJson, "pilots"))
    ensures FormatChoice(rs) == Some(OTHER)
    decreases |rs|
  {
    if |rs| > 0 {
      assert forall i :: 0 <= i < |rs[1..]| ==> rs[1..][i] == rs[i + 1];
      NoPilotsOther(rs[1..]);
    }
  }

  /** The players looked at for the format: the first ten. */
  function First10(rs: seq<PlayerResult>): (r: seq<PlayerResult>)
    ensures |r| == if |rs| < 10 then |rs| else 10
    ensures r == rs[..|r|]
  {
    Sorting.Take(rs, 10)
  }

  method ChooseFormat(rs: seq<PlayerResult>) returns (f: Option<Format>)
    ensures f == FormatChoice(First10(rs))
  {
    var head := First10(rs);
    f := Some(OTHER);
    var k := 0;
    while k < |head|
      invariant 0 <= k <= |head|
      invariant FormatChoice(head) == FormatChoice(head[k..])
      decreases |head| - k
    {
      assert head[k..][1..] == head[k + 1..];
      var lj := head[k].listJson;
      if Truthy(lj) {
        if !lj.JObj? {
          return None;
        }
        if Truthy(Get(lj, "pilots")) {
          var inferred := InferFormat(lj);
          if inferred.None? {
            return None;
          }
          if inferred.value != OTHER {
            return inferred;
          }
        }
      }
      k := k + 1;
    }
    assert head[k..] == [];
  }

  /** A parsed export: the tournament, its results and its matches. */
  datatype ParsedEvent = ParsedEvent(tournament: Tournament, players: seq<PlayerResult>, matches: seq<MatchRow>)

  /** The loop ahead of the `try`, which calls `.get` on every entry of the player value:
      it gets through only when every entry is an object. Iterating a text yields its
      characters and a dict its keys, so only an empty one of either gets through. */
  predicate PreLoopPasses(players: Json) {
    match players
    case JList(xs) => forall i :: 0 <= i < |xs| ==> xs[i].JObj?
    case JStr(s) => s == ""
    case JObj(fs) => fs == []
    case _ => false
  }

  /** The unguarded loop over a player list: true when no entry makes `.get` raise. */
  method PreLoop(players: seq<Json>) returns (ok: bool)
    ensures ok <==> PreLoopPasses(JList(players))
  {
    var k := 0;
    while k < |players|
      invariant 0 <= k <= |players|
      invariant forall i :: 0 <= i < k ==> players[i].JObj?
    {
      if !players[k].JObj? {
        return false;
      }
      k := k + 1;
    }
    return true;
  }

  /** `_parse_from_json_v2`. `None` is an exception that escapes it: a truthy title that
      is a number or a boolean, a player value without a length, an entry that is not an
      object (the loop ahead of the `try`), or a format inference that fails. The name is
      held as the title's text. */
  function ParseFromJsonV2(data: Json, tid: int, url: string, today: int,
                           strptime: string -> Option<int>, parse: string -> Option<Json>): (r: Option<ParsedEvent>)
    ensures !PreLoopPasses(PlayersJson(data)) ==> r.None?
    ensures EventName(Get(data, "title"), tid).None? ==> r.None?
    ensures r.Some? ==> r.value.matches == []
    ensures r.Some? ==> Length(PlayersJson(data)) == Some(r.value.tournament.playerCount)
    ensures r.Some? ==> |r.value.players| == r.value.tournament.playerCount
    ensures r.Some? ==> r.value.players == Results(PlayersJson(data), tid, parse)
    ensures r.Some? ==> r.value.tournament.format == FormatChoice(First10(r.value.players))
    ensures r.Some? ==>
      EventName(Get(data, "title"), tid).Some? &&
      r.value.tournament.name == Str(EventName(Get(data, "title"), tid).value)
  {
    var name := EventName(Get(data, "title"), tid);
    var players := PlayersJson(data);
    var count := Length(players);
    if name.None? || count.None? || !PreLoopPasses(players) then None
    else
      var rs := Results(players, tid, parse);
      assert |rs| == count.value by {
        if players.JList? {
          assert LeadingObjects(players.items) == |players.items|;
        }
      }
      match FormatChoice(First10(rs))
      case None => None
      case Some(f) =>
        var date := EventDate(GetOr(data, "date", JStr("")), today, strptime);
        Some(ParsedEvent(Tournament(Str(name.value), date, UnknownLocation, count.value, url, Platform, Some(f)), rs, []))
  }

  /** A player list with a number among its entries: the loop ahead of the `try` raises,
      although the first entry alone would have been read. */
  lemma NonObjectEntryRaises(tid: int, url: string, today: int,
                             strptime: string -> Option<int>, parse: string -> Option<Json>)
    ensures ParseFromJsonV2(JObj([("players", JList([JObj([("name", JStr("A"))]), JInt(5)]))]),
                            tid, url, today, strptime, parse) == None
    ensures Results(JList([JObj([("name", JStr("A"))]), JInt(5)]), tid, parse) != []
  {
    var players := JList([JObj([("name", JStr("A"))]), JInt(5)]);
    var data := JObj([("players", players)]);
    assert GetOr(data, "players", JList([])) == players;
    assert PlayersJson(data) == players;
    assert !players.items[1].JObj?;
    assert LeadingObjects(players.items) >= 1;
  }

  /** A truthy dict or text as the player value: its keys or characters are not objects. */
  lemma NonListPlayersRaise(data: Json, tid: int, url: string, today: int,
                            strptime: string -> Option<int>, parse: string -> Option<Json>)
    requires PlayersJson(data).JObj? || PlayersJson(data).JStr?
    requires Truthy(PlayersJson(data))
    ensures ParseFromJsonV2(data, tid, url, today, strptime, parse) == None
  {
  }
}
