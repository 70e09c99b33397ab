/** The newer Rollbetter scraper's reading of a List Fortress export: the tournament,
    its results, and one match row per match of every round, with both sides and the
    winner attached by name through the export's own player ids. */
module RollbetterV2 {
  import opened Wrappers
  import opened Json
  import opened Formats
  import opened Models
  import Rollbetter
  import BaseScraper

  /** `data.get("title", "Rollbetter Event {tid}")`; a title that is not text is read by
      `str`. */
  function EventName(data: Json, tid: int): string {
    var v := GetOr(data, "title", JStr(Rollbetter.DefaultName(tid)));
    if v.JStr? then v.s else Str(v)
  }

  /** The "date" text read by `strptime`, today when it is missing or not a date. */
  function EventDate(data: Json, today: int, strptime: string -> Option<int>): (d: int)
    ensures !GetOr(data, "date", JStr("")).JStr? ==> d == today
  {
    match GetOr(data, "date", JStr(""))
    case JStr(s) => strptime(s).GetOr(today)
    case _ => today
  }

  /** A result together with the export's id of its player (`temp_lf_id`). */
  datatype Participant = Participant(result: PlayerResult, lfId: Json)

  /** A player entry's result. `rank` and `points_at_event` are passed to `PlayerResult`
      under names it does not have and are not kept; the swiss rank comes from
      "swiss_rank", 0 when absent. */
  function ParticipantOf(p: Json, tid: int, parse: string -> Option<Json>): (r: Participant)
    ensures r.result.playerName == Rollbetter.NameOf(p) && r.result.tournamentId == tid
    ensures r.result.swissRank == IntOr(GetOr(p, "swiss_rank", JInt(0)), 0)
    ensures r.result.swissWins == -1 && r.result.swissLosses == -1 && r.result.swissDraws == 0
    ensures r.lfId == Get(p, "id")
  {
    var pr := NewPlayerResult(tid, Rollbetter.NameOf(p), None).(
      swissRank := IntOr(GetOr(p, "swiss_rank", JInt(0)), 0),
      listJson := Rollbetter.ListOf(GetOr(p, "list", JObj([])), parse));
    Participant(pr, Get(p, "id"))
  }

  /** The "rank" entry has no effect on the result. */
  lemma RankNotStored(p: Json, rank: Json, tid: int, parse: string -> Option<Json>)
    requires p.JObj? && p.fields != [] && p.fields[0].0 == "rank"
    ensures ParticipantOf(JObj([("rank", rank)] + p.fields[1..]), tid, parse) == ParticipantOf(p, tid, parse)
  {
    var q := JObj([("rank", rank)] + p.fields[1..]);
    forall k | k != "rank" ensures Lookup(q.fields, k) == Lookup(p.fields, k) {
      assert q.fields[1..] == p.fields[1..];
    }
  }

  /** The players loop; an entry that is not an object raises (`None`). */
  function Participants(players: seq<Json>, tid: int, parse: string -> Option<Json>): (r: Option<seq<Participant>>)
    ensures r.Some? <==> forall i :: 0 <= i < |players| ==> players[i].JObj?
    ensures r.Some? ==> |r.value| == |players|
    ensures r.Some? ==> forall i :: 0 <= i < |players| ==> r.value[i] == ParticipantOf(players[i], tid, parse)
  {
    if forall i :: 0 <= i < |players| ==> players[i].JObj? then
      Some(seq(|players|, i requires 0 <= i < |players| => ParticipantOf(players[i], tid, parse)))
    else None
  }

  function ResultsOf(ps: seq<Participant>): (rs: seq<PlayerResult>)
    ensures |rs| == |ps| && forall i :: 0 <= i < |ps| ==> rs[i] == ps[i].result
  {
    seq(|ps|, i requires 0 <= i < |ps| => ps[i].result)
  }

  /** The first participant whose export id equals `id`. */
  function FindById(ps: seq<Participant>, id: Json): (r: Option<nat>)
    ensures r.Some? ==> r.value < |ps| && ps[r.value].lfId == id
    ensures r.Some? ==> forall j :: 0 <= j < r.value ==> ps[j].lfId != id
    ensures r.None? ==> forall j :: 0 <= j < |ps| ==> ps[j].lfId != id
    decreases |ps|
  {
    if |ps| == 0 then None
    else if ps[0].lfId == id then Some(0)
    else match FindById(ps[1..], id)
      case None => None
      case Some(i) => Some(i + 1)
  }

  /** A side's id, under either spelling of the key. */
  function SideId(md: Json, dashed: string, underscored: string): Json {
    Or(Get(md, dashed), Get(md, underscored))
  }

  function RoundTypeOf(r: Json): (t: RoundType)
    ensures t == CUT <==> Get(r, "round-type") == JStr("elimination")
    ensures t != ELIMINATION
  {
    if Get(r, "round-type") == JStr("elimination") then CUT else SWISS
  }

  function NameById(ps: seq<Participant>, id: Json): string {
    match FindById(ps, id)
    case None => ""
    case Some(i) => ps[i].result.playerName
  }

  /** One match of round `idx` (0-based). A side's name is attached only when its id is a
      participant's; the winner's name only when the winner id equals a found side's id,
      player 1 first; a match without a player-2 id is a bye. */
  function MatchOf(idx: nat, rt: RoundType, md: Json, ps: seq<Participant>): (m: MatchRow)
    ensures m.roundNumber == idx + 1 && m.roundType == rt
    ensures m.isBye <==> SideId(md, "player2-id", "player2_id") == JNull
    ensures FindById(ps, SideId(md, "player1-id", "player1_id")).None? ==> m.p1Name == ""
    ensures FindById(ps, SideId(md, "player2-id", "player2_id")).None? ==> m.p2Name == ""
    ensures m.winnerName != "" ==>
      (m.winnerName == m.p1Name && FindById(ps, SideId(md, "player1-id", "player1_id")).Some? &&
       SideId(md, "winner-id", "winner_id") == SideId(md, "player1-id", "player1_id")) ||
      (m.winnerName == m.p2Name && FindById(ps, SideId(md, "player2-id", "player2_id")).Some? &&
       SideId(md, "winner-id", "winner_id") == SideId(md, "player2-id", "player2_id"))
  {
    var p1id := SideId(md, "player1-id", "player1_id");
    var p2id := SideId(md, "player2-id", "player2_id");
    var wid := SideId(md, "winner-id", "winner_id");
    var p1 := FindById(ps, p1id);
    var p2 := FindById(ps, p2id);
    var n1 := NameById(ps, p1id);
    var n2 := NameById(ps, p2id);
    var winner := if wid == p1id && p1.Some? then n1 else if wid == p2id && p2.Some? then n2 else "";
    MatchRow(idx + 1, rt, "", n1, n2, winner,
             IntOr(GetOr(md, "player1_points", JInt(0)), 0), IntOr(GetOr(md, "player2_points", JInt(0)), 0),
             p2id == JNull)
  }

  /** A winner id equal to player 1's, with player 1 known under a non-empty name, is a
      player 1 win for the standings computation. */
  lemma WinnerIdIsP1Win(idx: nat, rt: RoundType, md: Json, ps: seq<Participant>)
    requires FindById(ps, SideId(md, "player1-id", "player1_id")).Some?
    requires SideId(md, "winner-id", "winner_id") == SideId(md, "player1-id", "player1_id")
    requires NameById(ps, SideId(md, "player1-id", "player1_id")) != ""
    ensures BaseScraper.Outcome(MatchOf(idx, rt, md, ps)) == BaseScraper.P1Win
  {
  }

  /** The matches of one round; `None` when the round, its match list or a match is not
      of the expected shape. */
  function RoundRows(idx: nat, r: Json, ps: seq<Participant>): (rows: Option<seq<MatchRow>>)
    ensures rows.Some? ==> forall j :: 0 <= j < |rows.value| ==>
      rows.value[j].roundNumber == idx + 1 && rows.value[j].roundType == RoundTypeOf(r)
  {
    if !r.JObj? then None
    else match GetOr(r, "matches", JList([]))
      case JList(ms) =>
        if forall j :: 0 <= j < |ms| ==> ms[j].JObj? then
          Some(seq(|ms|, j requires 0 <= j < |ms| => MatchOf(idx, RoundTypeOf(r), ms[j], ps)))
        else None
      case _ => None
  }

  /** The rows of all rounds, round by round. */
  function AllRows(rounds: seq<Json>, ps: seq<Participant>): Option<seq<MatchRow>>
    decreases |rounds|
  {
    if |rounds| == 0 then Some([])
    else
      var n := |rounds| - 1;
      match AllRows(rounds[..n], ps)
      case None => None
      case Some(prev) =>
        match RoundRows(n, rounds[n], ps)
        case None => None
        case Some(rows) => Some(prev + rows)
  }

  /** Every row's round number names one of the rounds. */
  lemma {:induction false} AllRowsNumbered(rounds: seq<Json>, ps: seq<Participant>)
    ensures AllRows(rounds, ps).Some? ==>
      forall j :: 0 <= j < |AllRows(rounds, ps).value| ==> 1 <= AllRows(rounds, ps).value[j].roundNumber <= |rounds|
    decreases |rounds|
  {
    if |rounds| > 0 {
      var n := |rounds| - 1;
      AllRowsNumbered(rounds[..n], ps);
    }
  }

  /** `_parse_from_json`; `None` is an exception escaping it. */
  function ParseFromJson(data: Json, tid: int, url: string, location: string, today: int,
                         strptime: string -> Option<int>, parse: string -> Option<Json>): (r: Option<Rollbetter.ParsedEvent>)
    ensures r.Some? ==> Length(GetOr(data, "players", JList([]))) == Some(r.value.tournament.playerCount)
    ensures r.Some? ==> r.value.tournament.format == Rollbetter.FormatChoice(Rollbetter.First10(r.value.players))
    ensures r.Some? ==> r.value.tournament.name == EventName(data, tid)
  {
    var pj := GetOr(data, "players", JList([]));
    var rj := GetOr(data, "rounds", JList([]));
    if !pj.JList? || !rj.JList? then None
    else
      var players := pj.items;
      var rounds := rj.items;
      match Participants(players, tid, parse)
      case None => None
      case Some(ps) =>
        match AllRows(rounds, ps)
        case None => None
        case Some(rows) =>
          var rs := ResultsOf(ps);
          match Rollbetter.FormatChoice(Rollbetter.First10(rs))
          case None => None
          case Some(f) =>
            var t := Tournament(EventName(data, tid), EventDate(data, today, strptime), location, |players|, url,
                                Rollbetter.Platform, Some(f));
            Some(Rollbetter.ParsedEvent(t, rs, rows))
  }

  /** A loop over entries that must all be objects, applying `f` to each; the first
      entry that is not an object raises (`None`). */
  method MapObjects<T>(xs: seq<Json>, f: Json -> T) returns (r: Option<seq<T>>)
    ensures r.Some? <==> forall i :: 0 <= i < |xs| ==> xs[i].JObj?
    ensures r.Some? ==> |r.value| == |xs| && forall i :: 0 <= i < |xs| ==> r.value[i] == f(xs[i])
  {
    var out: seq<T> := [];
    var k := 0;
    while k < |xs|
      invariant 0 <= k <= |xs|
      invariant forall i :: 0 <= i < k ==> xs[i].JObj?
      invariant |out| == k && forall i :: 0 <= i < k ==> out[i] == f(xs[i])
    {
      if !xs[k].JObj? {
        return None;
      }
      out := out + [f(xs[k])];
      k := k + 1;
    }
    r := Some(out);
  }

  /** The players loop. */
  method ParseParticipants(players: seq<Json>, tid: int, parse: string -> Option<Json>) returns (r: Option<seq<Participant>>)
    ensures r == Participants(players, tid, parse)
  {
    r := MapObjects(players, p => ParticipantOf(p, tid, parse));
    if r.Some? {
      assert r.value == Participants(players, tid, parse).value;
    }
  }

  /** The matches loop of one round. */
  method ParseRound(idx: nat, round: Json, ps: seq<Participant>) returns (r: Option<seq<MatchRow>>)
    ensures r == RoundRows(idx, round, ps)
  {
    if !round.JObj? {
      return None;
    }
    var rt := RoundTypeOf(round);
    var matches := GetOr(round, "matches", JList([]));
    if !matches.JList? {
      return None;
    }
    r := MapObjects(matches.items, md => MatchOf(idx, rt, md, ps));
    if r.Some? {
      assert r.value == RoundRows(idx, round, ps).value;
    }
  }

  /** The rounds loop. */
  method ParseRounds(rounds: seq<Json>, ps: seq<Participant>) returns (r: Option<seq<MatchRow>>)
    ensures r == AllRows(rounds, ps)
  {
    var rows: seq<MatchRow> := [];
    var k := 0;
    while k < |rounds|
      invariant 0 <= k <= |rounds|
      invariant AllRows(rounds[..k], ps) == Some(rows)
    {
      assert rounds[..k + 1][..k] == rounds[..k];
      var these := ParseRound(k, rounds[k], ps);
      if these.None? {
        AllRowsNoneExtends(rounds, k + 1, ps);
        return None;
      }
      rows := rows + these.value;
      k := k + 1;
    }
    assert rounds[..|rounds|] == rounds;
    r := Some(rows);
  }

  /** Once a prefix of the rounds fails, so do all the rounds. */
  lemma {:induction false} AllRowsNoneExtends(rounds: seq<Json>, k: nat, ps: seq<Participant>)
    requires k <= |rounds| && AllRows(rounds[..k], ps).None?
    ensures AllRows(rounds, ps).None?
    decreases |rounds| - k
  {
    if k < |rounds| {
      assert rounds[..k + 1][..k] == rounds[..k];
      AllRowsNoneExtends(rounds, k + 1, ps);
    } else {
      assert rounds[..k] == rounds;
    }
  }
}
