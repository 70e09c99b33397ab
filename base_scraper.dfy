/** Helpers shared by every scraper: integer and scenario parsing, and the rebuilding of
    swiss standings (wins, losses, draws, tie-breakers, event points) from match rows. */
module BaseScraper {
  import opened Wrappers
  import opened Strings
  import opened Json
  import opened Formats
  import opened Models

  // ------------------------------------------------------------------ _parse_int

  /** `int(str(val).strip())`, and 0 where that raises. */
  function ParseIntValue(val: Json): (r: int)
    ensures val.JInt? ==> r == val.i
    ensures val.JStr? && ParseInt(val.s).Some? ==> r == ParseInt(val.s).value
    ensures val.JStr? && ParseInt(val.s).None? ==> r == 0
    ensures val.JNull? || val.JBool? || val.JFloat? || val.JList? || val.JObj? ==> r == 0
  {
    IntOfStr(val).GetOr(0)
  }

  /** The text of any integer parses back to that integer. */
  lemma ParseIntValueOfText(n: int)
    ensures ParseIntValue(JStr(IntToString(n))) == n
  {
    ParseIntOfString(n);
  }

  // ------------------------------------------------------------------ _parse_scenario

  /** The lower-cased text with spaces turned into underscores, then stripped, with the
      alternate spelling "assault_the_satellite" mapped onto the enum value. */
  function NormalizeScenarioText(text: string): string {
    var n := Strip(Replace(Lower(text), " ", "_"));
    if Contains(n, "assault_the_satellite") then "assault_at_the_satellite_array" else n
  }

  /** A scenario matches when its spaced name occurs in the lower-cased text or its value
      occurs in the normalised text. A value "unknown" would be skipped; none exists. */
  predicate ScenarioMatches(text: string, s: Scenario) {
    ScenarioValue(s) != "unknown" &&
    (Contains(Lower(text), Replace(ScenarioValue(s), "_", " ")) ||
     Contains(NormalizeScenarioText(text), ScenarioValue(s)))
  }

  /** The first position `i` in `ss` whose scenario matches. */
  function FirstMatching(text: string, ss: seq<Scenario>): (r: Option<nat>)
    ensures r.Some? ==> r.value < |ss| && ScenarioMatches(text, ss[r.value])
    ensures r.Some? ==> forall j :: 0 <= j < r.value ==> !ScenarioMatches(text, ss[j])
    ensures r.None? ==> forall j :: 0 <= j < |ss| ==> !ScenarioMatches(text, ss[j])
  {
    if |ss| == 0 then None
    else if ScenarioMatches(text, ss[0]) then Some(0)
    else match FirstMatching(text, ss[1..])
      case None => None
      case Some(i) => Some(i + 1)
  }

  /** `_parse_scenario`: OTHER_UNKNOWN for empty text; otherwise the first scenario in
      declaration order that matches, and OTHER_UNKNOWN when none does. */
  function ParseScenario(text: string): (r: Scenario)
    ensures text == "" ==> r == OTHER_UNKNOWN
    ensures text != "" && r != OTHER_UNKNOWN ==>
      exists i :: 0 <= i < |AllScenarios| && AllScenarios[i] == r && ScenarioMatches(text, r) &&
        forall j :: 0 <= j < i ==> !ScenarioMatches(text, AllScenarios[j])
    ensures text != "" && r == OTHER_UNKNOWN ==>
      forall j :: 0 <= j < |AllScenarios| - 1 ==> !ScenarioMatches(text, AllScenarios[j])
  {
    if text == "" then OTHER_UNKNOWN
    else match FirstMatching(text, AllScenarios)
      case None => OTHER_UNKNOWN
      case Some(i) => AllScenarios[i]
  }

  // ------------------------------------------------------------------ _compute_stats_from_matches

  /** The key players are looked up by: `name.lower().strip()`. */
  function NameKey(s: string): string { Strip(Lower(s)) }

  /** A player still carrying a placeholder: wins or tie-breaker of -1. */
  predicate Placeholder(p: PlayerResult) {
    p.swissWins == -1 || p.swissTieBreakerPoints == Some(-1)
  }

  predicate NeedsCompute(ps: seq<PlayerResult>) {
    exists i :: 0 <= i < |ps| && Placeholder(ps[i])
  }

  /** `{p.player_name.lower().strip(): p for p in players}`, as indices: a later player
      with the same key replaces an earlier one. */
  function IndexMap(ps: seq<PlayerResult>): (m: map<string, nat>)
    ensures forall k :: k in m ==> m[k] < |ps|
  {
    if |ps| == 0 then map[]
    else IndexMap(ps[..|ps| - 1])[NameKey(ps[|ps| - 1].playerName) := |ps| - 1]
  }

  /** Every player's key is in the map, and it leads to the last player with that key. */
  lemma {:induction false} IndexMapSpec(ps: seq<PlayerResult>)
    ensures forall k :: k in IndexMap(ps) ==> IndexMap(ps)[k] < |ps| && NameKey(ps[IndexMap(ps)[k]].playerName) == k
    ensures forall i :: 0 <= i < |ps| ==> NameKey(ps[i].playerName) in IndexMap(ps)
    ensures forall i :: 0 <= i < |ps| ==> i <= IndexMap(ps)[NameKey(ps[i].playerName)]
  {
    if |ps| > 0 {
      var n := |ps| - 1;
      var init := ps[..n];
      IndexMapSpec(init);
      var m0 := IndexMap(init);
      var key := NameKey(ps[n].playerName);
      var m := IndexMap(ps);
      assert m == m0[key := n];
      forall k | k in m
        ensures m[k] < |ps| && NameKey(ps[m[k]].playerName) == k
      {
        if k != key {
          assert m[k] == m0[k];
          assert init[m0[k]] == ps[m0[k]];
        }
      }
      forall i | 0 <= i < |ps|
        ensures NameKey(ps[i].playerName) in m && i <= m[NameKey(ps[i].playerName)]
      {
        if i < n {
          assert init[i] == ps[i];
          if NameKey(ps[i].playerName) != key {
            assert m[NameKey(ps[i].playerName)] == m0[NameKey(init[i].playerName)];
          }
        }
      }
    }
  }

  predicate IndicesBelow(pm: map<string, nat>, n: nat) {
    forall k :: k in pm ==> pm[k] < n
  }

  /** Placeholder counters become 0 and every tie-breaker restarts at 0. */
  function ResetOne(p: PlayerResult): (q: PlayerResult)
    ensures q.swissTieBreakerPoints == Some(0)
    ensures q.swissWins == (if p.swissWins == -1 then 0 else p.swissWins)
    ensures q.swissLosses == (if p.swissLosses == -1 then 0 else p.swissLosses)
    ensures q.swissDraws == (if p.swissDraws == -1 then 0 else p.swissDraws)
    ensures q.playerName == p.playerName && q.swissEventPoints == p.swissEventPoints
  {
    p.(swissWins := if p.swissWins == -1 then 0 else p.swissWins,
       swissLosses := if p.swissLosses == -1 then 0 else p.swissLosses,
       swissDraws := if p.swissDraws == -1 then 0 else p.swissDraws,
       swissTieBreakerPoints := Some(0))
  }

  function Reset(ps: seq<PlayerResult>): (r: seq<PlayerResult>)
    ensures |r| == |ps|
  {
    seq(|ps|, i requires 0 <= i < |ps| => ResetOne(ps[i]))
  }

  datatype MatchOutcome = P1Win | P2Win | Draw | NoResult

  /** The result of one match. A named winner decides by comparing keys with player 1,
      then player 2. Without one the higher score wins, and equal positive scores are a
      draw; an unreported 0-0 is no result. */
  function Outcome(m: MatchRow): (o: MatchOutcome)
    ensures m.winnerName != "" ==>
      (o == P1Win <==> m.p1Name != "" && NameKey(m.winnerName) == NameKey(m.p1Name)) &&
      (o == P2Win <==> !(m.p1Name != "" && NameKey(m.winnerName) == NameKey(m.p1Name)) &&
                       m.p2Name != "" && NameKey(m.winnerName) == NameKey(m.p2Name)) &&
      o != Draw
    ensures m.winnerName == "" ==>
      (o == P1Win <==> m.player1Score > m.player2Score) &&
      (o == P2Win <==> m.player2Score > m.player1Score) &&
      (o == Draw <==> m.player1Score == m.player2Score && m.player1Score > 0)
  {
    if m.winnerName != "" then
      var w := NameKey(m.winnerName);
      if m.p1Name != "" && w == NameKey(m.p1Name) then P1Win
      else if m.p2Name != "" && w == NameKey(m.p2Name) then P2Win
      else NoResult
    else if m.player1Score > m.player2Score then P1Win
    else if m.player2Score > m.player1Score then P2Win
    else if m.player1Score == m.player2Score && m.player1Score > 0 then Draw
    else NoResult
  }

  /** The index a side's name resolves to, when it is given and known. */
  function Resolve(pm: map<string, nat>, name: string): Option<nat> {
    if name != "" && NameKey(name) in pm then Some(pm[NameKey(name)]) else None
  }

  /** One side's update: its own score into the tie-breaker, and a win, loss or draw. */
  function Credit(p: PlayerResult, score: int, won: bool, lost: bool, drew: bool): PlayerResult {
    p.(swissTieBreakerPoints := Some(p.swissTieBreakerPoints.GetOr(0) + score),
       swissWins := if won then p.swissWins + 1 else p.swissWins,
       swissLosses := if !won && lost then p.swissLosses + 1 else p.swissLosses,
       swissDraws := if !won && !lost && drew then p.swissDraws + 1 else p.swissDraws)
  }

  /** The effect of one match row on the players. */
  function ApplyMatch(ps: seq<PlayerResult>, pm: map<string, nat>, m: MatchRow): (r: seq<PlayerResult>)
    requires IndicesBelow(pm, |ps|)
    ensures |r| == |ps|
  {
    if m.roundType != SWISS then ps
    else
      var o := Outcome(m);
      var ps1 := match Resolve(pm, m.p1Name)
        case Some(i) => ps[i := Credit(ps[i], m.player1Score, o == P1Win, o == P2Win, o == Draw)]
        case None => ps;
      match Resolve(pm, m.p2Name)
      case Some(j) => ps1[j := Credit(ps1[j], m.player2Score, o == P2Win, o == P1Win, o == Draw)]
      case None => ps1
  }

  function ApplyMatches(ps: seq<PlayerResult>, pm: map<string, nat>, ms: seq<MatchRow>): (r: seq<PlayerResult>)
    requires IndicesBelow(pm, |ps|)
    ensures |r| == |ps|
  {
    if |ms| == 0 then ps
    else ApplyMatch(ApplyMatches(ps, pm, ms[..|ms| - 1]), pm, ms[|ms| - 1])
  }

  /** Points for a win and a draw: 3/1, or 1/0 for LEGACY_X2PO. */
  function WinPoints(fmt: Format): int { if fmt != LEGACY_X2PO then 3 else 1 }

  function DrawPoints(fmt: Format): int { if fmt != LEGACY_X2PO then 1 else 0 }

  function AwardOne(p: PlayerResult, fmt: Format): PlayerResult {
    if p.swissEventPoints.None? || p.swissEventPoints.value <= 0 then
      p.(swissEventPoints := Some(p.swissWins * WinPoints(fmt) + p.swissDraws * DrawPoints(fmt)))
    else p
  }

  function Award(ps: seq<PlayerResult>, fmt: Format): (r: seq<PlayerResult>)
    ensures |r| == |ps|
  {
    seq(|ps|, i requires 0 <= i < |ps| => AwardOne(ps[i], fmt))
  }

  /** The players after `_compute_stats_from_matches(players, matches, fmt)`. */
  function ComputedStats(ps: seq<PlayerResult>, ms: seq<MatchRow>, fmt: Format): (r: seq<PlayerResult>)
    ensures |r| == |ps|
  {
    if !NeedsCompute(ps) then ps
    else Award(ApplyMatches(Reset(ps), IndexMap(ps), ms), fmt)
  }

  /** Whether some player still carries a placeholder (the `any(...)` test). */
  method HasPlaceholder(players: array<PlayerResult>) returns (needs: bool)
    ensures needs == NeedsCompute(players[..])
  {
    needs := false;
    var k := 0;
    while k < players.Length
      invariant 0 <= k <= players.Length
      invariant needs <==> exists i :: 0 <= i < k && Placeholder(players[i])
    {
      if players[k].swissWins == -1 || players[k].swissTieBreakerPoints == Some(-1) {
        needs := true;
      }
      k := k + 1;
    }
  }

  /** The `p_map` comprehension. */
  method BuildIndexMap(players: array<PlayerResult>) returns (pMap: map<string, nat>)
    ensures pMap == IndexMap(players[..])
  {
    pMap := map[];
    var k := 0;
    while k < players.Length
      invariant 0 <= k <= players.Length
      invariant pMap == IndexMap(players[..k])
    {
      assert players[..k + 1][..k] == players[..k];
      pMap := pMap[NameKey(players[k].playerName) := k];
      k := k + 1;
    }
    assert players[..players.Length] == players[..];
  }

  /** The reset loop. */
  method ResetPlaceholders(players: array<PlayerResult>)
    modifies players
    ensures players[..] == Reset(old(players[..]))
  {
    ghost var orig := players[..];
    var k := 0;
    while k < players.Length
      invariant 0 <= k <= players.Length
      invariant forall i :: 0 <= i < k ==> players[i] == ResetOne(orig[i])
      invariant forall i :: k <= i < players.Length ==> players[i] == orig[i]
    {
      var p := players[k];
      if p.swissWins == -1 { p := p.(swissWins := 0); }
      if p.swissLosses == -1 { p := p.(swissLosses := 0); }
      if p.swissDraws == -1 { p := p.(swissDraws := 0); }
      p := p.(swissTieBreakerPoints := Some(0));
      players[k] := p;
      k := k + 1;
    }
  }

  /** The body of the match loop: one row's updates, in place. */
  method ApplyMatchInPlace(players: array<PlayerResult>, pMap: map<string, nat>, m: MatchRow)
    requires IndicesBelow(pMap, players.Length)
    modifies players
    ensures players[..] == ApplyMatch(old(players[..]), pMap, m)
  {
    if m.roundType == SWISS {
      var o := Outcome(m);
      var r1 := Resolve(pMap, m.p1Name);
      var r2 := Resolve(pMap, m.p2Name);
      if r1.Some? {
        var i := r1.value;
        players[i] := Credit(players[i], m.player1Score, o == P1Win, o == P2Win, o == Draw);
      }
      if r2.Some? {
        var j := r2.value;
        players[j] := Credit(players[j], m.player2Score, o == P2Win, o == P1Win, o == Draw);
      }
    }
  }

  /** The event-points loop. */
  method AwardEventPoints(players: array<PlayerResult>, fmt: Format)
    modifies players
    ensures players[..] == Award(old(players[..]), fmt)
  {
    ghost var orig := players[..];
    var k := 0;
    while k < players.Length
      invariant 0 <= k <= players.Length
      invariant forall i :: 0 <= i < k ==> players[i] == AwardOne(orig[i], fmt)
      invariant forall i :: k <= i < players.Length ==> players[i] == orig[i]
    {
      var p := players[k];
      if p.swissEventPoints.None? || p.swissEventPoints.value <= 0 {
        players[k] := p.(swissEventPoints := Some(p.swissWins * WinPoints(fmt) + p.swissDraws * DrawPoints(fmt)));
      }
      k := k + 1;
    }
  }

  /** `_compute_stats_from_matches`, on the players' array. */
  method ComputeStatsFromMatches(players: array<PlayerResult>, matches: seq<MatchRow>, fmt: Format)
    modifies players
    ensures players[..] == ComputedStats(old(players[..]), matches, fmt)
  {
    var needs := HasPlaceholder(players);
    if !needs {
      return;
    }
    ghost var orig := players[..];
    var pMap := BuildIndexMap(players);
    ResetPlaceholders(players);
    var k := 0;
    while k < |matches|
      invariant 0 <= k <= |matches|
      invariant players[..] == ApplyMatches(Reset(orig), pMap, matches[..k])
    {
      assert matches[..k + 1][..k] == matches[..k];
      ApplyMatchInPlace(players, pMap, matches[k]);
      k := k + 1;
    }
    assert matches[..|matches|] == matches;
    AwardEventPoints(players, fmt);
  }

  // ------------------------------------------------------------------ properties

  /** Without a placeholder nothing changes. */
  lemma NoPlaceholderNoChange(ps: seq<PlayerResult>, ms: seq<MatchRow>, fmt: Format)
    requires forall i :: 0 <= i < |ps| ==> ps[i].swissWins != -1 && ps[i].swissTieBreakerPoints != Some(-1)
    ensures ComputedStats(ps, ms, fmt) == ps
  {
  }

  /** Whether side 1 / side 2 of a counted (SWISS) match resolves to player `i`. */
  predicate Side1(pm: map<string, nat>, m: MatchRow, i: nat) {
    m.roundType == SWISS && Resolve(pm, m.p1Name) == Some(i)
  }

  predicate Side2(pm: map<string, nat>, m: MatchRow, i: nat) {
    m.roundType == SWISS && Resolve(pm, m.p2Name) == Some(i)
  }

  /** A placeholder counter read as 0. */
  function Cleared(n: int): int { if n == -1 then 0 else n }

  function B(b: bool): nat { if b then 1 else 0 }

  /** What one match adds to player `i`'s wins, losses, draws and tie-breaker. */
  function WinGain(pm: map<string, nat>, m: MatchRow, i: nat): nat {
    B(Side1(pm, m, i) && Outcome(m) == P1Win) + B(Side2(pm, m, i) && Outcome(m) == P2Win)
  }

  function LossGain(pm: map<string, nat>, m: MatchRow, i: nat): nat {
    B(Side1(pm, m, i) && Outcome(m) == P2Win) + B(Side2(pm, m, i) && Outcome(m) == P1Win)
  }

  function DrawGain(pm: map<string, nat>, m: MatchRow, i: nat): nat {
    B(Side1(pm, m, i) && Outcome(m) == Draw) + B(Side2(pm, m, i) && Outcome(m) == Draw)
  }

  function ScoreGain(pm: map<string, nat>, m: MatchRow, i: nat): int {
    (if Side1(pm, m, i) then m.player1Score else 0) + (if Side2(pm, m, i) then m.player2Score else 0)
  }

  /** Totals over a sequence of matches. */
  function Wins(pm: map<string, nat>, ms: seq<MatchRow>, i: nat): nat {
    if |ms| == 0 then 0 else Wins(pm, ms[..|ms| - 1], i) + WinGain(pm, ms[|ms| - 1], i)
  }

  function Losses(pm: map<string, nat>, ms: seq<MatchRow>, i: nat): nat {
    if |ms| == 0 then 0 else Losses(pm, ms[..|ms| - 1], i) + LossGain(pm, ms[|ms| - 1], i)
  }

  function Draws(pm: map<string, nat>, ms: seq<MatchRow>, i: nat): nat {
    if |ms| == 0 then 0 else Draws(pm, ms[..|ms| - 1], i) + DrawGain(pm, ms[|ms| - 1], i)
  }

  function Scores(pm: map<string, nat>, ms: seq<MatchRow>, i: nat): int {
    if |ms| == 0 then 0 else Scores(pm, ms[..|ms| - 1], i) + ScoreGain(pm, ms[|ms| - 1], i)
  }

  /** One match changes each player by exactly its gains, and nothing but the four
      counters. */
  lemma ApplyMatchGain(ps: seq<PlayerResult>, pm: map<string, nat>, m: MatchRow, i: nat)
    requires IndicesBelow(pm, |ps|) && i < |ps|
    requires ps[i].swissTieBreakerPoints.Some?
    ensures var q := ApplyMatch(ps, pm, m)[i];
      q.swissWins == ps[i].swissWins + WinGain(pm, m, i) &&
      q.swissLosses == ps[i].swissLosses + LossGain(pm, m, i) &&
      q.swissDraws == ps[i].swissDraws + DrawGain(pm, m, i) &&
      q.swissTieBreakerPoints == Some(ps[i].swissTieBreakerPoints.value + ScoreGain(pm, m, i)) &&
      q.playerName == ps[i].playerName && q.swissEventPoints == ps[i].swissEventPoints
  {
    if m.roundType == SWISS {
      var o := Outcome(m);
      var q1 := if Side1(pm, m, i) then Credit(ps[i], m.player1Score, o == P1Win, o == P2Win, o == Draw) else ps[i];
      assert ApplyMatch(ps, pm, m)[i] ==
        if Side2(pm, m, i) then Credit(q1, m.player2Score, o == P2Win, o == P1Win, o == Draw) else q1;
    }
  }

  /** Every player's counters grow by exactly its totals over the rows. */
  lemma {:induction false} ApplyMatchesTotals(ps: seq<PlayerResult>, pm: map<string, nat>, ms: seq<MatchRow>, i: nat)
    requires IndicesBelow(pm, |ps|) && i < |ps|
    requires ps[i].swissTieBreakerPoints.Some?
    ensures var q := ApplyMatches(ps, pm, ms)[i];
      q.swissWins == ps[i].swissWins + Wins(pm, ms, i) &&
      q.swissLosses == ps[i].swissLosses + Losses(pm, ms, i) &&
      q.swissDraws == ps[i].swissDraws + Draws(pm, ms, i) &&
      q.swissTieBreakerPoints == Some(ps[i].swissTieBreakerPoints.value + Scores(pm, ms, i)) &&
      q.swissEventPoints == ps[i].swissEventPoints
  {
    if |ms| > 0 {
      var init := ms[..|ms| - 1];
      ApplyMatchesTotals(ps, pm, init, i);
      ApplyMatchGain(ApplyMatches(ps, pm, init), pm, ms[|ms| - 1], i);
    }
  }

  /** The standings after a run that computes: each counter is its placeholder-cleared
      value plus the matches' contributions, the tie-breaker is the sum of the player's own
      swiss scores, and the event points are recomputed only where they were None or at
      most 0. */
  lemma ComputedStatsTotals(ps: seq<PlayerResult>, ms: seq<MatchRow>, fmt: Format, i: nat)
    requires NeedsCompute(ps) && i < |ps|
    ensures var q := ComputedStats(ps, ms, fmt)[i];
      var pm := IndexMap(ps);
      q.swissWins == Cleared(ps[i].swissWins) + Wins(pm, ms, i) &&
      q.swissLosses == Cleared(ps[i].swissLosses) + Losses(pm, ms, i) &&
      q.swissDraws == Cleared(ps[i].swissDraws) + Draws(pm, ms, i) &&
      q.swissTieBreakerPoints == Some(Scores(pm, ms, i)) &&
      q.swissEventPoints ==
        (if ps[i].swissEventPoints.None? || ps[i].swissEventPoints.value <= 0
         then Some(q.swissWins * WinPoints(fmt) + q.swissDraws * DrawPoints(fmt))
         else ps[i].swissEventPoints)
  {
    var r := Reset(ps);
    assert r[i] == ResetOne(ps[i]);
    var pm := IndexMap(ps);
    ApplyMatchesTotals(r, pm, ms, i);
    var a := ApplyMatches(r, pm, ms);
    assert ComputedStats(ps, ms, fmt) == Award(a, fmt);
    assert Award(a, fmt)[i] == AwardOne(a[i], fmt);
  }

  /** Rows of other round types are never counted. */
  function SwissOnly(ms: seq<MatchRow>): (r: seq<MatchRow>)
    ensures forall j :: 0 <= j < |r| ==> r[j].roundType == SWISS
  {
    if |ms| == 0 then []
    else SwissOnly(ms[..|ms| - 1]) + (if ms[|ms| - 1].roundType == SWISS then [ms[|ms| - 1]] else [])
  }

  lemma {:induction false} OnlySwissCounted(ps: seq<PlayerResult>, pm: map<string, nat>, ms: seq<MatchRow>)
    requires IndicesBelow(pm, |ps|)
    ensures ApplyMatches(ps, pm, ms) == ApplyMatches(ps, pm, SwissOnly(ms))
  {
    if |ms| > 0 {
      var init := ms[..|ms| - 1];
      OnlySwissCounted(ps, pm, init);
      var s := SwissOnly(init);
      if ms[|ms| - 1].roundType == SWISS {
        assert SwissOnly(ms)[..|SwissOnly(ms)| - 1] == s;
      } else {
        assert SwissOnly(ms) == s;
      }
    }
  }

  /** A decided match between two different known players gives one side a win and the
      other a loss, or both a draw; a match without result changes no W/L/D; each side's
      tie-breaker grows by its own score. */
  lemma MatchBetweenTwo(ps: seq<PlayerResult>, pm: map<string, nat>, m: MatchRow, i: nat, j: nat)
    requires IndicesBelow(pm, |ps|) && i < |ps| && j < |ps| && i != j
    requires ps[i].swissTieBreakerPoints.Some? && ps[j].swissTieBreakerPoints.Some?
    requires Side1(pm, m, i) && Side2(pm, m, j)
    ensures var r := ApplyMatch(ps, pm, m);
      r[i].swissTieBreakerPoints == Some(ps[i].swissTieBreakerPoints.value + m.player1Score) &&
      r[j].swissTieBreakerPoints == Some(ps[j].swissTieBreakerPoints.value + m.player2Score) &&
      (Outcome(m) == P1Win ==> r[i].swissWins == ps[i].swissWins + 1 && r[j].swissLosses == ps[j].swissLosses + 1
                               && r[i].swissLosses == ps[i].swissLosses && r[j].swissWins == ps[j].swissWins) &&
      (Outcome(m) == P2Win ==> r[j].swissWins == ps[j].swissWins + 1 && r[i].swissLosses == ps[i].swissLosses + 1
                               && r[j].swissLosses == ps[j].swissLosses && r[i].swissWins == ps[i].swissWins) &&
      (Outcome(m) == Draw ==> r[i].swissDraws == ps[i].swissDraws + 1 && r[j].swissDraws == ps[j].swissDraws + 1) &&
      (Outcome(m) == NoResult ==> r[i].swissWins == ps[i].swissWins && r[i].swissLosses == ps[i].swissLosses &&
                                  r[i].swissDraws == ps[i].swissDraws && r[j].swissWins == ps[j].swissWins &&
                                  r[j].swissLosses == ps[j].swissLosses && r[j].swissDraws == ps[j].swissDraws)
  {
    ApplyMatchGain(ps, pm, m, i);
    ApplyMatchGain(ps, pm, m, j);
    assert !Side2(pm, m, i) && !Side1(pm, m, j);
  }

  /** An unreported 0-0 with no winner changes no W/L/D. */
  lemma UnreportedNoResult(m: MatchRow)
    requires m.winnerName == "" && m.player1Score == 0 && m.player2Score == 0
    ensures Outcome(m) == NoResult
  {
  }
}
