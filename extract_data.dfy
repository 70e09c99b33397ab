/** The computations of the single-tournament import script: resolving a scraped name to
    a stored player id, deciding each stored match's winner, and recomputing tie-breakers
    and event points from stored matches. Sessions and persistence are not modelled. */
module ExtractData {
  import opened Wrappers
  import opened Strings
  import opened Formats
  import opened Models

  // ------------------------------------------------------------------ the name -> id map

  /** A Python dict from names to ids, in insertion order (keys are distinct). */
  type NameMap = seq<(string, int)>

  /** The ids a map holds. */
  function IdsOf(d: NameMap): set<int> {
    if |d| == 0 then {} else {d[0].1} + IdsOf(d[1..])
  }

  function DictGet(d: NameMap, k: string): (r: Option<int>)
    ensures r.Some? ==> exists i :: 0 <= i < |d| && d[i] == (k, r.value)
    ensures r.Some? ==> r.value in IdsOf(d)
    ensures r.None? ==> forall i :: 0 <= i < |d| ==> d[i].0 != k
  {
    if |d| == 0 then None
    else if d[0].0 == k then Some(d[0].1)
    else
      var r := DictGet(d[1..], k);
      assert r.Some? ==> exists i :: 0 <= i < |d[1..]| && d[1..][i] == (k, r.value);
      r
  }

  /** `d[k] = v`: an existing key keeps its position and takes the new value. */
  function DictSet(d: NameMap, k: string, v: int): (r: NameMap)
    ensures DictGet(r, k) == Some(v)
    ensures forall k2 :: k2 != k ==> DictGet(r, k2) == DictGet(d, k2)
  {
    if |d| == 0 then [(k, v)]
    else if d[0].0 == k then [(k, v)] + d[1..]
    else [d[0]] + DictSet(d[1..], k, v)
  }

  /** The map `run_url` builds: for every named player, its whitespace-collapsed name and
      that name lower-cased both lead to its id. */
  function PlayerMapOf(players: seq<(string, int)>): NameMap {
    if |players| == 0 then []
    else
      var d := PlayerMapOf(players[..|players| - 1]);
      var (name, id) := players[|players| - 1];
      if name == "" then d
      else
        var clean := CollapseSpaces(name);
        DictSet(DictSet(d, clean, id), Lower(clean), id)
  }

  /** For the last named player, both its collapsed name and its lower-cased form lead
      to its id. */
  lemma PlayerMapBothKeys(players: seq<(string, int)>)
    requires |players| > 0 && players[|players| - 1].0 != ""
    ensures var (name, id) := players[|players| - 1];
      DictGet(PlayerMapOf(players), CollapseSpaces(name)) == Some(id) &&
      DictGet(PlayerMapOf(players), Lower(CollapseSpaces(name))) == Some(id)
  {
  }

  /** The ids of the map entries whose lower-cased key starts with `q`, in order. */
  function PrefixCandidates(d: NameMap, q: string): (r: seq<int>)
    ensures |r| <= |d|
    ensures forall j :: 0 <= j < |r| ==> r[j] in IdsOf(d)
  {
    if |d| == 0 then []
    else (if StartsWith(Lower(d[0].0), q) then [d[0].1] else []) + PrefixCandidates(d[1..], q)
  }

  /** `_resolve_player_id`: None for an empty name; then the collapsed name as an exact
      key, then its lower-case form; then the id of the only key that starts with the
      lower-case form, case-insensitively. */
  function ResolvePlayerId(name: string, d: NameMap): (r: Option<int>)
    ensures name == "" ==> r.None?
    ensures name != "" && DictGet(d, CollapseSpaces(name)).Some? ==> r == DictGet(d, CollapseSpaces(name))
    ensures name != "" && DictGet(d, CollapseSpaces(name)).None? && DictGet(d, Lower(CollapseSpaces(name))).Some? ==>
      r == DictGet(d, Lower(CollapseSpaces(name)))
    ensures name != "" && DictGet(d, CollapseSpaces(name)).None? && DictGet(d, Lower(CollapseSpaces(name))).None? ==>
      (r.Some? <==> |PrefixCandidates(d, Lower(CollapseSpaces(name)))| == 1)
    ensures r.Some? ==> r.value in IdsOf(d)
  {
    if name == "" then None
    else
      var clean := CollapseSpaces(name);
      match DictGet(d, clean)
      case Some(v) => Some(v)
      case None =>
        var low := Lower(clean);
        match DictGet(d, low)
        case Some(v) => Some(v)
        case None =>
          var c := PrefixCandidates(d, low);
          if |c| == 1 then Some(c[0]) else None
  }

  /** The prefix fallback never resolves a player whose name has upper-case letters: the
      map holds both its cased and its lower-cased key, and both start with any prefix of
      the lower-cased name, so there are two candidates. */
  lemma MixedCasePrefixUnresolved(name: string, id: int, q: string)
    requires var clean := CollapseSpaces(name); name != "" && Lower(clean) != clean
    requires q != "" && CollapseSpaces(q) != CollapseSpaces(name) && Lower(CollapseSpaces(q)) != Lower(CollapseSpaces(name))
    requires CollapseSpaces(q) != Lower(CollapseSpaces(name))
    requires StartsWith(Lower(CollapseSpaces(name)), Lower(CollapseSpaces(q)))
    ensures ResolvePlayerId(q, PlayerMapOf([(name, id)])) == None
  {
    var clean := CollapseSpaces(name);
    var d := PlayerMapOf([(name, id)]);
    assert PlayerMapOf([(name, id)][..0]) == [];
    assert DictSet([], clean, id) == [(clean, id)];
    assert DictSet([(clean, id)], Lower(clean), id) == [(clean, id), (Lower(clean), id)];
    assert d == [(clean, id), (Lower(clean), id)];
    LowerIdempotent(clean);
    var low := Lower(CollapseSpaces(q));
    assert PrefixCandidates(d, low) == [id, id];
  }

  // ------------------------------------------------------------------ winner assignment

  /** Python truthiness of an optional id. */
  predicate IdTruthy(o: Option<int>) { o.Some? && o.value != 0 }

  function Clean(s: string): string { Lower(Strip(s)) }

  /** The winner `run_url` stores: a winner name equal, case- and whitespace-insensitively,
      to player 1's, else player 2's, picks that side's id; when that gives no id the
      strictly higher score wins, and equal scores leave no winner. */
  function AssignWinner(winner: string, p1Name: string, p2Name: string,
                        p1Id: Option<int>, p2Id: Option<int>, s1: int, s2: int): (w: Option<int>)
    ensures w.Some? ==> w == p1Id || w == p2Id
    ensures winner != "" && p1Name != "" && Clean(winner) == Clean(p1Name) && IdTruthy(p1Id) ==> w == p1Id
    ensures (winner != "" && p2Name != "" && Clean(winner) == Clean(p2Name) && Clean(winner) != Clean(p1Name) &&
             IdTruthy(p2Id)) ==> w == p2Id
    ensures winner == "" ==> w == (if s1 > s2 then p1Id else if s2 > s1 then p2Id else None)
  {
    var named :=
      if winner == "" then None
      else
        var wc := Clean(winner);
        var c1 := if p1Name != "" then Clean(p1Name) else "";
        var c2 := if p2Name != "" then Clean(p2Name) else "";
        if wc == c1 then p1Id else if wc == c2 then p2Id else None;
    if !IdTruthy(named) && s1 != s2 then (if s1 > s2 then p1Id else p2Id) else named
  }

  /** A scraped match turned into a stored one, or None when player 1 does not resolve. */
  function StoreMatch(row: MatchRow, d: NameMap): (r: Option<Match>)
    ensures r.Some? <==> IdTruthy(ResolvePlayerId(row.p1Name, d))
    ensures r.Some? ==>
      r.value.player1Id == ResolvePlayerId(row.p1Name, d) &&
      r.value.player2Id == ResolvePlayerId(row.p2Name, d) &&
      r.value.player1Score == row.player1Score && r.value.player2Score == row.player2Score &&
      r.value.winnerId == AssignWinner(row.winnerName, row.p1Name, row.p2Name,
                                       r.value.player1Id, r.value.player2Id, row.player1Score, row.player2Score)
  {
    var p1 := ResolvePlayerId(row.p1Name, d);
    var p2 := ResolvePlayerId(row.p2Name, d);
    if !IdTruthy(p1) then None
    else
      Some(Match(row.roundNumber, row.roundType, row.scenario, p1, p2, row.player1Score, row.player2Score,
                 AssignWinner(row.winnerName, row.p1Name, row.p2Name, p1, p2, row.player1Score, row.player2Score),
                 row.isBye))
  }

  // ------------------------------------------------------------------ _calculate_and_update_stats

  datatype StoredPlayer = StoredPlayer(id: int, result: PlayerResult)

  /** X2PO, XLC and FFG tournaments score by margin; the others by own score. */
  predicate IsLegacy(fmt: Option<Format>) {
    fmt.Some? && fmt.value in [LEGACY_X2PO, LEGACY_XLC, FFG]
  }

  /** A match counts only when both player ids are set. */
  predicate Counted(m: Match) { IdTruthy(m.player1Id) && IdTruthy(m.player2Id) }

  /** `max(0, s)` */
  function Clamp(s: int): nat { if s < 0 then 0 else s }

  /** What one match adds to the tie-breaker of the player with id `id`. */
  function TbGain(m: Match, id: int, legacy: bool): int {
    if !Counted(m) then 0
    else
      var s1 := Clamp(m.player1Score);
      var s2 := Clamp(m.player2Score);
      if legacy then
        (if m.player1Id.value == id then s1 - s2 else 0) - (if m.player2Id.value == id then s1 - s2 else 0)
      else
        (if m.player1Id.value == id then s1 else 0) + (if m.player2Id.value == id then s2 else 0)
  }

  /** A player's recomputed tie-breaker. */
  function Tb(ms: seq<Match>, id: int, legacy: bool): int {
    if |ms| == 0 then 0 else Tb(ms[..|ms| - 1], id, legacy) + TbGain(ms[|ms| - 1], id, legacy)
  }

  /** A player's new state: the tie-breaker is always overwritten; outside legacy, event
      points that are None or 0 become wins*3 + draws. */
  function UpdatePlayer(p: StoredPlayer, tb: int, legacy: bool): StoredPlayer {
    var r := p.result.(swissTieBreakerPoints := Some(tb));
    var cur := p.result.swissEventPoints.GetOr(0);
    if !legacy && cur == 0 then
      p.(result := r.(swissEventPoints := Some(p.result.swissWins * 3 + p.result.swissDraws * 1)))
    else p.(result := r)
  }

  function Recalculated(ps: seq<StoredPlayer>, ms: seq<Match>, fmt: Option<Format>): (r: seq<StoredPlayer>)
    ensures |r| == |ps|
  {
    seq(|ps|, i requires 0 <= i < |ps| => UpdatePlayer(ps[i], Tb(ms, ps[i].id, IsLegacy(fmt)), IsLegacy(fmt)))
  }

  /** Every player's tie-breaker is overwritten by its recomputed total (0 without
      matches); outside legacy, event points that were None or 0 become wins*3 + draws;
      the id, name and W/L/D are kept. */
  lemma RecalculatedSpec(ps: seq<StoredPlayer>, ms: seq<Match>, fmt: Option<Format>, i: nat)
    requires i < |ps|
    ensures var q := Recalculated(ps, ms, fmt)[i];
      q.id == ps[i].id && q.result.playerName == ps[i].result.playerName &&
      q.result.swissWins == ps[i].result.swissWins && q.result.swissLosses == ps[i].result.swissLosses &&
      q.result.swissDraws == ps[i].result.swissDraws &&
      q.result.swissTieBreakerPoints == Some(Tb(ms, ps[i].id, IsLegacy(fmt))) &&
      q.result.swissEventPoints ==
        (if !IsLegacy(fmt) && ps[i].result.swissEventPoints.GetOr(0) == 0
         then Some(ps[i].result.swissWins * 3 + ps[i].result.swissDraws)
         else ps[i].result.swissEventPoints)
  {
  }

  predicate DistinctIds(ps: seq<StoredPlayer>) {
    forall i, j :: 0 <= i < j < |ps| ==> ps[i].id != ps[j].id
  }

  /** The set of the players' ids. */
  function IdSet(ps: seq<StoredPlayer>): set<int> {
    set i | 0 <= i < |ps| :: ps[i].id
  }

  /** The `tb_stats` accumulation: starts at 0 for every player id, and a counted match
      updates only ids present. */
  method TieBreakerTotals(players: array<StoredPlayer>, matches: seq<Match>, legacy: bool)
    returns (tb: map<int, int>)
    ensures tb.Keys == IdSet(players[..])
    ensures forall id :: id in tb ==> tb[id] == Tb(matches, id, legacy)
  {
    tb := map[];
    var k := 0;
    while k < players.Length
      invariant 0 <= k <= players.Length
      invariant tb.Keys == IdSet(players[..k])
      invariant forall id :: id in tb ==> tb[id] == 0
    {
      assert IdSet(players[..k + 1]) == IdSet(players[..k]) + {players[k].id} by {
        assert forall i :: 0 <= i < k ==> players[..k + 1][i] == players[..k][i];
      }
      tb := tb[players[k].id := 0];
      k := k + 1;
    }
    assert players[..players.Length] == players[..];
    k := 0;
    while k < |matches|
      invariant 0 <= k <= |matches|
      invariant tb.Keys == IdSet(players[..])
      invariant forall id :: id in tb ==> tb[id] == Tb(matches[..k], id, legacy)
    {
      assert matches[..k + 1][..k] == matches[..k];
      tb := CreditMatch(tb, matches[k], legacy);
      k := k + 1;
    }
    assert matches[..|matches|] == matches;
  }

  /** The body of the match loop: both sides of a counted match have their clamped
      scores credited (legacy: the score difference, with opposite signs). */
  method CreditMatch(tb: map<int, int>, m: Match, legacy: bool) returns (r: map<int, int>)
    ensures r.Keys == tb.Keys
    ensures forall id :: id in r ==> r[id] == tb[id] + TbGain(m, id, legacy)
  {
    r := tb;
    if IdTruthy(m.player1Id) && IdTruthy(m.player2Id) {
      var s1 := Clamp(m.player1Score);
      var s2 := Clamp(m.player2Score);
      var a := m.player1Id.value;
      var b := m.player2Id.value;
      if legacy {
        var diff := s1 - s2;
        if a in r { r := r[a := r[a] + diff]; }
        if b in r { r := r[b := r[b] - diff]; }
      } else {
        if a in r { r := r[a := r[a] + s1]; }
        if b in r { r := r[b := r[b] + s2]; }
      }
    }
  }

  /** `_calculate_and_update_stats`, on the tournament's stored players. Ids are primary
      keys, hence distinct. */
  method CalculateAndUpdateStats(players: array<StoredPlayer>, matches: seq<Match>, fmt: Option<Format>)
    requires DistinctIds(players[..])
    modifies players
    ensures players[..] == Recalculated(old(players[..]), matches, fmt)
  {
    var legacy := fmt.Some? && (fmt.value == LEGACY_X2PO || fmt.value == LEGACY_XLC || fmt.value == FFG);
    var tb := TieBreakerTotals(players, matches, legacy);
    ghost var orig := players[..];
    ghost var target := Recalculated(orig, matches, fmt);
    assert legacy == IsLegacy(fmt);
    var k := 0;
    while k < players.Length
      invariant 0 <= k <= players.Length
      invariant forall i :: 0 <= i < k ==> players[i] == target[i]
      invariant forall i :: k <= i < players.Length ==> players[i] == orig[i]
    {
      var p := players[k];
      assert p.id in IdSet(orig);
      var val := tb[p.id];
      var r := p.result.(swissTieBreakerPoints := Some(val));
      var cur := if p.result.swissEventPoints.Some? then p.result.swissEventPoints.value else 0;
      if !legacy && cur == 0 {
        r := r.(swissEventPoints := Some(p.result.swissWins * 3 + p.result.swissDraws * 1));
      }
      var q := p.(result := r);
      assert q == target[k];
      players[k] := q;
      k := k + 1;
    }
  }

  // ------------------------------------------------------------------ properties

  /** A player that no counted match names gets the tie-breaker 0. */
  lemma {:induction false} TbOfAbsent(ms: seq<Match>, id: int, legacy: bool)
    requires forall j :: 0 <= j < |ms| && Counted(ms[j]) ==> ms[j].player1Id.value != id && ms[j].player2Id.value != id
    ensures Tb(ms, id, legacy) == 0
  {
    if |ms| > 0 {
      TbOfAbsent(ms[..|ms| - 1], id, legacy);
    }
  }

  /** Outside legacy, a tie-breaker is a sum of clamped scores, hence never negative. */
  lemma {:induction false} TbStandardNonNegative(ms: seq<Match>, id: int)
    ensures Tb(ms, id, false) >= 0
  {
    if |ms| > 0 {
      TbStandardNonNegative(ms[..|ms| - 1], id);
    }
  }

  function SumTb(ids: seq<int>, ms: seq<Match>, legacy: bool): int {
    if |ids| == 0 then 0 else SumTb(ids[..|ids| - 1], ms, legacy) + Tb(ms, ids[|ids| - 1], legacy)
  }

  function SumGain(ids: seq<int>, m: Match, legacy: bool): int {
    if |ids| == 0 then 0 else SumGain(ids[..|ids| - 1], m, legacy) + TbGain(m, ids[|ids| - 1], legacy)
  }

  lemma {:induction false} SumTbStep(ids: seq<int>, ms: seq<Match>, legacy: bool)
    requires |ms| > 0
    ensures SumTb(ids, ms, legacy) == SumTb(ids, ms[..|ms| - 1], legacy) + SumGain(ids, ms[|ms| - 1], legacy)
  {
    if |ids| > 0 {
      SumTbStep(ids[..|ids| - 1], ms, legacy);
    }
  }

  /** Σ over distinct ids of (id == x ? c : 0) is c when x is one of them, else 0. */
  function Indicator(ids: seq<int>, x: int): int {
    if |ids| == 0 then 0 else Indicator(ids[..|ids| - 1], x) + (if ids[|ids| - 1] == x then 1 else 0)
  }

  lemma {:induction false} IndicatorOfDistinct(ids: seq<int>, x: int)
    requires forall i, j :: 0 <= i < j < |ids| ==> ids[i] != ids[j]
    ensures Indicator(ids, x) == (if x in ids then 1 else 0)
  {
    if |ids| > 0 {
      var init := ids[..|ids| - 1];
      IndicatorOfDistinct(init, x);
      assert ids == init + [ids[|ids| - 1]];
      if ids[|ids| - 1] == x {
        assert x !in init;
      }
    }
  }

  lemma {:induction false} SumGainLegacy(ids: seq<int>, m: Match)
    requires Counted(m)
    ensures SumGain(ids, m, true) ==
      (Indicator(ids, m.player1Id.value) - Indicator(ids, m.player2Id.value)) *
      (Clamp(m.player1Score) - Clamp(m.player2Score))
  {
    if |ids| > 0 {
      SumGainLegacy(ids[..|ids| - 1], m);
    }
  }

  /** In legacy scoring the tie-breakers of a tournament sum to zero, provided every
      counted match is between the tournament's own players. */
  lemma {:induction false} LegacyTbSumZero(ids: seq<int>, ms: seq<Match>)
    requires forall i, j :: 0 <= i < j < |ids| ==> ids[i] != ids[j]
    requires forall j :: 0 <= j < |ms| && Counted(ms[j]) ==> ms[j].player1Id.value in ids && ms[j].player2Id.value in ids
    ensures SumTb(ids, ms, true) == 0
  {
    if |ms| == 0 {
      SumTbZero(ids);
    } else {
      var m := ms[|ms| - 1];
      LegacyTbSumZero(ids, ms[..|ms| - 1]);
      SumTbStep(ids, ms, true);
      if Counted(m) {
        SumGainLegacy(ids, m);
        IndicatorOfDistinct(ids, m.player1Id.value);
        IndicatorOfDistinct(ids, m.player2Id.value);
      } else {
        SumGainUncounted(ids, m);
      }
    }
  }

  lemma {:induction false} SumTbZero(ids: seq<int>)
    ensures SumTb(ids, [], true) == 0
  {
    if |ids| > 0 {
      SumTbZero(ids[..|ids| - 1]);
    }
  }

  lemma {:induction false} SumGainUncounted(ids: seq<int>, m: Match)
    requires !Counted(m)
    ensures SumGain(ids, m, true) == 0
  {
    if |ids| > 0 {
      SumGainUncounted(ids[..|ids| - 1], m);
    }
  }
}
