/** Cross-source duplicate detection (`utils/deduplication.py`): a tournament matches a
    candidate held within two days of it when their players overlap by more than half,
    or when their names are very similar and their player counts close. Dates are day
    numbers; the name similarity (`SequenceMatcher.ratio`) is a parameter. */
module Deduplication {
  import opened Wrappers
  import opened Strings
  import opened Json
  import Dicts

  /** The fields of a tournament the service reads; a missing date is `None`. */
  datatype Tournament = Tournament(id: Json, name: string, date: Option<int>, playerCount: int)

  /** Player lists by tournament id; an empty dict stands for a missing map too. */
  type PlayersMap = Dicts.Dict<Json, seq<string>>

  /** `SequenceMatcher(None, a, b).ratio()` */
  type Ratio = (string, string) -> real

  function Abs(x: int): nat {
    if x < 0 then -x else x
  }

  // ---------------------------------------------------------------- player overlap

  /** `set(p.player_name.lower().strip() for p in players)` */
  function NameSet(players: seq<string>): set<string> {
    set p | p in players :: Strip(Lower(p))
  }

  /** `_calculate_player_overlap(a, b)`: the Jaccard index of the two name sets. */
  function Overlap(a: seq<string>, b: seq<string>): real {
    if |a| == 0 || |b| == 0 then 0.0
    else
      var na, nb := NameSet(a), NameSet(b);
      if |na + nb| == 0 then 0.0 else (|na * nb| as real) / (|na + nb| as real)
  }

  /** The overlap lies between 0 and 1, does not depend on the order of its arguments,
      and is 0 when either list is empty. */
  lemma OverlapSpec(a: seq<string>, b: seq<string>)
    ensures 0.0 <= Overlap(a, b) <= 1.0
    ensures Overlap(a, b) == Overlap(b, a)
    ensures |a| == 0 || |b| == 0 ==> Overlap(a, b) == 0.0
  {
    var na, nb := NameSet(a), NameSet(b);
    assert na * nb == nb * na && na + nb == nb + na;
    if |a| > 0 && |b| > 0 && |na + nb| > 0 {
      SubsetCard(na * nb, na + nb);
      RatioBounds(|na * nb| as real, |na + nb| as real);
    }
  }

  lemma RatioBounds(x: real, y: real)
    requires 0.0 <= x <= y && y > 0.0
    ensures 0.0 <= x / y <= 1.0
  {
  }

  /** Two non-empty player lists overlap fully exactly when they name the same players. */
  lemma OverlapOne(a: seq<string>, b: seq<string>)
    requires |a| > 0 && |b| > 0
    ensures Overlap(a, b) == 1.0 <==> NameSet(a) == NameSet(b)
  {
    var na, nb := NameSet(a), NameSet(b);
    assert Strip(Lower(a[0])) in na;
    assert |na + nb| > 0;
    if Overlap(a, b) == 1.0 {
      assert |na * nb| == |na + nb|;
      SubsetCard(na * nb, na + nb);
      SameCardEqual(na * nb, na + nb);
      forall x | x in na + nb ensures x in na && x in nb {
        assert x in na * nb;
      }
    }
    if na == nb {
      assert na * nb == na + nb;
    }
  }

  /** A subset has no more elements. */
  lemma {:induction false} SubsetCard<T>(s: set<T>, t: set<T>)
    requires s <= t
    ensures |s| <= |t|
    decreases |t|
  {
    if s != {} {
      var x :| x in s;
      SubsetCard(s - {x}, t - {x});
    }
  }

  /** A subset with as many elements is the whole set. */
  lemma SameCardEqual<T>(s: set<T>, t: set<T>)
    requires s <= t && |s| == |t|
    ensures s == t
  {
    if s != t {
      var x :| x in t && x !in s;
      SubsetCard(s, t - {x});
    }
  }

  // ---------------------------------------------------------------- the search

  /** The candidate's players: `map.get(str(id)) or map.get(id)`, with a missing list
      read as empty. */
  function CandidatePlayers(cmap: PlayersMap, id: Json): seq<string> {
    match Dicts.Get(cmap, JStr(Str(id)))
    case Some(ps) => if |ps| > 0 then ps else Dicts.Get(cmap, id).GetOr([])
    case None => Dicts.Get(cmap, id).GetOr([])
  }

  /** Both dates are known and at most two days apart. */
  predicate Near(target: Tournament, c: Tournament) {
    target.date.Some? && c.date.Some? && Abs(target.date.value - c.date.value) <= 2
  }

  /** `player_score`: the overlap when both sides have players, else 0. */
  function PlayerScore(target: Tournament, c: Tournament, players: seq<string>, cmap: PlayersMap): real {
    if |players| > 0 && |cmap| > 0 then
      var cp := CandidatePlayers(cmap, c.id);
      if |cp| > 0 then Overlap(players, cp) else 0.0
    else 0.0
  }

  /** `abs(t - c) / max(c, 1) < 0.2` */
  predicate CountClose(t: int, c: int) {
    (Abs(t - c) as real) / ((if c > 1 then c else 1) as real) < 0.2
  }

  /** The decision for one candidate. */
  predicate Duplicate(target: Tournament, c: Tournament, players: seq<string>, cmap: PlayersMap, ratio: Ratio) {
    Near(target, c) &&
    (PlayerScore(target, c, players, cmap) > 0.5 ||
     (ratio(Lower(target.name), Lower(c.name)) > 0.85 && CountClose(target.playerCount, c.playerCount)))
  }

  /** The position of the first duplicate among the candidates. */
  function FirstDuplicate(target: Tournament, cands: seq<Tournament>, players: seq<string>, cmap: PlayersMap, ratio: Ratio): (r: Option<nat>)
    ensures r.Some? ==> r.value < |cands| && Duplicate(target, cands[r.value], players, cmap, ratio)
    ensures r.Some? ==> forall j :: 0 <= j < r.value ==> !Duplicate(target, cands[j], players, cmap, ratio)
    ensures r.None? <==> forall j :: 0 <= j < |cands| ==> !Duplicate(target, cands[j], players, cmap, ratio)
    decreases |cands|
  {
    if |cands| == 0 then None
    else if Duplicate(target, cands[0], players, cmap, ratio) then Some(0)
    else
      match FirstDuplicate(target, cands[1..], players, cmap, ratio)
      case None => None
      case Some(i) => Some(i + 1)
  }

  /** `find_duplicate(target, candidates, target_players, candidate_players_map)`. */
  function FindDuplicate(target: Tournament, cands: seq<Tournament>, players: seq<string>, cmap: PlayersMap, ratio: Ratio): (r: Option<Tournament>)
    // Never a candidate with a missing date or more than two days away.
    ensures r.Some? ==> r.value in cands && Near(target, r.value)
    ensures r.Some? ==> Duplicate(target, r.value, players, cmap, ratio)
    ensures r.None? <==> forall j :: 0 <= j < |cands| ==> !Duplicate(target, cands[j], players, cmap, ratio)
  {
    match FirstDuplicate(target, cands, players, cmap, ratio)
    case Some(i) => Some(cands[i])
    case None => None
  }

  /** Without player data on either side only the name and count rule can match. */
  lemma WithoutPlayers(target: Tournament, c: Tournament, players: seq<string>, cmap: PlayersMap, ratio: Ratio)
    requires |players| == 0 || |cmap| == 0
    ensures Duplicate(target, c, players, cmap, ratio) <==>
      Near(target, c) && ratio(Lower(target.name), Lower(c.name)) > 0.85 && CountClose(target.playerCount, c.playerCount)
  {
  }

  /** A player overlap above one half decides, whatever the names. */
  lemma OverlapDecides(target: Tournament, c: Tournament, players: seq<string>, cmap: PlayersMap, ratio: Ratio)
    requires Near(target, c) && |players| > 0 && |cmap| > 0
    requires Overlap(players, CandidatePlayers(cmap, c.id)) > 0.5
    ensures Duplicate(target, c, players, cmap, ratio)
  {
    OverlapSpec(players, []);
  }

  /** `find_duplicate`'s loop, returning on the first match. */
  method FindDuplicateOf(target: Tournament, cands: seq<Tournament>, players: seq<string>, cmap: PlayersMap, ratio: Ratio)
    returns (r: Option<Tournament>)
    ensures r == FindDuplicate(target, cands, players, cmap, ratio)
  {
    var i := 0;
    while i < |cands|
      invariant 0 <= i <= |cands|
      invariant forall j :: 0 <= j < i ==> !Duplicate(target, cands[j], players, cmap, ratio)
    {
      var c := cands[i];
      if target.date.None? || c.date.None? {
        i := i + 1;
        continue;
      }
      if Abs(target.date.value - c.date.value) > 2 {
        i := i + 1;
        continue;
      }
      var nameScore := ratio(Lower(target.name), Lower(c.name));
      var playerScore := 0.0;
      if |players| > 0 && |cmap| > 0 {
        var cp := CandidatePlayers(cmap, c.id);
        if |cp| > 0 {
          playerScore := Overlap(players, cp);
        }
      }
      var isMatch := false;
      if playerScore > 0.5 {
        isMatch := true;
      } else if nameScore > 0.85 {
        if CountClose(target.playerCount, c.playerCount) {
          isMatch := true;
        }
      }
      if isMatch {
        FirstAt(target, cands, players, cmap, ratio, i);
        return Some(c);
      }
      i := i + 1;
    }
    return None;
  }

  /** The first duplicate is the one the search returns. */
  lemma FirstAt(target: Tournament, cands: seq<Tournament>, players: seq<string>, cmap: PlayersMap, ratio: Ratio, i: nat)
    requires i < |cands| && Duplicate(target, cands[i], players, cmap, ratio)
    requires forall j :: 0 <= j < i ==> !Duplicate(target, cands[j], players, cmap, ratio)
    ensures FindDuplicate(target, cands, players, cmap, ratio) == Some(cands[i])
  {
  }

  // ---------------------------------------------------------------- the test cases

  /** "test_date_mismatch": a candidate ten days away is never a duplicate. */
  lemma DateMismatch(target: Tournament, c: Tournament, players: seq<string>, cmap: PlayersMap, ratio: Ratio)
    requires target.date.Some? && c.date == Some(target.date.value + 10)
    ensures FindDuplicate(target, [c], players, cmap, ratio) == None
  {
  }

  /** "test_exact_name_match": the same name, date and player count match, given that
      the ratio of a text with itself is 1. */
  lemma ExactNameMatch(target: Tournament, c: Tournament, ratio: Ratio)
    requires target.date.Some? && c.date == target.date && c.name == target.name
    requires c.playerCount == target.playerCount
    requires ratio(Lower(c.name), Lower(c.name)) == 1.0
    ensures FindDuplicate(target, [c], [], [], ratio) == Some(c)
  {
  }

  /** "test_player_overlap_match": the candidate shares three of the four players. */
  lemma Norms()
    ensures Strip(Lower("Han Solo")) == "han solo"
    ensures Strip(Lower("Luke Skywalker")) == "luke skywalker"
    ensures Strip(Lower("Wedge Antilles")) == "wedge antilles"
    ensures Strip(Lower("Biggs Darklighter")) == "biggs darklighter"
  {
    NormHan();
    NormLuke();
    NormWedge();
    NormBiggs();
  }
  lemma NormHan() ensures Strip(Lower("Han Solo")) == "han solo" {
    NormOf("Han Solo", "han solo");
  }
  lemma NormLuke() ensures Strip(Lower("Luke Skywalker")) == "luke skywalker" {
    NormOf("Luke Skywalker", "luke skywalker");
  }
  lemma NormWedge() ensures Strip(Lower("Wedge Antilles")) == "wedge antilles" {
    NormOf("Wedge Antilles", "wedge antilles");
  }
  lemma NormBiggs() ensures Strip(Lower("Biggs Darklighter")) == "biggs darklighter" {
    NormOf("Biggs Darklighter", "biggs darklighter");
  }
  lemma NormOf(name: string, norm: string)
    requires Lower(name) == norm && |norm| > 0 && !IsSpace(norm[0]) && !IsSpace(norm[|norm| - 1])
    ensures Strip(Lower(name)) == norm
  {
    StripPlain(norm);
  }
  lemma SetA(a: seq<string>)
    requires a == ["Han Solo", "Luke Skywalker", "Wedge Antilles"]
    ensures NameSet(a) == {"han solo", "luke skywalker", "wedge antilles"}
  {
    Norms();
  }
  lemma SetB(b: seq<string>)
    requires b == ["Han Solo", "Luke Skywalker", "Biggs Darklighter", "Wedge Antilles"]
    ensures NameSet(b) == {"han solo", "luke skywalker", "biggs darklighter", "wedge antilles"}
  {
    Norms();
  }
  lemma ThreeOfFour(a: seq<string>, b: seq<string>, x: string, y: string, z: string, w: string)
    requires |a| > 0 && |b| > 0
    requires x != y && x != z && x != w && y != z && y != w && z != w
    requires NameSet(a) == {x, y, z} && NameSet(b) == {x, y, w, z}
    ensures Overlap(a, b) == 0.75
  {
    Cards(NameSet(a), NameSet(b), x, y, z, w);
  }
  lemma Cards(na: set<string>, nb: set<string>, x: string, y: string, z: string, w: string)
    requires x != y && x != z && x != w && y != z && y != w && z != w
    requires na == {x, y, z} && nb == {x, y, w, z}
    ensures |na * nb| == 3 && |na + nb| == 4
  {
    assert na * nb == {x, y, z};
    assert na + nb == nb;
    assert |{x}| == 1;
    assert {x, y} == {x} + {y};
    assert |{x, y}| == 2;
    assert {x, y, z} == {x, y} + {z};
    assert |{x, y, z}| == 3;
    assert {x, y, w, z} == {x, y, z} + {w};
  }
  lemma ExampleOverlap(a: seq<string>, b: seq<string>)
    requires a == ["Han Solo", "Luke Skywalker", "Wedge Antilles"]
    requires b == ["Han Solo", "Luke Skywalker", "Biggs Darklighter", "Wedge Antilles"]
    ensures Overlap(a, b) == 0.75
  {
    SetA(a);
    SetB(b);
    assert "han solo"[0] != "luke skywalker"[0];
    ThreeOfFour(a, b, "han solo", "luke skywalker", "wedge antilles", "biggs darklighter");
  }

  /** The same case through the search: the players map holds the candidate under its
      integer id. */
  lemma PlayerOverlapMatch(target: Tournament, c: Tournament, a: seq<string>, b: seq<string>, ratio: Ratio)
    requires Near(target, c) && c.id == JInt(2)
    requires a == ["Han Solo", "Luke Skywalker", "Wedge Antilles"]
    requires b == ["Han Solo", "Luke Skywalker", "Biggs Darklighter", "Wedge Antilles"]
    ensures FindDuplicate(target, [c], a, [(JInt(2), b)], ratio) == Some(c)
  {
    var cmap: PlayersMap := [(JInt(2), b)];
    assert Str(JInt(2)) == "2";
    assert Dicts.Get(cmap, JStr("2")) == None;
    assert CandidatePlayers(cmap, c.id) == b;
    ExampleOverlap(a, b);
    OverlapDecides(target, c, a, cmap, ratio);
  }
}
