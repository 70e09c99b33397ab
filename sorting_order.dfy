/** Sorting criteria and directions for game content
    (`backend/data_structures/sorting_order.py`): each criterion has a value and a
    human-readable label, and a label is read back by searching the criteria in order. */
module SortingOrder {
  datatype SortDirection = ASCENDING | DESCENDING

  function DirectionValue(d: SortDirection): string {
    match d
    case ASCENDING => "asc"
    case DESCENDING => "desc"
  }

  datatype SortingCriteria = POPULARITY | NAME | WINRATE | COST | GAMES | LOADOUT

  /** The criteria in declaration order, the order `for member in cls` visits them. */
  const AllCriteria: seq<SortingCriteria> := [POPULARITY, NAME, WINRATE, COST, GAMES, LOADOUT]

  /** The enum value, which is also `str(c)`. */
  function Value(c: SortingCriteria): string {
    match c
    case POPULARITY => "popularity"
    case NAME => "name"
    case WINRATE => "win_rate"
    case COST => "cost"
    case GAMES => "games"
    case LOADOUT => "loadout"
  }

  /** `SortingCriteria.label` */
  function Label(c: SortingCriteria): (r: string)
    ensures |r| > 0 && 'A' <= r[0] <= 'Z'
  {
    match c
    case POPULARITY => "Popularity"
    case NAME => "Name"
    case WINRATE => "Win Rate"
    case COST => "Cost"
    case GAMES => "Games"
    case LOADOUT => "Loadout"
  }

  /** `str(c)` */
  function Str(c: SortingCriteria): string {
    Value(c)
  }

  /** Every criterion is listed, once. */
  lemma AllCriteriaComplete(c: SortingCriteria)
    ensures c in AllCriteria
    ensures forall i, j :: 0 <= i < j < |AllCriteria| ==> AllCriteria[i] != AllCriteria[j]
  {
  }

  /** No two criteria share a label, a value or a string form, and the two directions
      have different values. */
  lemma LabelsDistinct(a: SortingCriteria, b: SortingCriteria)
    ensures Label(a) == Label(b) ==> a == b
    ensures Value(a) == Value(b) ==> a == b
    ensures Str(a) == Str(b) ==> a == b
    ensures DirectionValue(ASCENDING) != DirectionValue(DESCENDING)
  {
  }

  /** The first criterion in `cs` with label `caption`, POPULARITY when there is none. */
  function Search(cs: seq<SortingCriteria>, caption: string): SortingCriteria {
    if |cs| == 0 then POPULARITY
    else if Label(cs[0]) == caption then cs[0]
    else Search(cs[1..], caption)
  }

  /** `SortingCriteria.from_label` */
  function FromLabelOf(caption: string): SortingCriteria {
    Search(AllCriteria, caption)
  }

  /** The search loop of `from_label`. */
  method FromLabel(caption: string) returns (c: SortingCriteria)
    ensures c == FromLabelOf(caption)
    ensures Label(c) == caption || (c == POPULARITY && forall d :: Label(d) != caption)
  {
    var i := 0;
    while i < |AllCriteria|
      invariant 0 <= i <= |AllCriteria|
      invariant Search(AllCriteria[i..], caption) == FromLabelOf(caption)
      invariant forall j :: 0 <= j < i ==> Label(AllCriteria[j]) != caption
    {
      if Label(AllCriteria[i]) == caption {
        return AllCriteria[i];
      }
      assert AllCriteria[i..][1..] == AllCriteria[i + 1..];
      i := i + 1;
    }
    forall d ensures Label(d) != caption {
      AllCriteriaComplete(d);
    }
    return POPULARITY;
  }

  /** The search finds a criterion with the label whenever one is in `cs`. */
  lemma {:induction false} SearchFinds(cs: seq<SortingCriteria>, caption: string)
    ensures (exists c :: c in cs && Label(c) == caption) ==> Label(Search(cs, caption)) == caption
    ensures (forall c :: c in cs ==> Label(c) != caption) ==> Search(cs, caption) == POPULARITY
    decreases |cs|
  {
    if |cs| > 0 {
      SearchFinds(cs[1..], caption);
      if exists c :: c in cs && Label(c) == caption {
        var c :| c in cs && Label(c) == caption;
        if Label(cs[0]) != caption {
          assert c in cs[1..];
        }
      }
    }
  }

  /** Reading a criterion's label back gives the criterion. */
  lemma FromLabelLabel(c: SortingCriteria)
    ensures FromLabelOf(Label(c)) == c
  {
    AllCriteriaComplete(c);
    SearchFinds(AllCriteria, Label(c));
    LabelsDistinct(FromLabelOf(Label(c)), c);
  }

  /** A text that is no label gives POPULARITY. */
  lemma FromLabelUnknown(caption: string)
    requires forall c :: Label(c) != caption
    ensures FromLabelOf(caption) == POPULARITY
  {
    SearchFinds(AllCriteria, caption);
  }
}
