/** The ranking panels of the web dashboard (`components/DashboardRankings.tsx`): sorted
    copies of the lists, ships, pilots and upgrades, of which each panel shows the first
    five with their ranks. Values are immutable here, so a sorted copy leaves its input as
    it was by construction. */
module DashboardRankings {
  import opened Wrappers
  import opened Sorting
  import Dicts

  /** A field of a statistics record: a number, a text such as "NA", or absent. */
  datatype Field = Num(x: real) | Text(s: string) | Absent

  /** A statistics record (ship, pilot or upgrade), by field name. */
  type Stat = Dicts.Dict<string, Field>

  /** The sort a panel asks for. */
  datatype SortKey = Popularity | WinRate

  function KeyName(k: SortKey): string {
    match k
    case Popularity => "popularity"
    case WinRate => "win_rate"
  }

  /** `Number(v) || 0`: a number as it is, a text by JavaScript's conversion `textValue`
      (None where it gives NaN, as for "NA"), NaN and absent as 0. */
  function Rank(v: Field, textValue: string -> Option<real>): real {
    match v
    case Num(x) => x
    case Text(s) => textValue(s).GetOr(0.0)
    case Absent => 0.0
  }

  function FieldOf(item: Stat, name: string): Field {
    Dicts.Get(item, name).GetOr(Absent)
  }

  function StatKey(k: SortKey, textValue: string -> Option<real>): Stat -> seq<real> {
    item => [Rank(FieldOf(item, KeyName(k)), textValue)]
  }

  /** `sortedBy(items, key)`: a stable sort of a copy, descending by `Number(x[key]) || 0`
      (the comparator `bv - av`). */
  function SortedBy(items: seq<Stat>, k: SortKey, textValue: string -> Option<real>): seq<Stat> {
    SortBy(items, StatKey(k, textValue), true)
  }

  /** The sorted copy is a permutation of the input, non-increasing in the rank value (so
      "NA", absent and NaN values rank as 0), keeps items of equal rank in input order, and
      sorting it again changes nothing. */
  lemma SortedBySpec(items: seq<Stat>, k: SortKey, textValue: string -> Option<real>)
    ensures multiset(SortedBy(items, k, textValue)) == multiset(items)
    ensures var r := SortedBy(items, k, textValue);
      forall i, j :: 0 <= i < j < |r| ==>
        Rank(FieldOf(r[i], KeyName(k)), textValue) >= Rank(FieldOf(r[j], KeyName(k)), textValue)
    ensures forall v ::
      KeyFilter(SortedBy(items, k, textValue), StatKey(k, textValue), [v]) == KeyFilter(items, StatKey(k, textValue), [v])
    ensures SortedBy(SortedBy(items, k, textValue), k, textValue) == SortedBy(items, k, textValue)
  {
    var key := StatKey(k, textValue);
    SortByMultiset(items, key, true);
    SortByOrdered(items, key, true);
    var r := SortedBy(items, k, textValue);
    forall i, j | 0 <= i < j < |r|
      ensures Rank(FieldOf(r[i], KeyName(k)), textValue) >= Rank(FieldOf(r[j], KeyName(k)), textValue)
    {
      assert !Before(key, true, r[j], r[i]);
      assert key(r[i]) == [Rank(FieldOf(r[i], KeyName(k)), textValue)];
      assert key(r[j]) == [Rank(FieldOf(r[j], KeyName(k)), textValue)];
    }
    forall v ensures KeyFilter(r, key, [v]) == KeyFilter(items, key, [v]) {
      SortByStable(items, key, true, [v]);
    }
    SortByIdempotent(items, key, true);
  }

  /** A squad list's figures (`ListData`). */
  datatype ListRow = ListRow(count: real, winRate: real)

  function ListKey(k: SortKey): ListRow -> seq<real> {
    (l: ListRow) => [if k == Popularity then l.count else l.winRate]
  }

  /** `sortedLists(items, key)`: by `count` for popularity, by `win_rate` otherwise,
      descending and stable. */
  function SortedLists(items: seq<ListRow>, k: SortKey): seq<ListRow> {
    SortBy(items, ListKey(k), true)
  }

  /** The sorted lists are a permutation, non-increasing in count (popularity) or win rate
      (otherwise), with ties in input order. */
  lemma SortedListsSpec(items: seq<ListRow>, k: SortKey)
    ensures multiset(SortedLists(items, k)) == multiset(items)
    ensures var r := SortedLists(items, k);
      k == Popularity ==> forall i, j :: 0 <= i < j < |r| ==> r[i].count >= r[j].count
    ensures var r := SortedLists(items, k);
      k == WinRate ==> forall i, j :: 0 <= i < j < |r| ==> r[i].winRate >= r[j].winRate
    ensures forall v :: KeyFilter(SortedLists(items, k), ListKey(k), [v]) == KeyFilter(items, ListKey(k), [v])
  {
    var key := ListKey(k);
    SortByMultiset(items, key, true);
    SortByOrdered(items, key, true);
    var r := SortedLists(items, k);
    forall i, j | 0 <= i < j < |r| ensures key(r[i])[0] >= key(r[j])[0] {
      assert !Before(key, true, r[j], r[i]);
    }
    forall v ensures KeyFilter(r, key, [v]) == KeyFilter(items, key, [v]) {
      SortByStable(items, key, true, [v]);
    }
  }

  /** `sorted.slice(0, 5).map((x, i) => ... rank={i + 1} ...)` */
  function TopFive<T>(sorted: seq<T>): (r: seq<(nat, T)>)
    ensures |r| == if |sorted| < 5 then |sorted| else 5
    ensures forall i :: 0 <= i < |r| ==> r[i] == (i + 1, sorted[i])
  {
    var shown := Take(sorted, 5);
    seq(|shown|, i requires 0 <= i < |shown| => (i + 1, shown[i]))
  }

  /** A panel: the first five sorted items ranked 1 to k, with k = min(5, n). */
  lemma PanelSpec(items: seq<Stat>, k: SortKey, textValue: string -> Option<real>)
    ensures var p := TopFive(SortedBy(items, k, textValue));
      |p| == (if |items| < 5 then |items| else 5) &&
      forall i :: 0 <= i < |p| ==> p[i].0 == i + 1 && p[i].1 in multiset(items)
  {
    SortedBySpec(items, k, textValue);
    var r := SortedBy(items, k, textValue);
    assert |r| == |multiset(r)| == |multiset(items)| == |items|;
    forall i | 0 <= i < |TopFive(r)| ensures TopFive(r)[i].1 in multiset(items) {
      assert r[i] in multiset(r);
    }
  }
}
