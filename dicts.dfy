/** Python's insertion-ordered `dict`, as the sequence of its entries. `d[k] = v`
    replaces the value of an existing key in place and appends a new key at the end. */
module Dicts {
  import opened Wrappers

  type Dict<K, V> = seq<(K, V)>

  function KeysOf<K(==), V>(d: Dict<K, V>): (r: seq<K>)
    ensures |r| == |d| && forall i :: 0 <= i < |d| ==> r[i] == d[i].0
  {
    seq(|d|, i requires 0 <= i < |d| => d[i].0)
  }

  /** No key occurs twice: every dict built by `Put` has this shape. */
  predicate Distinct<K(==), V>(d: Dict<K, V>) {
    forall i, j :: 0 <= i < j < |d| ==> d[i].0 != d[j].0
  }

  /** The position of `k`. */
  function Find<K(==), V>(d: Dict<K, V>, k: K): (r: Option<nat>)
    ensures r.Some? ==> r.value < |d| && d[r.value].0 == k && forall j :: 0 <= j < r.value ==> d[j].0 != k
    ensures r.None? ==> forall j :: 0 <= j < |d| ==> d[j].0 != k
  {
    if |d| == 0 then None
    else if d[0].0 == k then Some(0)
    else match Find(d[1..], k)
      case None => None
      case Some(i) => Some(i + 1)
  }

  predicate Has<K(==), V>(d: Dict<K, V>, k: K) {
    Find(d, k).Some?
  }

  /** `d.get(k)` */
  function Get<K(==), V>(d: Dict<K, V>, k: K): (r: Option<V>)
    ensures r.Some? <==> Has(d, k)
  {
    match Find(d, k)
    case Some(i) => Some(d[i].1)
    case None => None
  }

  /** `d[k] = v` */
  function Put<K(==), V>(d: Dict<K, V>, k: K, v: V): (r: Dict<K, V>)
    ensures Has(d, k) ==> |r| == |d| && KeysOf(r) == KeysOf(d)
    ensures !Has(d, k) ==> r == d + [(k, v)]
  {
    match Find(d, k)
    case Some(i) =>
      var r := d[i := (k, v)];
      assert KeysOf(r) == KeysOf(d);
      r
    case None => d + [(k, v)]
  }

  /** After `d[k] = v`, `k` maps to `v`, whether or not keys repeat. */
  lemma PutGet<K, V>(d: Dict<K, V>, k: K, v: V)
    ensures Get(Put(d, k, v), k) == Some(v)
  {
    var r := Put(d, k, v);
    match Find(d, k)
    case Some(i) =>
      assert r == d[i := (k, v)];
      assert Find(r, k) == Some(i);
    case None =>
      assert r == d + [(k, v)];
      assert r[|d|].0 == k && forall j :: 0 <= j < |d| ==> r[j] == d[j];
  }

  /** After `d[k] = v`, `k` maps to `v`, every other key keeps its value, and no key is
      repeated. */
  lemma PutSpec<K, V>(d: Dict<K, V>, k: K, v: V)
    requires Distinct(d)
    ensures Distinct(Put(d, k, v))
    ensures Get(Put(d, k, v), k) == Some(v)
    ensures forall k' :: k' != k ==> Get(Put(d, k, v), k') == Get(d, k')
  {
    var r := Put(d, k, v);
    match Find(d, k)
    case Some(i) =>
      assert r == d[i := (k, v)];
      FindDistinct(r, k, i);
      forall k' | k' != k ensures Get(r, k') == Get(d, k') {
        match Find(d, k')
        case Some(j) => FindDistinct(r, k', j);
        case None =>
      }
    case None =>
      assert r == d + [(k, v)];
      FindDistinct(r, k, |d|);
      forall k' | k' != k ensures Get(r, k') == Get(d, k') {
        match Find(d, k')
        case Some(j) => FindDistinct(r, k', j);
        case None =>
          assert forall j :: 0 <= j < |r| ==> r[j].0 != k';
      }
  }

  /** Every entry of `Put(d, k, v)` is the new entry or the entry of `d` at its place. */
  lemma PutEntry<K, V>(d: Dict<K, V>, k: K, v: V, i: nat)
    requires i < |Put(d, k, v)|
    ensures Put(d, k, v)[i] == (k, v) || (i < |d| && Put(d, k, v)[i] == d[i])
  {
  }

  /** In a dict without repeated keys, the entry holding `k` is the one `Find` finds. */
  lemma FindDistinct<K, V>(d: Dict<K, V>, k: K, i: nat)
    requires Distinct(d) && i < |d| && d[i].0 == k
    ensures Find(d, k) == Some(i)
  {
  }

  /** The keys of `Put(d, k, v)`: those of `d`, with `k` appended when it is new. */
  lemma PutKeys<K, V>(d: Dict<K, V>, k: K, v: V)
    ensures KeysOf(Put(d, k, v)) == if Has(d, k) then KeysOf(d) else KeysOf(d) + [k]
  {
    if !Has(d, k) {
      assert KeysOf(d + [(k, v)]) == KeysOf(d) + [k];
    }
  }

  /** Lookups depend only on the keys: two dicts with the same keys find every key at
      the same position. */
  lemma {:induction false} FindSameKeys<K, V>(a: Dict<K, V>, b: Dict<K, V>, k: K)
    requires KeysOf(a) == KeysOf(b)
    ensures Find(a, k) == Find(b, k)
    decreases |a|
  {
    if |a| > 0 {
      assert |b| == |KeysOf(b)| == |a|;
      assert a[0].0 == KeysOf(a)[0] == b[0].0;
      assert KeysOf(a[1..]) == KeysOf(a)[1..];
      assert KeysOf(b[1..]) == KeysOf(b)[1..];
      FindSameKeys(a[1..], b[1..], k);
    } else {
      assert |b| == 0;
    }
  }

  /** A key is present exactly when it is among the keys. */
  lemma HasIffKey<K, V>(d: Dict<K, V>, k: K)
    ensures Has(d, k) <==> k in KeysOf(d)
  {
    if k in KeysOf(d) {
      var i :| 0 <= i < |d| && KeysOf(d)[i] == k;
      assert d[i].0 == k;
    }
  }

  /** Appending an entry adds its key and nothing else. */
  lemma HasAppend<K, V>(d: Dict<K, V>, k: K, v: V, k': K)
    ensures Has(d + [(k, v)], k') <==> Has(d, k') || k' == k
  {
    var r := d + [(k, v)];
    if Has(d, k') {
      var i := Find(d, k').value;
      assert r[i].0 == k';
    }
    if k' == k {
      assert r[|d|].0 == k';
    }
    if Has(r, k') && !Has(d, k') {
      var i := Find(r, k').value;
      if i < |d| {
        assert d[i].0 == k';
      }
    }
  }

  /** `for k in ks: d[k] = v` */
  function PutAll<K(==), V>(d: Dict<K, V>, ks: seq<K>, v: V): Dict<K, V>
    decreases |ks|
  {
    if |ks| == 0 then d else Put(PutAll(d, ks[..|ks| - 1], v), ks[|ks| - 1], v)
  }

  /** Each key of `ks` maps to `v` and every other key keeps its value. */
  lemma {:induction false} PutAllSpec<K, V>(d: Dict<K, V>, ks: seq<K>, v: V)
    requires Distinct(d)
    ensures Distinct(PutAll(d, ks, v))
    ensures forall k :: Get(PutAll(d, ks, v), k) == if k in ks then Some(v) else Get(d, k)
    decreases |ks|
  {
    if |ks| > 0 {
      var init := ks[..|ks| - 1];
      PutAllSpec(d, init, v);
      PutSpec(PutAll(d, init, v), ks[|ks| - 1], v);
      assert ks == init + [ks[|ks| - 1]];
    }
  }
}
