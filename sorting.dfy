/** Python's `sorted(xs, key=..., reverse=...)` / `list.sort`, JavaScript's stable
    `Array.prototype.sort`, and Python slicing.

    A sort key is a `seq<real>` compared lexicographically, which covers the tuple keys
    of the core (`(games > 5, win_rate, count)` is `[b, wr, count]`) and, through
    `Codes`, string keys compared by code point as Python compares `str`. */
module Sorting {

  // ---------------------------------------------------------------- keys

  /** Lexicographic order on keys; a proper prefix comes first. */
  predicate LexLess(a: seq<real>, b: seq<real>)
    decreases |a|
  {
    if |a| == 0 then |b| > 0
    else if |b| == 0 then false
    else a[0] < b[0] || (a[0] == b[0] && LexLess(a[1..], b[1..]))
  }

  lemma {:induction false} LexLessIrreflexive(a: seq<real>)
    ensures !LexLess(a, a)
    decreases |a|
  {
    if |a| > 0 {
      LexLessIrreflexive(a[1..]);
    }
  }

  lemma {:induction false} LexLessTransitive(a: seq<real>, b: seq<real>, c: seq<real>)
    requires LexLess(a, b) && LexLess(b, c)
    ensures LexLess(a, c)
    decreases |a|
  {
    if |a| > 0 && |b| > 0 && |c| > 0 && a[0] == b[0] && b[0] == c[0] {
      LexLessTransitive(a[1..], b[1..], c[1..]);
    }
  }

  lemma {:induction false} LexLessTotal(a: seq<real>, b: seq<real>)
    ensures a == b || LexLess(a, b) || LexLess(b, a)
    decreases |a|
  {
    if |a| > 0 && |b| > 0 && a[0] == b[0] {
      LexLessTotal(a[1..], b[1..]);
      if a[1..] == b[1..] {
        assert a == [a[0]] + a[1..] && b == [b[0]] + b[1..];
      }
    }
  }

  lemma LexLessAsymmetric(a: seq<real>, b: seq<real>)
    ensures !(LexLess(a, b) && LexLess(b, a))
  {
    if LexLess(a, b) && LexLess(b, a) {
      LexLessTransitive(a, b, a);
      LexLessIrreflexive(a);
    }
  }

  /** A string as the sequence of its code points. */
  function Codes(s: string): (r: seq<real>)
    ensures |r| == |s|
  {
    seq(|s|, i requires 0 <= i < |s| => s[i] as int as real)
  }

  lemma CodesInjective(s: string, t: string)
    ensures Codes(s) == Codes(t) ==> s == t
  {
    if Codes(s) == Codes(t) {
      forall i | 0 <= i < |s| ensures s[i] == t[i] {
        assert Codes(s)[i] == Codes(t)[i];
        assert s[i] as int == t[i] as int;
      }
    }
  }

  // ---------------------------------------------------------------- stable sort

  /** `x` goes strictly before `y`: ascending by key, or descending when `desc`
      (Python's `reverse=True`, which keeps equal keys in their original order). */
  predicate Before<T>(key: T -> seq<real>, desc: bool, x: T, y: T) {
    if desc then LexLess(key(y), key(x)) else LexLess(key(x), key(y))
  }

  lemma BeforeAsymmetric<T>(key: T -> seq<real>, desc: bool, x: T, y: T)
    ensures !(Before(key, desc, x, y) && Before(key, desc, y, x))
  {
    LexLessAsymmetric(key(x), key(y));
  }

  lemma BeforeTransitive<T>(key: T -> seq<real>, desc: bool, x: T, y: T, z: T)
    requires Before(key, desc, x, y) && Before(key, desc, y, z)
    ensures Before(key, desc, x, z)
  {
    if desc {
      LexLessTransitive(key(z), key(y), key(x));
    } else {
      LexLessTransitive(key(x), key(y), key(z));
    }
  }

  lemma BeforeTotal<T>(key: T -> seq<real>, desc: bool, x: T, y: T)
    ensures key(x) == key(y) || Before(key, desc, x, y) || Before(key, desc, y, x)
  {
    LexLessTotal(key(x), key(y));
  }

  /** No element is strictly before an element that precedes it. */
  predicate Ordered<T>(s: seq<T>, key: T -> seq<real>, desc: bool) {
    forall i, j :: 0 <= i < j < |s| ==> !Before(key, desc, s[j], s[i])
  }

  /** Insert `x` before the first element it strictly precedes, i.e. after its equals. */
  function Insert<T>(x: T, s: seq<T>, key: T -> seq<real>, desc: bool): seq<T> {
    if |s| == 0 then [x]
    else if Before(key, desc, x, s[0]) then [x] + s
    else [s[0]] + Insert(x, s[1..], key, desc)
  }

  /** Stable insertion sort. */
  function SortBy<T>(xs: seq<T>, key: T -> seq<real>, desc: bool): seq<T> {
    if |xs| == 0 then []
    else Insert(xs[|xs| - 1], SortBy(xs[..|xs| - 1], key, desc), key, desc)
  }

  lemma {:induction false} InsertMultiset<T>(x: T, s: seq<T>, key: T -> seq<real>, desc: bool)
    ensures multiset(Insert(x, s, key, desc)) == multiset(s) + multiset{x}
    decreases |s|
  {
    if |s| > 0 && !Before(key, desc, x, s[0]) {
      InsertMultiset(x, s[1..], key, desc);
      assert s == [s[0]] + s[1..];
    }
  }

  /** Sorting permutes its input. */
  lemma {:induction false} SortByMultiset<T>(xs: seq<T>, key: T -> seq<real>, desc: bool)
    ensures multiset(SortBy(xs, key, desc)) == multiset(xs)
    decreases |xs|
  {
    if |xs| > 0 {
      var n := |xs| - 1;
      SortByMultiset(xs[..n], key, desc);
      InsertMultiset(xs[n], SortBy(xs[..n], key, desc), key, desc);
      assert xs == xs[..n] + [xs[n]];
    }
  }

  lemma {:induction false} InsertOrdered<T>(x: T, s: seq<T>, key: T -> seq<real>, desc: bool)
    requires Ordered(s, key, desc)
    ensures Ordered(Insert(x, s, key, desc), key, desc)
    decreases |s|
  {
    var r := Insert(x, s, key, desc);
    if |s| == 0 {
    } else if Before(key, desc, x, s[0]) {
      forall i, j | 0 <= i < j < |r| ensures !Before(key, desc, r[j], r[i]) {
        if i == 0 {
          if Before(key, desc, r[j], x) {
            if j == 1 {
              BeforeAsymmetric(key, desc, x, s[0]);
            } else {
              BeforeTransitive(key, desc, r[j], x, s[0]);
            }
          }
        }
      }
    } else {
      InsertOrdered(x, s[1..], key, desc);
      InsertMultiset(x, s[1..], key, desc);
      var t := Insert(x, s[1..], key, desc);
      forall j | 0 <= j < |t| ensures !Before(key, desc, t[j], s[0]) {
        assert t[j] in multiset(t);
        assert t[j] in multiset(s[1..]) || t[j] == x;
        if t[j] != x {
          var k :| 0 <= k < |s[1..]| && s[1..][k] == t[j];
          assert s[k + 1] == t[j];
        }
      }
    }
  }

  /** The output of `SortBy` is ordered by the key. */
  lemma {:induction false} SortByOrdered<T>(xs: seq<T>, key: T -> seq<real>, desc: bool)
    ensures Ordered(SortBy(xs, key, desc), key, desc)
    decreases |xs|
  {
    if |xs| > 0 {
      SortByOrdered(xs[..|xs| - 1], key, desc);
      InsertOrdered(xs[|xs| - 1], SortBy(xs[..|xs| - 1], key, desc), key, desc);
    }
  }

  lemma {:induction false} InsertAtEnd<T>(x: T, s: seq<T>, key: T -> seq<real>, desc: bool)
    requires forall i :: 0 <= i < |s| ==> !Before(key, desc, x, s[i])
    ensures Insert(x, s, key, desc) == s + [x]
    decreases |s|
  {
    if |s| > 0 {
      InsertAtEnd(x, s[1..], key, desc);
    }
  }

  /** Sorting an already ordered sequence returns it unchanged (stability). */
  lemma {:induction false} SortByOrderedId<T>(xs: seq<T>, key: T -> seq<real>, desc: bool)
    requires Ordered(xs, key, desc)
    ensures SortBy(xs, key, desc) == xs
    decreases |xs|
  {
    if |xs| > 0 {
      var n := |xs| - 1;
      assert Ordered(xs[..n], key, desc);
      SortByOrderedId(xs[..n], key, desc);
      InsertAtEnd(xs[n], xs[..n], key, desc);
      assert xs[..n] + [xs[n]] == xs;
    }
  }

  /** Sorting twice is sorting once. */
  lemma SortByIdempotent<T>(xs: seq<T>, key: T -> seq<real>, desc: bool)
    ensures SortBy(SortBy(xs, key, desc), key, desc) == SortBy(xs, key, desc)
  {
    SortByOrdered(xs, key, desc);
    SortByOrderedId(SortBy(xs, key, desc), key, desc);
  }

  /** The elements whose key is `k`, in order. */
  function KeyFilter<T>(s: seq<T>, key: T -> seq<real>, k: seq<real>): seq<T> {
    if |s| == 0 then [] else (if key(s[0]) == k then [s[0]] else []) + KeyFilter(s[1..], key, k)
  }

  lemma {:induction false} KeyFilterAppend<T>(a: seq<T>, b: seq<T>, key: T -> seq<real>, k: seq<real>)
    ensures KeyFilter(a + b, key, k) == KeyFilter(a, key, k) + KeyFilter(b, key, k)
    decreases |a|
  {
    if |a| > 0 {
      var h := if key(a[0]) == k then [a[0]] else [];
      assert (a + b)[0] == a[0];
      assert (a + b)[1..] == a[1..] + b;
      KeyFilterAppend(a[1..], b, key, k);
      calc {
        KeyFilter(a + b, key, k);
        h + KeyFilter(a[1..] + b, key, k);
        h + (KeyFilter(a[1..], key, k) + KeyFilter(b, key, k));
        (h + KeyFilter(a[1..], key, k)) + KeyFilter(b, key, k);
        KeyFilter(a, key, k) + KeyFilter(b, key, k);
      }
    } else {
      assert a + b == b;
    }
  }

  lemma {:induction false} KeyFilterNone<T>(s: seq<T>, key: T -> seq<real>, k: seq<real>)
    requires forall i :: 0 <= i < |s| ==> key(s[i]) != k
    ensures KeyFilter(s, key, k) == []
    decreases |s|
  {
    if |s| > 0 {
      KeyFilterNone(s[1..], key, k);
    }
  }

  /** In an ordered sequence, nothing shares the key of an element strictly before its head. */
  lemma FollowersDifferKey<T>(x: T, s: seq<T>, key: T -> seq<real>, desc: bool)
    requires Ordered(s, key, desc) && |s| > 0 && Before(key, desc, x, s[0])
    ensures forall i :: 0 <= i < |s| ==> key(s[i]) != key(x)
  {
    forall i | 0 < i < |s| ensures key(s[i]) != key(x) {
      assert !Before(key, desc, s[i], s[0]);
    }
    LexLessIrreflexive(key(x));
  }

  lemma {:induction false} InsertKeyFilter<T>(x: T, s: seq<T>, key: T -> seq<real>, desc: bool, k: seq<real>)
    requires Ordered(s, key, desc)
    ensures KeyFilter(Insert(x, s, key, desc), key, k) ==
            KeyFilter(s, key, k) + (if key(x) == k then [x] else [])
    decreases |s|
  {
    if |s| == 0 {
    } else if Before(key, desc, x, s[0]) {
      assert Insert(x, s, key, desc) == [x] + s;
      KeyFilterAppend([x], s, key, k);
      if key(x) == k {
        FollowersDifferKey(x, s, key, desc);
        KeyFilterNone(s, key, k);
      }
    } else {
      assert Ordered(s[1..], key, desc);
      InsertKeyFilter(x, s[1..], key, desc, k);
      assert Insert(x, s, key, desc) == [s[0]] + Insert(x, s[1..], key, desc);
      KeyFilterAppend([s[0]], Insert(x, s[1..], key, desc), key, k);
      KeyFilterAppend([s[0]], s[1..], key, k);
      assert [s[0]] + s[1..] == s;
    }
  }

  /** Stability: the elements sharing a key keep their input order. */
  lemma {:induction false} SortByStable<T>(xs: seq<T>, key: T -> seq<real>, desc: bool, k: seq<real>)
    ensures KeyFilter(SortBy(xs, key, desc), key, k) == KeyFilter(xs, key, k)
    decreases |xs|
  {
    if |xs| > 0 {
      var n := |xs| - 1;
      SortByStable(xs[..n], key, desc, k);
      SortByOrdered(xs[..n], key, desc);
      InsertKeyFilter(xs[n], SortBy(xs[..n], key, desc), key, desc, k);
      KeyFilterAppend(xs[..n], [xs[n]], key, k);
      assert xs[..n] + [xs[n]] == xs;
    }
  }

  lemma OrderedTail<T>(a: seq<T>, key: T -> seq<real>, desc: bool)
    requires Ordered(a, key, desc) && |a| > 0
    ensures Ordered(a[1..], key, desc)
  {
  }

  lemma TailMultiset<T>(a: seq<T>, b: seq<T>)
    requires multiset(a) == multiset(b) && |a| > 0 && |b| > 0 && a[0] == b[0]
    ensures multiset(a[1..]) == multiset(b[1..])
  {
    assert a == [a[0]] + a[1..] && b == [b[0]] + b[1..];
    assert multiset(a[1..]) == multiset(a) - multiset{a[0]};
    assert multiset(b[1..]) == multiset(b) - multiset{b[0]};
  }

  lemma OrderedHeads<T>(a: seq<T>, b: seq<T>, key: T -> seq<real>, desc: bool)
    requires forall x, y :: key(x) == key(y) ==> x == y
    requires Ordered(a, key, desc) && Ordered(b, key, desc)
    requires multiset(a) == multiset(b) && |a| > 0
    ensures |b| > 0 && a[0] == b[0]
  {
    assert |b| == |multiset(b)| == |a|;
    assert a[0] in multiset(b) && b[0] in multiset(a);
    var i :| 0 <= i < |b| && b[i] == a[0];
    var j :| 0 <= j < |a| && a[j] == b[0];
    if a[0] != b[0] {
      assert !Before(key, desc, b[i], b[0]);
      assert !Before(key, desc, a[j], a[0]);
      BeforeTotal(key, desc, a[0], b[0]);
    }
  }

  /** With an injective key, two ordered permutations of each other are equal: the
      sorted output depends only on the multiset of the input. */
  lemma {:induction false} OrderedUnique<T>(a: seq<T>, b: seq<T>, key: T -> seq<real>, desc: bool)
    requires forall x, y :: key(x) == key(y) ==> x == y
    requires Ordered(a, key, desc) && Ordered(b, key, desc)
    requires multiset(a) == multiset(b)
    ensures a == b
    decreases |a|
  {
    if |a| == 0 {
      assert |b| == |multiset(b)| == 0;
    } else {
      OrderedHeads(a, b, key, desc);
      TailMultiset(a, b);
      OrderedTail(a, key, desc);
      OrderedTail(b, key, desc);
      OrderedUnique(a[1..], b[1..], key, desc);
      assert a == [a[0]] + a[1..] && b == [b[0]] + b[1..];
    }
  }

  /** Sorting by an injective key gives the same result for any permutation of the input. */
  lemma SortByPermutationInvariant<T>(xs: seq<T>, ys: seq<T>, key: T -> seq<real>, desc: bool)
    requires forall x, y :: key(x) == key(y) ==> x == y
    requires multiset(xs) == multiset(ys)
    ensures SortBy(xs, key, desc) == SortBy(ys, key, desc)
  {
    SortByOrdered(xs, key, desc);
    SortByOrdered(ys, key, desc);
    SortByMultiset(xs, key, desc);
    SortByMultiset(ys, key, desc);
    OrderedUnique(SortBy(xs, key, desc), SortBy(ys, key, desc), key, desc);
  }

  // ---------------------------------------------------------------- strings

  function StrKey(s: string): seq<real> { Codes(s) }

  /** `sorted(strs)` */
  function SortStrings(xs: seq<string>): seq<string> {
    SortBy(xs, StrKey, false)
  }

  lemma StrKeyInjective()
    ensures forall x, y :: StrKey(x) == StrKey(y) ==> x == y
  {
    forall x, y | StrKey(x) == StrKey(y) ensures x == y {
      CodesInjective(x, y);
    }
  }

  lemma SortStringsOne(x: string)
    ensures SortStrings([x]) == [x]
  {
    assert [x][..0] == [];
    assert SortBy([x][..0], StrKey, false) == [];
    assert Insert(x, [], StrKey, false) == [x];
  }

  /** `sorted` of strings is a permutation, ordered, and the same for every permutation
      of its input. */
  lemma SortStringsSpec(xs: seq<string>, ys: seq<string>)
    requires multiset(xs) == multiset(ys)
    ensures multiset(SortStrings(xs)) == multiset(xs)
    ensures Ordered(SortStrings(xs), StrKey, false)
    ensures SortStrings(xs) == SortStrings(ys)
  {
    StrKeyInjective();
    SortByMultiset(xs, StrKey, false);
    SortByOrdered(xs, StrKey, false);
    SortByPermutationInvariant(xs, ys, StrKey, false);
  }

  // ---------------------------------------------------------------- mapping

  /** `[f(x) for x in s]` */
  function Mapped<T, U>(s: seq<T>, f: T -> U): (r: seq<U>)
    ensures |r| == |s|
    ensures forall i :: 0 <= i < |s| ==> r[i] == f(s[i])
  {
    seq(|s|, i requires 0 <= i < |s| => f(s[i]))
  }

  /** A prefix one longer is the shorter one and the next element. */
  lemma PrefixSnoc<T>(s: seq<T>, n: nat)
    requires 0 < n <= |s|
    ensures s[..n] == s[..n - 1] + [s[n - 1]]
  {
  }

  /** Mapping one more element appends its image. */
  lemma MappedSnoc<T, U>(s: seq<T>, i: nat, f: T -> U)
    requires i < |s|
    ensures Mapped(s[..i + 1], f) == Mapped(s[..i], f) + [f(s[i])]
  {
    var a := Mapped(s[..i + 1], f);
    var b := Mapped(s[..i], f) + [f(s[i])];
    forall k | 0 <= k < |a| ensures a[k] == b[k] {
      if k < i {
        assert s[..i + 1][k] == s[..i][k];
      }
    }
  }

  /** `[x for x in s if p(x)]` */
  function Keep<T(!new)>(s: seq<T>, p: T -> bool): (r: seq<T>)
    ensures |r| <= |s|
    ensures forall x :: x in r <==> x in s && p(x)
  {
    if |s| == 0 then []
    else
      var rest := Keep(s[..|s| - 1], p);
      assert forall x :: x in s <==> x in s[..|s| - 1] || x == s[|s| - 1];
      if p(s[|s| - 1]) then rest + [s[|s| - 1]] else rest
  }

  /** Keeping from a non-empty sequence: the kept prefix, then its last element if it
      passes. */
  lemma KeepLast<T(!new)>(s: seq<T>, p: T -> bool)
    requires |s| > 0
    ensures Keep(s, p) == Keep(s[..|s| - 1], p) + if p(s[|s| - 1]) then [s[|s| - 1]] else []
  {
  }

  /** Mapping a permutation gives a permutation of the mapped sequence. */
  lemma {:induction false} MappedPermutation<T, U>(xs: seq<T>, ys: seq<T>, f: T -> U)
    requires multiset(xs) == multiset(ys)
    ensures multiset(Mapped(xs, f)) == multiset(Mapped(ys, f))
    decreases |xs|
  {
    if |xs| > 0 {
      var x := xs[0];
      assert x in multiset(ys);
      var i :| 0 <= i < |ys| && ys[i] == x;
      var xr := xs[..0] + xs[1..];
      var yr := ys[..i] + ys[i + 1..];
      assert multiset(xr) == multiset(yr) by {
        RemoveAt(xs, 0);
        RemoveAt(ys, i);
      }
      assert multiset(Mapped(xs, f)) == multiset(Mapped(xr, f)) + multiset{f(x)} by {
        MappedRemoveAt(xs, 0, f);
      }
      assert multiset(Mapped(ys, f)) == multiset(Mapped(yr, f)) + multiset{f(x)} by {
        MappedRemoveAt(ys, i, f);
      }
      MappedPermutation(xr, yr, f);
    }
  }

  lemma RemoveAt<T>(s: seq<T>, i: nat)
    requires i < |s|
    ensures multiset(s[..i] + s[i + 1..]) == multiset(s) - multiset{s[i]}
  {
    assert s == s[..i] + [s[i]] + s[i + 1..];
  }

  lemma MappedRemoveAt<T, U>(s: seq<T>, i: nat, f: T -> U)
    requires i < |s|
    ensures multiset(Mapped(s, f)) == multiset(Mapped(s[..i] + s[i + 1..], f)) + multiset{f(s[i])}
  {
    var m := Mapped(s, f);
    assert Mapped(s[..i] + s[i + 1..], f) == m[..i] + m[i + 1..];
    assert m == m[..i] + [m[i]] + m[i + 1..];
  }

  // ---------------------------------------------------------------- slicing

  /** Python's normalisation of a slice bound against a length. */
  function SliceBound(i: int, n: nat): (r: nat)
    ensures r <= n
  {
    if i < 0 then (if n + i < 0 then 0 else n + i) else if i > n then n else i
  }

  /** `s[lo:hi]` */
  function Slice<T>(s: seq<T>, lo: int, hi: int): (r: seq<T>)
    ensures |r| <= |s|
  {
    var a := SliceBound(lo, |s|);
    var b := SliceBound(hi, |s|);
    if a < b then s[a..b] else []
  }

  /** `s[:n]` */
  function Take<T>(s: seq<T>, n: int): (r: seq<T>)
    ensures n >= 0 ==> |r| == if n < |s| then n else |s|
    ensures |r| <= |s| && r == s[..|r|]
  {
    Slice(s, 0, n)
  }

  /** A prefix of an ordered list leaves out nothing that comes strictly before one of
      its own elements. */
  lemma TakeFront<T>(s: seq<T>, n: int, key: T -> seq<real>, desc: bool)
    requires Ordered(s, key, desc)
    ensures multiset(Take(s, n)) <= multiset(s)
    ensures forall t, u :: t in Take(s, n) && u in multiset(s) - multiset(Take(s, n)) ==> !Before(key, desc, u, t)
  {
    var r := Take(s, n);
    var rest := s[|r|..];
    assert s == r + rest;
    assert multiset(s) - multiset(r) == multiset(rest);
    forall t, u | t in r && u in multiset(s) - multiset(r)
      ensures !Before(key, desc, u, t)
    {
      var i :| 0 <= i < |r| && r[i] == t;
      var j :| 0 <= j < |rest| && rest[j] == u;
      assert s[i] == t && s[|r| + j] == u;
    }
  }

  /** A prefix of an ordered list is ordered. */
  lemma TakeOrdered<T>(s: seq<T>, n: int, key: T -> seq<real>, desc: bool)
    requires Ordered(s, key, desc)
    ensures Ordered(Take(s, n), key, desc)
  {
    var r := Take(s, n);
    assert forall i :: 0 <= i < |r| ==> r[i] == s[i];
  }

  /** A prefix takes nothing that is not in the list. */
  lemma TakeMultiset<T>(s: seq<T>, n: int)
    ensures multiset(Take(s, n)) <= multiset(s)
  {
    var r := Take(s, n);
    assert s == r + s[|r|..];
  }
}
