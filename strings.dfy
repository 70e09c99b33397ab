/** The Python/JavaScript string operations the core relies on, on `seq<char>`.
    Case mapping and whitespace are the ASCII ones. */
module Strings {
  import opened Wrappers

  // ---------------------------------------------------------------- characters

  predicate IsSpace(c: char) {
    c == ' ' || c == '\t' || c == '\n' || c == '\r' || c == '\U{B}' || c == '\U{C}'
  }

  predicate IsDigit(c: char) { '0' <= c <= '9' }

  function LowerChar(c: char): char {
    if 'A' <= c <= 'Z' then (c as int + 32) as char else c
  }

  function UpperChar(c: char): char {
    if 'a' <= c <= 'z' then (c as int - 32) as char else c
  }

  /** `s.lower()` (ASCII letters only). */
  function Lower(s: string): (r: string)
    ensures |r| == |s|
  {
    seq(|s|, i requires 0 <= i < |s| => LowerChar(s[i]))
  }

  /** `s.upper()` (ASCII letters only). */
  function Upper(s: string): (r: string)
    ensures |r| == |s|
  {
    seq(|s|, i requires 0 <= i < |s| => UpperChar(s[i]))
  }

  lemma LowerIdempotent(s: string)
    ensures Lower(Lower(s)) == Lower(s)
  {
  }

  /** Text without a capital letter is its own lowercase. */
  lemma LowerNoCapitals(s: string)
    requires forall i :: 0 <= i < |s| ==> !('A' <= s[i] <= 'Z')
    ensures Lower(s) == s
  {
  }

  lemma LowerAppend(a: string, b: string)
    ensures Lower(a + b) == Lower(a) + Lower(b)
  {
  }

  // ---------------------------------------------------------------- strip

  function TrimLeft(s: string): (r: string)
    decreases |s|
  {
    if |s| > 0 && IsSpace(s[0]) then TrimLeft(s[1..]) else s
  }

  function TrimRight(s: string): (r: string)
    decreases |s|
  {
    if |s| > 0 && IsSpace(s[|s| - 1]) then TrimRight(s[..|s| - 1]) else s
  }

  /** `s.strip()` */
  function Strip(s: string): string {
    TrimRight(TrimLeft(s))
  }

  lemma {:induction false} TrimLeftShape(s: string)
    ensures |TrimLeft(s)| <= |s| && TrimLeft(s) == s[|s| - |TrimLeft(s)|..]
    ensures TrimLeft(s) == [] || !IsSpace(TrimLeft(s)[0])
    ensures forall i :: 0 <= i < |s| - |TrimLeft(s)| ==> IsSpace(s[i])
    decreases |s|
  {
    if |s| > 0 && IsSpace(s[0]) {
      TrimLeftShape(s[1..]);
    }
  }

  lemma {:induction false} TrimRightShape(s: string)
    ensures |TrimRight(s)| <= |s| && TrimRight(s) == s[..|TrimRight(s)|]
    ensures TrimRight(s) == [] || !IsSpace(TrimRight(s)[|TrimRight(s)| - 1])
    ensures forall i :: |TrimRight(s)| <= i < |s| ==> IsSpace(s[i])
    decreases |s|
  {
    if |s| > 0 && IsSpace(s[|s| - 1]) {
      TrimRightShape(s[..|s| - 1]);
    }
  }

  lemma {:induction false} TrimRightOfNonSpaceStart(s: string)
    requires s == [] || !IsSpace(s[0])
    ensures TrimRight(s) == [] || !IsSpace(TrimRight(s)[0])
  {
    TrimRightShape(s);
    if TrimRight(s) != [] {
      assert TrimRight(s)[0] == s[0];
    }
  }

  lemma {:induction false} TrimLeftId(s: string)
    requires s == [] || !IsSpace(s[0])
    ensures TrimLeft(s) == s
  {
  }

  lemma {:induction false} TrimRightId(s: string)
    requires s == [] || !IsSpace(s[|s| - 1])
    ensures TrimRight(s) == s
  {
  }

  /** The stripped text has no surrounding whitespace, and stripping again changes nothing. */
  /** Text that neither starts nor ends with whitespace is its own strip. */
  lemma StripPlain(s: string)
    requires s == [] || (!IsSpace(s[0]) && !IsSpace(s[|s| - 1]))
    ensures Strip(s) == s
  {
    TrimLeftId(s);
    TrimRightId(s);
  }

  lemma {:induction false} StripShape(s: string)
    ensures Strip(s) == [] || (!IsSpace(Strip(s)[0]) && !IsSpace(Strip(s)[|Strip(s)| - 1]))
    ensures Strip(Strip(s)) == Strip(s)
  {
    TrimLeftShape(s);
    TrimRightOfNonSpaceStart(TrimLeft(s));
    TrimRightShape(TrimLeft(s));
    var t := Strip(s);
    TrimLeftId(t);
    TrimRightId(t);
  }

  // ---------------------------------------------------------------- search

  predicate StartsWith(s: string, p: string) {
    |p| <= |s| && s[..|p|] == p
  }

  /** `sub in s` */
  predicate Contains(s: string, sub: string)
    decreases |s|
  {
    StartsWith(s, sub) || (|s| > 0 && Contains(s[1..], sub))
  }

  /** The index of the first occurrence of `sub` in `s` (`s.find(sub)`). */
  function IndexOf(s: string, sub: string): (r: Option<nat>)
    decreases |s|
  {
    if StartsWith(s, sub) then Some(0)
    else if |s| == 0 then None
    else match IndexOf(s[1..], sub)
      case None => None
      case Some(i) => Some(i + 1)
  }

  lemma {:induction false} IndexOfSpec(s: string, sub: string)
    ensures IndexOf(s, sub).Some? <==> Contains(s, sub)
    ensures IndexOf(s, sub).Some? ==>
      IndexOf(s, sub).value + |sub| <= |s| && s[IndexOf(s, sub).value..IndexOf(s, sub).value + |sub|] == sub
    ensures IndexOf(s, sub).Some? ==>
      forall j :: 0 <= j < IndexOf(s, sub).value ==> !StartsWith(s[j..], sub)
    decreases |s|
  {
    if !StartsWith(s, sub) && |s| > 0 {
      IndexOfSpec(s[1..], sub);
      if IndexOf(s[1..], sub).Some? {
        var i := IndexOf(s[1..], sub).value;
        assert s[1..][i..i + |sub|] == s[i + 1..i + 1 + |sub|];
        forall j | 0 <= j < i + 1 ensures !StartsWith(s[j..], sub) {
          if j > 0 {
            assert s[j..] == s[1..][j - 1..];
          }
        }
      }
    }
  }

  /** `sub in s` holds iff `sub` appears at some position. */
  lemma {:induction false} ContainsAt(s: string, sub: string, i: nat)
    requires i + |sub| <= |s| && s[i..i + |sub|] == sub
    ensures Contains(s, sub)
    decreases i
  {
    if i > 0 {
      assert s[1..][i - 1..i - 1 + |sub|] == s[i..i + |sub|];
      ContainsAt(s[1..], sub, i - 1);
    }
  }

  lemma {:induction false} ContainsPrefix(a: string, b: string, sub: string)
    requires Contains(a, sub)
    ensures Contains(a + b, sub)
  {
    IndexOfSpec(a, sub);
    var i := IndexOf(a, sub).value;
    assert (a + b)[i..i + |sub|] == a[i..i + |sub|];
    ContainsAt(a + b, sub, i);
  }

  lemma {:induction false} ContainsSuffix(a: string, b: string, sub: string)
    requires Contains(b, sub)
    ensures Contains(a + b, sub)
  {
    IndexOfSpec(b, sub);
    var i := IndexOf(b, sub).value;
    assert (a + b)[|a| + i..|a| + i + |sub|] == b[i..i + |sub|];
    ContainsAt(a + b, sub, |a| + i);
  }

  /** A text without spaces found in `a + " " + b` lies wholly in `a` or in `b`. */
  lemma ContainsAcrossSpace(a: string, b: string, sub: string)
    requires forall k :: 0 <= k < |sub| ==> sub[k] != ' '
    ensures Contains(a + " " + b, sub) <==> Contains(a, sub) || Contains(b, sub)
  {
    if Contains(a, sub) {
      ContainsPrefix(a, " " + b, sub);
      assert a + (" " + b) == a + " " + b;
    }
    if Contains(b, sub) {
      ContainsSuffix(a + " ", b, sub);
    }
    if Contains(a + " " + b, sub) {
      SplitAtSpace(a, b, sub);
    }
  }

  lemma SplitAtSpace(a: string, b: string, sub: string)
    requires forall k :: 0 <= k < |sub| ==> sub[k] != ' '
    requires Contains(a + " " + b, sub)
    ensures Contains(a, sub) || Contains(b, sub)
  {
    var s := a + " " + b;
    var i := ContainsIndex(s, sub);
    if i + |sub| <= |a| {
      assert a[i..i + |sub|] == s[i..i + |sub|];
      ContainsAt(a, sub, i);
    } else if i <= |a| {
      WindowChar(s, sub, i, |a| - i);
      assert false;
    } else {
      var j := i - |a| - 1;
      assert s[|a| + 1..] == b;
      assert s[i..i + |sub|] == s[|a| + 1..][j..j + |sub|];
      ContainsAt(b, sub, j);
    }
  }

  /** A text holding a character that `s` lacks does not occur in `s`. */
  lemma AbsentChar(s: string, sub: string, k: nat)
    requires k < |sub| && sub[k] !in s
    ensures !Contains(s, sub)
  {
    if Contains(s, sub) {
      var i := ContainsIndex(s, sub);
      WindowChar(s, sub, i, k);
    }
  }

  /** A lowercase letter is missing from `lower(s)` when neither case of it is in `s`. */
  lemma LowerAbsent(s: string, c: char)
    requires 'a' <= c <= 'z' && c !in s && UpperChar(c) !in s
    ensures c !in Lower(s)
  {
  }

  /** A character of an occurrence is the character of the text under it. */
  lemma WindowChar(s: string, sub: string, i: nat, k: nat)
    requires i + |sub| <= |s| && s[i..i + |sub|] == sub && k < |sub|
    ensures sub[k] == s[i + k]
  {
  }

  /** A position where `sub` occurs in `s`. */
  lemma {:induction false} ContainsIndex(s: string, sub: string) returns (i: nat)
    requires Contains(s, sub)
    ensures i + |sub| <= |s| && s[i..i + |sub|] == sub
    decreases |s|
  {
    if StartsWith(s, sub) {
      i := 0;
    } else {
      var j := ContainsIndex(s[1..], sub);
      assert s[1..][j..j + |sub|] == s[j + 1..j + 1 + |sub|];
      i := j + 1;
    }
  }

  lemma ContainsSelf(s: string)
    ensures Contains(s, s)
  {
    assert StartsWith(s, s);
  }

  // ---------------------------------------------------------------- replace

  /** `s.replace(pat, rep)`: every non-overlapping occurrence, left to right. */
  function Replace(s: string, pat: string, rep: string): string
    requires |pat| > 0
    decreases |s|
  {
    if |s| < |pat| then s
    else if s[..|pat|] == pat then rep + Replace(s[|pat|..], pat, rep)
    else [s[0]] + Replace(s[1..], pat, rep)
  }

  /** JavaScript `s.replace(pat, rep)` with a string pattern: the first occurrence only. */
  function ReplaceFirst(s: string, pat: string, rep: string): string
    requires |pat| > 0
  {
    match IndexOf(s, pat)
    case None => s
    case Some(i) => IndexOfSpecBound(s, pat); s[..i] + rep + s[i + |pat|..]
  }

  lemma IndexOfSpecBound(s: string, pat: string)
    ensures IndexOf(s, pat).Some? ==> IndexOf(s, pat).value + |pat| <= |s|
  {
    IndexOfSpec(s, pat);
  }

  /** Removing a one-character pattern leaves no occurrence of that character. */
  lemma {:induction false} ReplaceRemovesChar(s: string, c: char)
    ensures forall i :: 0 <= i < |Replace(s, [c], "")| ==> Replace(s, [c], "")[i] != c
    decreases |s|
  {
    if |s| >= 1 {
      ReplaceRemovesChar(s[1..], c);
    }
  }

  /** Replacing a one-character pattern by nothing is the identity on text without it. */
  lemma {:induction false} ReplaceCharAbsent(s: string, c: char)
    requires forall i :: 0 <= i < |s| ==> s[i] != c
    ensures Replace(s, [c], "") == s
    decreases |s|
  {
    if |s| >= 1 {
      ReplaceCharAbsent(s[1..], c);
    }
  }

  /** Removing a one-character pattern only drops characters. */
  lemma {:induction false} ReplaceCharKeeps(s: string, c: char)
    ensures forall i :: 0 <= i < |Replace(s, [c], "")| ==> Replace(s, [c], "")[i] in s
    decreases |s|
  {
    if |s| >= 1 {
      ReplaceCharKeeps(s[1..], c);
      var t := Replace(s[1..], [c], "");
      assert forall x :: x in t ==> x in s by {
        forall x | x in t ensures x in s {
          var i :| 0 <= i < |t| && t[i] == x;
          assert x in s[1..];
        }
      }
    }
  }

  /** Removing a one-character pattern distributes over concatenation. */
  lemma {:induction false} ReplaceCharAppend(a: string, b: string, c: char)
    ensures Replace(a + b, [c], "") == Replace(a, [c], "") + Replace(b, [c], "")
    decreases |a|
  {
    if |a| == 0 {
      assert a + b == b;
    } else {
      assert (a + b)[1..] == a[1..] + b;
      assert (a + b)[..1] == a[..1];
      ReplaceCharAppend(a[1..], b, c);
    }
  }

  /** Removing the one character that joins two texts without it concatenates them. */
  lemma ReplaceCharJoin(a: string, b: string, c: char)
    requires c !in a && c !in b
    ensures Replace(a + [c] + b, [c], "") == a + b
  {
    ReplaceCharAbsent(a, c);
    ReplaceCharAbsent(b, c);
    ReplaceCharOnly(c);
    var t := a + [c];
    ReplaceCharAppend(a, [c], c);
    assert Replace(t, [c], "") == a;
    ReplaceCharAppend(t, b, c);
  }

  lemma ReplaceCharOnly(c: char)
    ensures Replace([c], [c], "") == ""
  {
    assert [c][..1] == [c];
    assert Replace([c][1..], [c], "") == "";
  }

  // ---------------------------------------------------------------- split and join

  /** `sep.join(parts)` */
  function Join(parts: seq<string>, sep: string): string {
    if |parts| == 0 then ""
    else if |parts| == 1 then parts[0]
    else parts[0] + sep + Join(parts[1..], sep)
  }

  function IndexOfChar(s: string, c: char): (r: Option<nat>)
    ensures r.Some? ==> r.value < |s| && s[r.value] == c && forall j :: 0 <= j < r.value ==> s[j] != c
    ensures r.None? ==> forall j :: 0 <= j < |s| ==> s[j] != c
    decreases |s|
  {
    if |s| == 0 then None
    else if s[0] == c then Some(0)
    else match IndexOfChar(s[1..], c)
      case None => None
      case Some(i) => Some(i + 1)
  }

  /** `s.split(c)` for a one-character separator; empty pieces are kept. */
  function Split(s: string, c: char): (r: seq<string>)
    ensures |r| >= 1
    decreases |s|
  {
    match IndexOfChar(s, c)
    case None => [s]
    case Some(i) => [s[..i]] + Split(s[i + 1..], c)
  }

  predicate NoChar(s: string, c: char) {
    forall i :: 0 <= i < |s| ==> s[i] != c
  }

  /** Splitting a join of separator-free pieces gives the pieces back. */
  lemma {:induction false} SplitJoin(parts: seq<string>, c: char)
    requires |parts| >= 1
    requires forall k :: 0 <= k < |parts| ==> NoChar(parts[k], c)
    ensures Split(Join(parts, [c]), c) == parts
    decreases |parts|
  {
    if |parts| == 1 {
      assert IndexOfChar(parts[0], c).None?;
    } else {
      var rest := Join(parts[1..], [c]);
      var s := parts[0] + [c] + rest;
      assert s[|parts[0]|] == c;
      assert forall j :: 0 <= j < |parts[0]| ==> s[j] == parts[0][j];
      assert IndexOfChar(s, c) == Some(|parts[0]|);
      assert s[..|parts[0]|] == parts[0];
      assert s[|parts[0]| + 1..] == rest;
      SplitJoin(parts[1..], c);
    }
  }

  lemma {:induction false} JoinNoChar(parts: seq<string>, sep: string, c: char)
    requires NoChar(sep, c) || |parts| <= 1
    requires forall k :: 0 <= k < |parts| ==> NoChar(parts[k], c)
    ensures NoChar(Join(parts, sep), c)
    decreases |parts|
  {
    if |parts| > 1 {
      JoinNoChar(parts[1..], sep, c);
    }
  }

  /** `s.split(c, 1)`: the text before and after the first separator. */
  function SplitOnce(s: string, c: char): (r: Option<(string, string)>)
    ensures r.Some? <==> !NoChar(s, c)
    ensures r.Some? ==> NoChar(r.value.0, c) && r.value.0 + [c] + r.value.1 == s
  {
    match IndexOfChar(s, c)
    case None => None
    case Some(i) => assert s[..i] + [c] + s[i + 1..] == s; Some((s[..i], s[i + 1..]))
  }

  /** `s.split()` with no argument: the maximal runs of non-whitespace. */
  function Words(s: string): (r: seq<string>)
    decreases |s|
  {
    if |s| == 0 then []
    else if IsSpace(s[0]) then Words(s[1..])
    else
      var w := Word(s);
      [w] + Words(s[|w|..])
  }

  function Word(s: string): (r: string)
    ensures 0 <= |r| <= |s| && r == s[..|r|]
    ensures forall i :: 0 <= i < |r| ==> !IsSpace(r[i])
    ensures |r| == |s| || IsSpace(s[|r|])
    ensures |s| > 0 && !IsSpace(s[0]) ==> |r| > 0
    decreases |s|
  {
    if |s| == 0 || IsSpace(s[0]) then "" else [s[0]] + Word(s[1..])
  }

  lemma {:induction false} WordsAreWords(s: string)
    ensures forall k :: 0 <= k < |Words(s)| ==> |Words(s)[k]| > 0 && forall i :: 0 <= i < |Words(s)[k]| ==> !IsSpace(Words(s)[k][i])
    decreases |s|
  {
    if |s| > 0 {
      if IsSpace(s[0]) {
        WordsAreWords(s[1..]);
      } else {
        WordsAreWords(s[|Word(s)|..]);
      }
    }
  }

  /** `" ".join(s.split())` */
  function CollapseSpaces(s: string): string {
    Join(Words(s), " ")
  }

  // ---------------------------------------------------------------- integers

  function DigitValue(c: char): nat
    requires IsDigit(c)
  {
    c as int - '0' as int
  }

  function DigitChar(d: nat): (c: char)
    requires d < 10
    ensures IsDigit(c) && DigitValue(c) == d
  {
    ('0' as int + d) as char
  }

  predicate AllDigits(s: string) {
    forall i :: 0 <= i < |s| ==> IsDigit(s[i])
  }

  function DigitsValue(s: string): nat
    requires AllDigits(s)
  {
    if |s| == 0 then 0 else 10 * DigitsValue(s[..|s| - 1]) + DigitValue(s[|s| - 1])
  }

  /** Decimal text of a natural number, as `str(n)` writes it. */
  function NatToString(n: nat): (r: string)
    ensures |r| > 0 && AllDigits(r)
  {
    if n < 10 then [DigitChar(n)] else NatToString(n / 10) + [DigitChar(n % 10)]
  }

  /** `str(n)` */
  function IntToString(n: int): (r: string) {
    if n < 0 then "-" + NatToString(-n) else NatToString(n)
  }

  /** Digits with single underscores between them, as `int()` accepts (`1_000`). */
  predicate DigitGroups(s: string) {
    |s| > 0 && IsDigit(s[0]) && IsDigit(s[|s| - 1]) &&
    (forall i :: 0 <= i < |s| ==> IsDigit(s[i]) || s[i] == '_') &&
    (forall i :: 1 <= i < |s| && s[i] == '_' ==> s[i - 1] != '_')
  }

  function DropUnderscores(s: string): (r: string)
    ensures (forall i :: 0 <= i < |s| ==> IsDigit(s[i]) || s[i] == '_') ==> AllDigits(r)
  {
    if |s| == 0 then "" else (if s[0] == '_' then "" else [s[0]]) + DropUnderscores(s[1..])
  }

  /** Python `int(s)` on text: surrounding whitespace, an optional sign, decimal digits
      (with single underscores between digits). `None` is the ValueError. */
  function ParseInt(s: string): (r: Option<int>)
    ensures r.Some? ==> |Strip(s)| > 0
  {
    var t := Strip(s);
    var neg := |t| > 0 && t[0] == '-';
    var body := if |t| > 0 && (t[0] == '-' || t[0] == '+') then t[1..] else t;
    if DigitGroups(body) then
      var v: int := DigitsValue(DropUnderscores(body));
      Some(if neg then -v else v)
    else None
  }

  lemma {:induction false} DigitsValueOfNat(n: nat)
    ensures DigitsValue(NatToString(n)) == n
  {
    if n >= 10 {
      DigitsValueOfNat(n / 10);
      var s := NatToString(n);
      assert s[..|s| - 1] == NatToString(n / 10);
    }
  }

  lemma {:induction false} DropUnderscoresOfDigits(s: string)
    requires AllDigits(s)
    ensures DropUnderscores(s) == s
  {
    if |s| > 0 {
      DropUnderscoresOfDigits(s[1..]);
    }
  }

  lemma DigitsAreGroups(d: string)
    requires |d| > 0 && AllDigits(d)
    ensures DigitGroups(d)
  {
  }

  lemma StripOfIntString(n: int)
    ensures Strip(IntToString(n)) == IntToString(n)
  {
    var s := IntToString(n);
    assert !IsSpace(s[0]) && !IsSpace(s[|s| - 1]);
    TrimLeftId(s);
    TrimRightId(s);
  }

  /** `int(str(n)) == n` */
  lemma ParseIntOfString(n: int)
    ensures ParseInt(IntToString(n)) == Some(n)
  {
    var s := IntToString(n);
    var m: nat := if n < 0 then -n else n;
    var d := NatToString(m);
    StripOfIntString(n);
    DigitsAreGroups(d);
    DropUnderscoresOfDigits(d);
    DigitsValueOfNat(m);
    if n < 0 {
      assert s == "-" + d;
      assert s[0] == '-' && s[1..] == d;
    } else {
      assert s == d;
      assert s[0] != '-' && s[0] != '+';
    }
  }
}
