/** Python values as produced by `json.loads` and stored in dict-typed fields:
    `None`, booleans, numbers, strings, lists and insertion-ordered dicts. */
module Json {
  import opened Wrappers
  import opened Strings

  datatype Json =
    | JNull
    | JBool(b: bool)
    | JInt(i: int)
    | JFloat(f: real)
    | JStr(s: string)
    | JList(items: seq<Json>)
    | JObj(fields: seq<(string, Json)>)

  /** Python truthiness (`bool(v)`). */
  predicate Truthy(v: Json) {
    match v
    case JNull => false
    case JBool(b) => b
    case JInt(i) => i != 0
    case JFloat(f) => f != 0.0
    case JStr(s) => s != ""
    case JList(xs) => |xs| > 0
    case JObj(fs) => |fs| > 0
  }

  /** `a or b` */
  function Or(a: Json, b: Json): (r: Json)
    ensures Truthy(r) <==> Truthy(a) || Truthy(b)
  {
    if Truthy(a) then a else b
  }

  function Lookup(fields: seq<(string, Json)>, k: string): (r: Option<Json>)
    ensures r.Some? ==> exists i :: 0 <= i < |fields| && fields[i] == (k, r.value)
    ensures r.None? ==> forall i :: 0 <= i < |fields| ==> fields[i].0 != k
  {
    if |fields| == 0 then None
    else if fields[0].0 == k then Some(fields[0].1)
    else
      var r := Lookup(fields[1..], k);
      assert r.Some? ==> exists i :: 0 <= i < |fields[1..]| && fields[1..][i] == (k, r.value);
      r
  }

  /** The first field named `k` decides the lookup. */
  lemma {:induction false} LookupAt(fields: seq<(string, Json)>, k: string, i: nat)
    requires i < |fields| && fields[i].0 == k
    requires forall j :: 0 <= j < i ==> fields[j].0 != k
    ensures Lookup(fields, k) == Some(fields[i].1)
    decreases i
  {
    if i > 0 {
      LookupAt(fields[1..], k, i - 1);
    }
  }

  /** `k in d` for a dict `d`; false for anything else. */
  predicate Has(d: Json, k: string) {
    d.JObj? && Lookup(d.fields, k).Some?
  }

  /** `d.get(k, default)` for a dict `d`. */
  function GetOr(d: Json, k: string, default: Json): Json {
    if d.JObj? then Lookup(d.fields, k).GetOr(default) else default
  }

  /** `d.get(k)` for a dict `d`: `None` when absent. */
  function Get(d: Json, k: string): Json {
    GetOr(d, k, JNull)
  }

  predicate IsDict(v: Json) { v.JObj? }

  predicate IsList(v: Json) { v.JList? }

  predicate IsStr(v: Json) { v.JStr? }

  /** The keys of a dict, in insertion order. */
  function Keys(d: Json): seq<string> {
    if d.JObj? then seq(|d.fields|, i requires 0 <= i < |d.fields| => d.fields[i].0) else []
  }

  /** A string field, `default` when absent or not a string. */
  function StrOr(d: Json, k: string, default: string): string {
    var v := Get(d, k);
    if v.JStr? then v.s else default
  }

  /** `str(v)` for `None`, booleans, integers and strings. Floats, lists and dicts are
      rendered by a tag, not by Python's `repr`. */
  function Str(v: Json): string {
    match v
    case JNull => "None"
    case JBool(b) => if b then "True" else "False"
    case JInt(i) => IntToString(i)
    case JStr(s) => s
    case JFloat(_) => "<float>"
    case JList(_) => "<list>"
    case JObj(_) => "<dict>"
  }

  /** `int(str(v).strip())`. `str()` of `None`, a boolean, a float, a list or a dict is
      never decimal text (`"None"`, `"True"`, `"3.0"`, `"[...]"`), so only integers and
      strings can succeed. */
  function IntOfStr(v: Json): (r: Option<int>)
    ensures v.JInt? ==> r == Some(v.i)
  {
    match v
    case JInt(i) => ParseIntOfString(i); Some(i)
    case JStr(s) => ParseInt(s)
    case _ => None
  }

  /** Python `int(v)`: booleans are 0/1, floats truncate toward zero, strings are parsed,
      anything else raises (`None`). */
  function Int(v: Json): (r: Option<int>)
    ensures v.JInt? ==> r == Some(v.i)
    ensures v.JNull? || v.JList? || v.JObj? ==> r.None?
  {
    match v
    case JInt(i) => Some(i)
    case JBool(b) => Some(if b then 1 else 0)
    case JFloat(f) => Some(if f >= 0.0 then f.Floor else -((-f).Floor))
    case JStr(s) => ParseInt(s)
    case _ => None
  }

  /** `int(v)`, and `default` where Python raises. */
  function IntOr(v: Json, default: int): int {
    Int(v).GetOr(default)
  }

  /** Python `float(v)` on numbers, booleans and integer text; other text is not modelled
      and reads as a failure. */
  function Float(v: Json): (r: Option<real>)
    ensures v.JFloat? ==> r == Some(v.f)
    ensures v.JInt? ==> r == Some(v.i as real)
  {
    match v
    case JInt(i) => Some(i as real)
    case JFloat(f) => Some(f)
    case JBool(b) => Some(if b then 1.0 else 0.0)
    case JStr(s) => (match ParseInt(s) case Some(n) => Some(n as real) case None => None)
    case _ => None
  }

  /** The numeric value of a number or boolean, for Python's `==` across int, float and
      bool. */
  function Number(v: Json): Option<real> {
    match v
    case JInt(i) => Some(i as real)
    case JFloat(f) => Some(f)
    case JBool(b) => Some(if b then 1.0 else 0.0)
    case _ => None
  }

  /** Python `a == b`: numbers and booleans compare by value (`1 == 1.0 == True`);
      everything else structurally. */
  predicate PyEq(a: Json, b: Json) {
    if Number(a).Some? && Number(b).Some? then Number(a) == Number(b) else a == b
  }

  /** Can be a dict key: lists and dicts are unhashable. */
  predicate Hashable(v: Json) {
    !v.JList? && !v.JObj?
  }

  /** `for x in v`: a list's items, a string's characters, a dict's keys; `None` for a
      value that is not iterable (the TypeError). */
  function Iter(v: Json): (r: Option<seq<Json>>)
    ensures v.JList? ==> r == Some(v.items)
    ensures r.Some? && |r.value| == 0 ==> !Truthy(v)
  {
    match v
    case JList(xs) => Some(xs)
    case JStr(s) => Some(seq(|s|, i requires 0 <= i < |s| => JStr([s[i]])))
    case JObj(fs) => Some(seq(|fs|, i requires 0 <= i < |fs| => JStr(fs[i].0)))
    case _ => None
  }

  /** `len(v)`: `None` is the TypeError of a value without a length. */
  function Length(v: Json): (r: Option<nat>)
    ensures v.JList? ==> r == Some(|v.items|)
  {
    match v
    case JList(xs) => Some(|xs|)
    case JStr(s) => Some(|s|)
    case JObj(fs) => Some(|fs|)
    case _ => None
  }

  /** `x in c` for a text `x`: list membership, substring, dict key; any other value
      raises. */
  function InJson(x: string, c: Json): (r: Result<bool>)
    ensures c.JList? ==> r == Ok(JStr(x) in c.items)
    ensures c.JStr? ==> r == Ok(Contains(c.s, x))
    ensures c.JObj? ==> r == Ok(Has(c, x))
    ensures !c.JList? && !c.JStr? && !c.JObj? ==> r.Err?
  {
    match c
    case JList(xs) => Ok(JStr(x) in xs)
    case JStr(s) => Ok(Contains(s, x))
    case JObj(_) => Ok(Has(c, x))
    case _ => Err("exception")
  }
}
