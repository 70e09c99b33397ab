/** The web front end's faction tables (`frontend/src/lib/factions.ts`): a colour and a
    label per faction key, and the colour lookup with its grey fallback. Indexing a
    JavaScript object literal also finds the members every object inherits from
    `Object.prototype`, which the lookup here makes explicit. */
module FactionColors {
  import opened Wrappers
  import Dicts
  import Factions

  /** The value of `obj[key]`: an own string property, a member inherited from
      `Object.prototype` (a function, or the prototype object itself for `__proto__`), or
      `undefined`. */
  datatype JsValue = Str(s: string) | Inherited(name: string) | Undefined

  /** The names every object literal inherits from `Object.prototype`. */
  const PrototypeMembers: set<string> := {
    "constructor", "hasOwnProperty", "isPrototypeOf", "propertyIsEnumerable",
    "toLocaleString", "toString", "valueOf", "__proto__",
    "__defineGetter__", "__defineSetter__", "__lookupGetter__", "__lookupSetter__"
  }

  /** `table[key]` on an object literal whose own properties are `table`. */
  function Index(table: Dicts.Dict<string, string>, key: string): (r: JsValue)
    ensures r.Str? <==> Dicts.Has(table, key)
    ensures r.Str? ==> Dicts.Get(table, key) == Some(r.s)
    ensures r.Inherited? <==> !Dicts.Has(table, key) && key in PrototypeMembers
  {
    match Dicts.Get(table, key)
    case Some(v) => Str(v)
    case None => if key in PrototypeMembers then Inherited(key) else Undefined
  }

  /** `a ?? b`: `b` only when `a` is null or undefined. */
  function Coalesce(a: JsValue, b: JsValue): (r: JsValue)
    ensures a.Undefined? ==> r == b
    ensures !a.Undefined? ==> r == a
  {
    if a.Undefined? then b else a
  }

  /** JavaScript truthiness: the empty string and `undefined` are falsy, functions and
      objects truthy. */
  predicate Truthy(v: JsValue) {
    match v
    case Str(s) => s != ""
    case Inherited(_) => true
    case Undefined => false
  }

  /** `FACTION_COLORS` */
  const Colors: Dicts.Dict<string, string> := [
    ("rebelalliance", "#FF3333"),
    ("galacticempire", "#2979FF"),
    ("scumandvillainy", "#006400"),
    ("resistance", "#FF8C00"),
    ("firstorder", "#800020"),
    ("galacticrepublic", "#E6D690"),
    ("separatistalliance", "#607D8B"),
    ("unknown", "#666666")
  ]

  /** `FACTION_LABELS` */
  const Labels: Dicts.Dict<string, string> := [
    ("rebelalliance", "Rebel Alliance"),
    ("galacticempire", "Galactic Empire"),
    ("scumandvillainy", "Scum & Villainy"),
    ("resistance", "Resistance"),
    ("firstorder", "First Order"),
    ("galacticrepublic", "Galactic Republic"),
    ("separatistalliance", "Separatist Alliance"),
    ("unknown", "Unknown")
  ]

  const Grey := "#666666"

  /** The eight colours of the table, in its order, no two alike. */
  function Palette(): (r: seq<string>)
    ensures |r| == |Colors| && forall i :: 0 <= i < |r| ==> r[i] == Colors[i].1
    ensures forall i, j :: 0 <= i < j < |r| ==> r[i] != r[j]
  {
    var r := ["#FF3333", "#2979FF", "#006400", "#FF8C00", "#800020", "#E6D690", "#607D8B", Grey];
    PaletteDistinct(r);
    r
  }

  /** The colours are told apart by their second and fourth characters. */
  lemma PaletteDistinct(r: seq<string>)
    requires r == ["#FF3333", "#2979FF", "#006400", "#FF8C00", "#800020", "#E6D690", "#607D8B", Grey]
    ensures forall i, j :: 0 <= i < j < |r| ==> r[i] != r[j]
  {
    var a, b := "F20F8E66", "37680D76";
    assert forall i :: 0 <= i < 8 ==> |r[i]| == 7 && r[i][1] == a[i] && r[i][3] == b[i];
    forall i, j | 0 <= i < j < |r| ensures r[i] != r[j] {
      assert a[i] != a[j] || b[i] != b[j];
    }
  }

  /** Both tables have distinct keys, the same keys in the same order, and those keys are
      exactly the XWS ids of the eight factions. */
  lemma TablesShareKeys()
    ensures Dicts.Distinct(Colors) && Dicts.Distinct(Labels)
    ensures Dicts.KeysOf(Colors) == Dicts.KeysOf(Labels)
    ensures |Colors| == |Factions.AllFactions| &&
      forall i :: 0 <= i < |Colors| ==> Colors[i].0 == Factions.Value(Factions.AllFactions[i])
  {
  }

  /** `getFactionColor` as written: `FACTION_COLORS[factionKey] ?? FACTION_COLORS.unknown`. */
  function ColorAsWritten(key: string): (r: JsValue)
    ensures !r.Undefined?
    ensures r.Inherited? <==> !Dicts.Has(Colors, key) && key in PrototypeMembers
  {
    Coalesce(Index(Colors, key), Index(Colors, "unknown"))
  }

  /** No faction key is an inherited member name. */
  lemma InheritedNamesAreNoKeys(key: string)
    requires key in PrototypeMembers
    ensures !Dicts.Has(Colors, key)
  {
    // told apart by their first letters
    assert |key| > 0 && key[0] in {'c', 'h', 'i', 'p', 't', 'v', '_'};
    assert forall i :: 0 <= i < |Colors| ==> |Colors[i].0| > 0 && Colors[i].0[0] in {'r', 'g', 's', 'f', 'u'};
  }

  /** An inherited name passes the `??` untouched: `getFactionColor("toString")` is the
      `toString` function, not a colour. */
  lemma InheritedNameIsNoColor(key: string)
    requires key in PrototypeMembers
    ensures ColorAsWritten(key) == Inherited(key)
  {
    InheritedNamesAreNoKeys(key);
  }

  /** `getFactionColor` looking at the table's own keys only (`Object.hasOwn`). */
  function Color(key: string): (r: string)
    ensures Dicts.Has(Colors, key) ==> Dicts.Get(Colors, key) == Some(r)
    ensures !Dicts.Has(Colors, key) ==> r == Grey
  {
    Dicts.Get(Colors, key).GetOr(Grey)
  }

  /** Whatever the key, the colour is one of the eight colours of the table, and a key of
      no faction gets the colour of "unknown". */
  lemma ColorInPalette(key: string)
    ensures Color(key) in Palette()
    ensures !Dicts.Has(Colors, key) ==> Color(key) == Color("unknown")
  {
    var p := Palette();
    if Dicts.Has(Colors, key) {
      var i := Dicts.Find(Colors, key).value;
      assert Color(key) == p[i];
    } else {
      UnknownColor();
      assert Color(key) == p[7];
    }
  }

  /** The corrected lookup agrees with the code as written on every key that is not an
      inherited member name. */
  lemma ColorAgrees(key: string)
    requires key !in PrototypeMembers
    ensures ColorAsWritten(key) == Str(Color(key))
  {
    if !Dicts.Has(Colors, key) {
      UnknownColor();
    }
  }

  /** The fallback entry: "unknown" is the last key of the table and maps to grey. */
  lemma UnknownColor()
    ensures Dicts.Get(Colors, "unknown") == Some(Grey)
  {
    TablesShareKeys();
    Dicts.FindDistinct(Colors, "unknown", 7);
  }

  /** The i-th faction's id gets the i-th colour; only "unknown" gets grey. */
  lemma FactionColor(i: nat)
    requires i < |Factions.AllFactions|
    ensures Color(Factions.Value(Factions.AllFactions[i])) == Colors[i].1
    ensures Color(Factions.Value(Factions.AllFactions[i])) == Grey <==> Factions.AllFactions[i] == Factions.UNKNOWN
  {
    TablesShareKeys();
    Dicts.FindDistinct(Colors, Factions.Value(Factions.AllFactions[i]), i);
    GreyIsLast(i);
  }

  /** Grey is the colour of the last entry only, the one of the last faction, UNKNOWN. */
  lemma GreyIsLast(i: nat)
    requires i < |Factions.AllFactions|
    ensures i < |Colors| && (Colors[i].1 == Grey <==> Factions.AllFactions[i] == Factions.UNKNOWN)
  {
    GreyOnlyLast();
    assert forall j :: 0 <= j < 7 ==> Factions.AllFactions[j] != Factions.UNKNOWN;
  }

  /** Every entry before the last one has a colour other than grey. */
  lemma GreyOnlyLast()
    ensures forall j :: 0 <= j < |Colors| - 1 ==> Colors[j].1 != Grey
  {
    assert forall j :: 0 <= j < 7 ==> Colors[j].1[1] != '6' || Colors[j].1[2] != '6';
  }
}
