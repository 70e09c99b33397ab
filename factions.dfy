/** The seven factions and their labels, and the lenient reading of a faction text that
    accepts XWS ids, labels and common aliases. */
module Factions {
  import opened Wrappers
  import opened Strings

  datatype Faction = REBEL | EMPIRE | SCUM | RESISTANCE | FIRST_ORDER | REPUBLIC | SEPARATIST | UNKNOWN

  /** Every faction, in declaration order. */
  const AllFactions: seq<Faction> :=
    [REBEL, EMPIRE, SCUM, RESISTANCE, FIRST_ORDER, REPUBLIC, SEPARATIST, UNKNOWN]

  /** The XWS id. */
  function Value(f: Faction): string {
    match f
    case REBEL => "rebelalliance"
    case EMPIRE => "galacticempire"
    case SCUM => "scumandvillainy"
    case RESISTANCE => "resistance"
    case FIRST_ORDER => "firstorder"
    case REPUBLIC => "galacticrepublic"
    case SEPARATIST => "separatistalliance"
    case UNKNOWN => "unknown"
  }

  /** Ids are seven letters ("unknown") or at least ten. */
  lemma IdLengths()
    ensures forall f :: |Value(f)| == 7 || |Value(f)| >= 10
  {
    forall f ensures |Value(f)| == 7 || |Value(f)| >= 10 {
      match f
      case REBEL => assert |"rebelalliance"| == 13;
      case EMPIRE => assert |"galacticempire"| == 14;
      case SCUM => assert |"scumandvillainy"| == 15;
      case RESISTANCE => assert |"resistance"| == 10;
      case FIRST_ORDER => assert |"firstorder"| == 10;
      case REPUBLIC => assert |"galacticrepublic"| == 16;
      case SEPARATIST => assert |"separatistalliance"| == 18;
      case UNKNOWN => assert |"unknown"| == 7;
    }
  }

  /** `Faction.label` */
  function Label(f: Faction): string {
    match f
    case REBEL => "Rebel Alliance"
    case EMPIRE => "Galactic Empire"
    case SCUM => "Scum and Villainy"
    case RESISTANCE => "Resistance"
    case FIRST_ORDER => "First Order"
    case REPUBLIC => "Galactic Republic"
    case SEPARATIST => "Separatist Alliance"
    case UNKNOWN => "Unknown"
  }

  /** Text that is already lowercase with no space or dash. */
  predicate Normal(s: string) {
    forall i :: 0 <= i < |s| ==> s[i] != ' ' && s[i] != '-' && !('A' <= s[i] <= 'Z')
  }

  /** `s.lower().replace(" ", "").replace("-", "")` */
  function Normalize(s: string): (r: string)
    ensures Normal(r)
    ensures |r| <= |s|
  {
    var a := Replace(Lower(s), " ", "");
    ReplaceRemovesChar(Lower(s), ' ');
    ReplaceCharKeeps(Lower(s), ' ');
    ReplaceCharKeeps(a, '-');
    ReplaceRemovesChar(a, '-');
    ReplaceShrinks(Lower(s), ' ');
    ReplaceShrinks(a, '-');
    Replace(a, "-", "")
  }

  lemma {:induction false} ReplaceShrinks(s: string, c: char)
    ensures |Replace(s, [c], "")| <= |s|
    decreases |s|
  {
    if |s| >= 1 {
      ReplaceShrinks(s[1..], c);
    }
  }

  /** Normal text normalises to itself. */
  lemma NormalizeNormal(s: string)
    requires Normal(s)
    ensures Normalize(s) == s
  {
    assert Lower(s) == s;
    ReplaceCharAbsent(s, ' ');
    ReplaceCharAbsent(s, '-');
  }

  /** Case does not matter: normalising the lowercase text gives the same. */
  lemma NormalizeLower(s: string)
    ensures Normalize(Lower(s)) == Normalize(s)
  {
    LowerIdempotent(s);
  }

  /** Spaces and dashes do not matter: they are dropped wherever they stand. */
  lemma NormalizeSeparator(a: string, b: string, sep: char)
    requires sep == ' ' || sep == '-'
    ensures Normalize(a + [sep] + b) == Normalize(a + b)
  {
    var la := Lower(a);
    var lb := Lower(b);
    LowerAppend(a + [sep], b);
    LowerAppend(a, [sep]);
    LowerAppend(a, b);
    assert Lower([sep]) == [sep];
    ReplaceCharAppend(la + [sep], lb, ' ');
    ReplaceCharAppend(la, [sep], ' ');
    ReplaceCharAppend(la, lb, ' ');
    var ra := Replace(la, " ", "");
    var rb := Replace(lb, " ", "");
    var rs := Replace([sep], " ", "");
    ReplaceCharAppend(ra + rs, rb, '-');
    ReplaceCharAppend(ra, rs, '-');
    ReplaceCharAppend(ra, rb, '-');
    if sep == ' ' {
      assert rs == "";
      assert ra + rs == ra;
    } else {
      assert rs == "-";
      assert Replace(rs, "-", "") == "";
    }
  }

  /** The first faction, in `fs` order, whose id is exactly `n`. */
  function DirectMatch(n: string, fs: seq<Faction>): (r: Option<Faction>)
    ensures r.Some? ==> r.value in fs && Value(r.value) == n
    ensures r.None? ==> forall f :: f in fs ==> Value(f) != n
  {
    if |fs| == 0 then None
    else if Value(fs[0]) == n then Some(fs[0])
    else DirectMatch(n, fs[1..])
  }

  /** The alias table, in its insertion order. */
  const Aliases: seq<(string, Faction)> := [
    ("rebel", REBEL), ("empire", EMPIRE), ("scum", SCUM), ("separatist", SEPARATIST),
    ("republic", REPUBLIC), ("firstorder", FIRST_ORDER), ("resistance", RESISTANCE)
  ]

  /** The faction of the first alias that occurs in `n`. */
  function AliasMatch(n: string, al: seq<(string, Faction)>): (r: Option<Faction>)
    ensures r.Some? ==> exists i :: (0 <= i < |al| && Contains(n, al[i].0) && r.value == al[i].1 &&
      forall j :: 0 <= j < i ==> !Contains(n, al[j].0))
    ensures r.None? ==> forall i :: 0 <= i < |al| ==> !Contains(n, al[i].0)
  {
    if |al| == 0 then None
    else if Contains(n, al[0].0) then Some(al[0].1)
    else
      var r := AliasMatch(n, al[1..]);
      assert forall j :: 1 <= j < |al| ==> al[j] == al[1..][j - 1];
      r
  }

  /** `Faction.from_xws`: UNKNOWN for empty text; else the faction whose id equals the
      normalised text, else the first alias that occurs in it, else UNKNOWN. */
  function FromXws(s: string): (f: Faction)
    ensures s == "" ==> f == UNKNOWN
    ensures s != "" && DirectMatch(Normalize(s), AllFactions).Some? ==>
      f == DirectMatch(Normalize(s), AllFactions).value && Value(f) == Normalize(s)
    ensures s != "" && DirectMatch(Normalize(s), AllFactions).None? ==>
      f == AliasMatch(Normalize(s), Aliases).GetOr(UNKNOWN)
  {
    if s == "" then UNKNOWN
    else
      var n := Normalize(s);
      match DirectMatch(n, AllFactions)
      case Some(f) => f
      case None => AliasMatch(n, Aliases).GetOr(UNKNOWN)
  }

  /** Every id is lowercase letters. */
  lemma ValueNormal(f: Faction)
    ensures Normal(Value(f))
  {
    if f in {REBEL, EMPIRE, SCUM, RESISTANCE} {
      FirstValuesNormal(f);
    } else {
      LastValuesNormal(f);
    }
  }

  lemma FirstValuesNormal(f: Faction)
    requires f in {REBEL, EMPIRE, SCUM, RESISTANCE}
    ensures Normal(Value(f))
  {
  }

  lemma LastValuesNormal(f: Faction)
    requires f in {FIRST_ORDER, REPUBLIC, SEPARATIST, UNKNOWN}
    ensures Normal(Value(f))
  {
  }

  /** Reading a faction's id gives the faction back. */
  lemma FromValue(f: Faction)
    ensures FromXws(Value(f)) == f
  {
    ValueNormal(f);
    NormalizeNormal(Value(f));
  }

  /** Reading a faction's label gives the faction back. */
  lemma FromLabel(f: Faction)
    ensures FromXws(Label(f)) == f
  {
    NormalizeLabel(f);
    assert Label(f) != "";
    FromValue(f);
  }

  /** A label normalises to its faction's id. */
  lemma NormalizeLabel(f: Faction)
    ensures Normalize(Label(f)) == Value(f)
  {
    if f in {REBEL, EMPIRE, SCUM, RESISTANCE} {
      NormalizeFirstLabels(f);
    } else {
      NormalizeLastLabels(f);
    }
  }

  lemma NormalizeFirstLabels(f: Faction)
    requires f in {REBEL, EMPIRE, SCUM, RESISTANCE}
    ensures Normalize(Label(f)) == Value(f)
  {
    match f {
    case REBEL =>
      RebelLabel();
      assert "Rebel" + [' '] + "Alliance" == Label(f);
    case EMPIRE =>
      EmpireLabel();
      assert "Galactic" + [' '] + "Empire" == Label(f);
    case SCUM =>
      ScumLabel();
      assert "Scum" + [' '] + "and Villainy" == Label(f);
    case RESISTANCE => ResistanceLabel();
    }
  }

  lemma NormalizeLastLabels(f: Faction)
    requires f in {FIRST_ORDER, REPUBLIC, SEPARATIST, UNKNOWN}
    ensures Normalize(Label(f)) == Value(f)
  {
    match f {
    case FIRST_ORDER =>
      FirstOrderLabel();
      assert "First" + [' '] + "Order" == Label(f);
    case REPUBLIC =>
      RepublicLabel();
      assert "Galactic" + [' '] + "Republic" == Label(f);
    case SEPARATIST =>
      SeparatistLabel();
      assert "Separatist" + [' '] + "Alliance" == Label(f);
    case UNKNOWN => UnknownLabel();
    }
  }

  lemma RebelLabel()
    ensures Normalize("Rebel" + [' '] + "Alliance") == "rebelalliance"
  {
    RebelWord();
    LabelNormalizes("Rebel", "Alliance", "rebelalliance");
  }

  lemma RebelWord()
    ensures Lower("Rebel" + "Alliance") == "rebelalliance" && Normal("rebelalliance")
  {
  }

  lemma EmpireLabel()
    ensures Normalize("Galactic" + [' '] + "Empire") == "galacticempire"
  {
    EmpireWord();
    LabelNormalizes("Galactic", "Empire", "galacticempire");
  }

  lemma EmpireWord()
    ensures Lower("Galactic" + "Empire") == "galacticempire" && Normal("galacticempire")
  {
    LowerAppend("Galactic", "Empire");
    assert Lower("Galactic") == "galactic";
    assert Lower("Empire") == "empire";
  }

  lemma ScumLabel()
    ensures Normalize("Scum" + [' '] + "and Villainy") == "scumandvillainy"
  {
    var w := "ScumandVillainy";
    assert Normalize("Scum" + [' '] + "and Villainy") == Normalize("Scumand" + [' '] + "Villainy") by {
      NormalizeSeparator("Scum", "and Villainy", ' ');
      assert "Scum" + "and Villainy" == "Scumand" + [' '] + "Villainy";
    }
    assert Normalize("Scumand" + [' '] + "Villainy") == Normalize(w) by {
      NormalizeSeparator("Scumand", "Villainy", ' ');
      assert "Scumand" + "Villainy" == w;
    }
    ScumWord();
    WordNormalizes(w, "scumandvillainy");
  }

  lemma ScumWord()
    ensures Lower("ScumandVillainy") == "scumandvillainy" && Normal("scumandvillainy")
  {
  }

  lemma ResistanceLabel()
    ensures Normalize("Resistance") == "resistance"
  {
    ResistanceWord();
    WordNormalizes("Resistance", "resistance");
  }

  lemma ResistanceWord()
    ensures Lower("Resistance") == "resistance" && Normal("resistance")
  {
  }

  lemma FirstOrderLabel()
    ensures Normalize("First" + [' '] + "Order") == "firstorder"
  {
    FirstOrderWord();
    LabelNormalizes("First", "Order", "firstorder");
  }

  lemma FirstOrderWord()
    ensures Lower("First" + "Order") == "firstorder" && Normal("firstorder")
  {
  }

  lemma RepublicLabel()
    ensures Normalize("Galactic" + [' '] + "Republic") == "galacticrepublic"
  {
    RepublicWord();
    LabelNormalizes("Galactic", "Republic", "galacticrepublic");
  }

  lemma RepublicWord()
    ensures Lower("Galactic" + "Republic") == "galacticrepublic" && Normal("galacticrepublic")
  {
    LowerAppend("Galactic", "Republic");
    assert Lower("Galactic") == "galactic";
    assert Lower("Republic") == "republic";
  }

  lemma SeparatistLabel()
    ensures Normalize("Separatist" + [' '] + "Alliance") == "separatistalliance"
  {
    SeparatistWord();
    LabelNormalizes("Separatist", "Alliance", "separatistalliance");
  }

  lemma SeparatistWord()
    ensures Lower("Separatist" + "Alliance") == "separatistalliance" && Normal("separatistalliance")
  {
    LowerAppend("Separatist", "Alliance");
    assert Lower("Separatist") == "separatist";
    assert Lower("Alliance") == "alliance";
  }

  /** The id "unknown" reads as UNKNOWN, whose label is "Unknown". */
  lemma UnknownId()
    ensures FromXws("unknown") == UNKNOWN && Label(UNKNOWN) == "Unknown"
  {
    FromValue(UNKNOWN);
  }

  lemma UnknownLabel()
    ensures Normalize("Unknown") == "unknown"
  {
    UnknownWord();
    WordNormalizes("Unknown", "unknown");
  }

  lemma UnknownWord()
    ensures Lower("Unknown") == "unknown" && Normal("unknown")
  {
  }

  /** A two-word label normalises to the joined lowercase words. */
  lemma LabelNormalizes(a: string, b: string, v: string)
    requires Lower(a + b) == v && Normal(v)
    ensures Normalize(a + [' '] + b) == v
  {
    NormalizeSeparator(a, b, ' ');
    WordNormalizes(a + b, v);
  }

  lemma WordNormalizes(w: string, v: string)
    requires Lower(w) == v && Normal(v)
    ensures Normalize(w) == v
  {
    NormalizeLower(w);
    NormalizeNormal(v);
  }

  /** Reading is idempotent: the id of the faction read reads back as that faction. */
  lemma FromXwsIdempotent(s: string)
    ensures FromXws(Value(FromXws(s))) == FromXws(s)
  {
    FromValue(FromXws(s));
  }

  /** Reading ignores case. */
  lemma FromXwsLower(s: string)
    ensures FromXws(Lower(s)) == FromXws(s)
  {
    NormalizeLower(s);
  }

  /** An alias wins only when no id matches and no earlier alias occurs; text with no id
      and no alias is UNKNOWN. */
  lemma FromXwsUnknown(s: string)
    ensures FromXws(s) == UNKNOWN <==>
      s == "" || Normalize(s) == "unknown" ||
      (DirectMatch(Normalize(s), AllFactions).None? &&
       forall i :: 0 <= i < |Aliases| ==> !Contains(Normalize(s), Aliases[i].0))
  {
    if s != "" {
      var n := Normalize(s);
      var d := DirectMatch(n, AllFactions);
      if d.Some? {
        assert Value(d.value) == n;
        assert d.value == UNKNOWN <==> n == "unknown";
      } else {
        assert n != "unknown" by {
          assert UNKNOWN in AllFactions;
        }
        var a := AliasMatch(n, Aliases);
        if a.Some? {
          var i :| 0 <= i < |Aliases| && Contains(n, Aliases[i].0) && a.value == Aliases[i].1;
          AliasTargetKnown(i);
        }
      }
    }
  }

  /** No alias reads as UNKNOWN. */
  lemma AliasTargetKnown(i: nat)
    requires i < |Aliases|
    ensures Aliases[i].1 != UNKNOWN
  {
  }

  /** Aliases are tried in table order, not in the order they occur in the text. */
  lemma AliasOrderExample()
    ensures FromXws("scumrebel") == REBEL
  {
    ScumRebelNoId();
    RebelAliasFirst();
  }

  lemma ScumRebelNoId()
    ensures Normalize("scumrebel") == "scumrebel"
    ensures DirectMatch("scumrebel", AllFactions) == None
  {
    var n := "scumrebel";
    assert Normal(n);
    NormalizeNormal(n);
    IdLengths();
  }

  lemma RebelAliasFirst()
    ensures AliasMatch("scumrebel", Aliases) == Some(REBEL)
  {
    assert StartsWith("rebel", "rebel");
    assert "scumrebel"[1..] == "cumrebel";
    assert "cumrebel"[1..] == "umrebel";
    assert "umrebel"[1..] == "mrebel";
    assert "mrebel"[1..] == "rebel";
  }
}
