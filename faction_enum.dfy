/** The older faction enumeration: the same ids and labels, but a reading that accepts
    only an exact id after normalisation. */
module FactionEnum {
  import opened Wrappers
  import opened Strings
  import opened Factions

  /** `str(f)`: the enum's text is its XWS id. */
  function Str(f: Faction): (r: string)
    ensures Normal(r) && r != ""
  {
    ValueNormal(f);
    Value(f)
  }

  /** `Faction.from_xws`: UNKNOWN for empty text, else the faction whose id equals the
      normalised text, else UNKNOWN. */
  function FromXws(s: string): (f: Faction)
    ensures s == "" ==> f == UNKNOWN
    ensures s != "" && f != UNKNOWN ==> Value(f) == Normalize(s)
    ensures s != "" && f == UNKNOWN ==> Normalize(s) == "unknown" || forall g :: Value(g) != Normalize(s)
  {
    if s == "" then UNKNOWN
    else
      AllFactionsComplete();
      DirectMatch(Normalize(s), AllFactions).GetOr(UNKNOWN)
  }

  /** Every faction is in the enumeration order. */
  lemma AllFactionsComplete()
    ensures forall f :: f in AllFactions
  {
    forall f: Faction ensures f in AllFactions {
      match f {
      case REBEL => assert AllFactions[0] == f;
      case EMPIRE => assert AllFactions[1] == f;
      case SCUM => assert AllFactions[2] == f;
      case RESISTANCE => assert AllFactions[3] == f;
      case FIRST_ORDER => assert AllFactions[4] == f;
      case REPUBLIC => assert AllFactions[5] == f;
      case SEPARATIST => assert AllFactions[6] == f;
      case UNKNOWN => assert AllFactions[7] == f;
      }
    }
  }

  /** Reading a faction's id gives the faction back. */
  lemma FromValue(f: Faction)
    ensures FromXws(Value(f)) == f
  {
    ValueNormal(f);
    NormalizeNormal(Value(f));
    AllFactionsComplete();
  }

  /** Reading the enum's own text gives the enum back. */
  lemma FromStr(f: Faction)
    ensures FromXws(Str(f)) == f
  {
    FromValue(f);
  }

  /** Aliases are not accepted here: "rebel" is UNKNOWN. */
  lemma AliasIsUnknown()
    ensures FromXws("rebel") == UNKNOWN
  {
    assert Normal("rebel");
    NormalizeNormal("rebel");
  }

  /** Where the exact reading finds a faction, the lenient reading finds the same one. */
  lemma AgreesWithLenient(s: string)
    ensures FromXws(s) != UNKNOWN ==> Factions.FromXws(s) == FromXws(s)
  {
    if s != "" && FromXws(s) != UNKNOWN {
      AllFactionsComplete();
      var d := DirectMatch(Normalize(s), AllFactions);
      assert d.Some?;
    }
  }
}
