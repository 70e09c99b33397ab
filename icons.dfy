/** The web front end's icon components (`frontend/src/components/Icons.tsx`): the icon
    class of a faction, looked up in an object literal, and the icon name of a ship,
    normalised from its XWS id. What the components render is reduced to the class name
    and colour they would use, or None where they render `null`. */
module Icons {
  import opened Wrappers
  import opened Strings
  import Dicts
  import opened FactionColors

  /** `FACTION_ICONS`: there is no entry for "unknown". */
  const FactionIcons: Dicts.Dict<string, string> := [
    ("rebelalliance", "xwing-miniatures-font-rebel"),
    ("galacticempire", "xwing-miniatures-font-empire"),
    ("scumandvillainy", "xwing-miniatures-font-scum"),
    ("resistance", "xwing-miniatures-font-rebel"),
    ("firstorder", "xwing-miniatures-font-firstorder"),
    ("galacticrepublic", "xwing-miniatures-font-republic"),
    ("separatistalliance", "xwing-miniatures-font-separatists")
  ]

  /** `FactionIcon` as written: the icon class `FACTION_ICONS[faction] ?? ""` and the
      colour, or None when the class is falsy. */
  function FactionIconAsWritten(faction: string): (r: Option<(JsValue, JsValue)>)
    ensures r.None? <==> !Dicts.Has(FactionIcons, faction) && faction !in PrototypeMembers
  {
    assert forall i :: 0 <= i < |FactionIcons| ==> FactionIcons[i].1 != "";
    var iconClass := Coalesce(Index(FactionIcons, faction), Str(""));
    if !Truthy(iconClass) then None else Some((iconClass, ColorAsWritten(faction)))
  }

  /** An inherited member name renders an icon whose class is a function's text. */
  lemma InheritedNameRendersIcon(faction: string)
    requires faction in PrototypeMembers
    ensures FactionIconAsWritten(faction) == Some((Inherited(faction), Inherited(faction)))
  {
    InheritedNameIsNoColor(faction);
    InheritedNamesHaveNoIcon(faction);
    assert Index(FactionIcons, faction) == Inherited(faction);
  }

  /** No key of the icon table is an inherited member name. */
  lemma InheritedNamesHaveNoIcon(faction: string)
    requires faction in PrototypeMembers
    ensures !Dicts.Has(FactionIcons, faction)
  {
    // told apart by their first letters
    assert |faction| > 0 && faction[0] in {'c', 'h', 'i', 'p', 't', 'v', '_'};
    assert forall i :: 0 <= i < |FactionIcons| ==> |FactionIcons[i].0| > 0 && FactionIcons[i].0[0] in {'r', 'g', 's', 'f'};
  }

  /** `FactionIcon` looking at the table's own keys only: the class and the colour of a
      faction with an icon, None for any other key. */
  function FactionIcon(faction: string): (r: Option<(string, string)>)
    ensures r.Some? ==> Dicts.Get(FactionIcons, faction) == Some(r.value.0) && r.value.1 == Color(faction)
  {
    match Dicts.Get(FactionIcons, faction)
    case Some(c) => if c == "" then None else Some((c, Color(faction)))
    case None => None
  }

  /** An icon is rendered exactly for the seven factions of the table, so never for
      "unknown" nor for any key outside the table; the colour is then the faction's own,
      never the grey fallback. */
  lemma FactionIconSpec(faction: string)
    ensures FactionIcon(faction).Some? <==> Dicts.Has(FactionIcons, faction)
    ensures FactionIcon("unknown").None?
    ensures FactionIcon(faction).Some? ==> Dicts.Has(Colors, faction) && FactionIcon(faction).value.1 != Grey
  {
    IconKeys();
    assert FactionIcon("unknown").None?;
    if Dicts.Has(FactionIcons, faction) {
      IconAt(faction, Dicts.Find(FactionIcons, faction).value);
    }
  }

  /** The entry found for a key gives its class, and the colour of the same row. */
  lemma IconAt(faction: string, i: nat)
    requires Dicts.Find(FactionIcons, faction) == Some(i)
    ensures i < |FactionIcons| && FactionIcon(faction) == Some((FactionIcons[i].1, Colors[i].1))
  {
    IconKeys();
    assert Dicts.Get(FactionIcons, faction) == Some(FactionIcons[i].1);
    assert Color(faction) == Colors[i].1 by {
      TablesShareKeys();
      Dicts.FindDistinct(Colors, faction, i);
    }
  }

  /** The icon table holds the colour table's keys but the last ("unknown"), in the same
      order, each with a class that is not empty; colours there are never grey. */
  lemma IconKeys()
    ensures |FactionIcons| == |Colors| - 1
    ensures forall i :: 0 <= i < |FactionIcons| ==>
      FactionIcons[i].0 == Colors[i].0 && FactionIcons[i].1 != "" && Colors[i].1 != Grey
    ensures !Dicts.Has(FactionIcons, "unknown")
  {
    GreyOnlyLast();
    assert forall i :: 0 <= i < |FactionIcons| ==> |FactionIcons[i].0| > 0 && FactionIcons[i].0[0] != 'u';
  }

  /** Resistance uses the rebel icon, in its own colour. */
  lemma ResistanceSharesRebelIcon()
    ensures FactionIcon("resistance").Some? && FactionIcon("rebelalliance").Some?
    ensures FactionIcon("resistance").value.0 == FactionIcon("rebelalliance").value.0
    ensures FactionIcon("resistance").value.1 != FactionIcon("rebelalliance").value.1
  {
    assert Dicts.Find(FactionIcons, "resistance") == Some(3) by {
      ResistanceIconIndex();
    }
    assert Dicts.Find(FactionIcons, "rebelalliance") == Some(0);
    IconAt("resistance", 3);
    IconAt("rebelalliance", 0);
    assert FactionIcons[3].1 == FactionIcons[0].1 && Colors[3].1 != Colors[0].1;
  }

  lemma ResistanceIconIndex()
    ensures Dicts.Find(FactionIcons, "resistance") == Some(3)
  {
  }

  /** The corrected component agrees with the code as written on every key that is not an
      inherited member name. */
  lemma FactionIconAgrees(faction: string)
    requires faction !in PrototypeMembers
    ensures FactionIconAsWritten(faction) ==
      match FactionIcon(faction)
      case Some((c, k)) => Some((Str(c), Str(k)))
      case None => None
  {
    ColorAgrees(faction);
  }

  const ShipPrefix := "xwing-miniatures-ship-"

  /** The one name fixed after normalising. */
  function FixInterceptor(name: string): string {
    if name == "tieininterceptor" then "tieinterceptor" else name
  }

  /** `ShipIcon`'s clean name: None (renders `null`) for an empty id; otherwise lowercased,
      with the first "xwing-miniatures-ship-" removed, and the interceptor's name fixed. */
  function ShipIcon(xws: string): (r: Option<string>)
    ensures r.None? <==> xws == ""
  {
    if xws == "" then None
    else Some(FixInterceptor(ReplaceFirst(Lower(xws), ShipPrefix, "")))
  }

  predicate IsLower(s: string) {
    forall i :: 0 <= i < |s| ==> LowerChar(s[i]) == s[i]
  }

  /** The clean name is lowercase and depends only on the lowercased id. */
  lemma ShipIconLower(xws: string)
    ensures ShipIcon(xws) == ShipIcon(Lower(xws))
    ensures ShipIcon(xws).Some? ==> IsLower(ShipIcon(xws).value)
  {
    LowerIdempotent(xws);
    var l := Lower(xws);
    match IndexOf(l, ShipPrefix)
    case None =>
    case Some(i) =>
      IndexOfSpecBound(l, ShipPrefix);
      var c := l[..i] + l[i + |ShipPrefix|..];
      assert ReplaceFirst(l, ShipPrefix, "") == c;
      forall k | 0 <= k < |c| ensures LowerChar(c[k]) == c[k] {
        if k < i {
          assert c[k] == l[k];
        } else {
          var rest := l[i + |ShipPrefix|..];
          assert c[k] == rest[k - i];
        }
      }
  }

  /** An id of the font's own form loses its prefix, in any case. */
  lemma ShipIconPrefix(xws: string)
    requires StartsWith(Lower(xws), ShipPrefix)
    ensures ShipIcon(xws) == Some(FixInterceptor(Lower(xws)[|ShipPrefix|..]))
  {
    var l := Lower(xws);
    assert IndexOf(l, ShipPrefix) == Some(0);
    assert l[..0] + "" + l[|ShipPrefix|..] == l[|ShipPrefix|..];
  }

  /** An id without the prefix is only lowercased, and "tieininterceptor" in any case
      becomes "tieinterceptor". */
  lemma ShipIconPlain(xws: string)
    requires xws != "" && !Contains(Lower(xws), ShipPrefix)
    ensures ShipIcon(xws) == Some(FixInterceptor(Lower(xws)))
    ensures Lower(xws) == "tieininterceptor" ==> ShipIcon(xws) == Some("tieinterceptor")
  {
    IndexOfSpec(Lower(xws), ShipPrefix);
  }
}
