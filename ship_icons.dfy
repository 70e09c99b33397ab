/** The interface's ship icon names (`ui_utils/ships.py`): a few XWS ids differ from the
    icon font's class names and are overridden; every other id is its own icon name. */
module ShipIcons {
  import opened Wrappers
  import Dicts
  import Icons
  import Strings

  /** `SHIP_ICON_OVERRIDES` */
  const Overrides: Dicts.Dict<string, string> := [
    ("tieininterceptor", "tieinterceptor"),
    ("tieadvx1", "tieadvancedx1"),
    ("tieadvv1", "tieadvancedv1"),
    ("scavengedyt1300lightfreighter", "scavengedyt1300"),
    ("xixt3classlightshuttle", "xiclasslightshuttle"),
    ("bwing", "asf01bwing"),
    ("ywing", "btla4ywing")
  ]

  /** `get_ship_icon_name`: `SHIP_ICON_OVERRIDES.get(xws_id, xws_id)` */
  function IconName(xws: string): string {
    Dicts.Get(Overrides, xws).GetOr(xws)
  }

  /** The overridden ids are told apart by their lengths, or else by one letter. */
  lemma OverridesDistinct()
    ensures Dicts.Distinct(Overrides)
  {
    forall i, j | 0 <= i < j < |Overrides| ensures Overrides[i].0 != Overrides[j].0 {
      if (i, j) == (1, 2) {
        assert Overrides[i].0[6] != Overrides[j].0[6];
      } else if (i, j) == (5, 6) {
        assert Overrides[i].0[0] != Overrides[j].0[0];
      } else {
        assert |Overrides[i].0| != |Overrides[j].0|;
      }
    }
  }

  /** Each of the seven listed ids gets its override and every other id is unchanged. */
  lemma IconNameSpec(xws: string)
    ensures |Overrides| == 7
    ensures forall i :: 0 <= i < |Overrides| ==> IconName(Overrides[i].0) == Overrides[i].1
    ensures !Dicts.Has(Overrides, xws) ==> IconName(xws) == xws
  {
    OverridesDistinct();
    forall i | 0 <= i < |Overrides| ensures IconName(Overrides[i].0) == Overrides[i].1 {
      Dicts.FindDistinct(Overrides, Overrides[i].0, i);
    }
  }

  /** No overridden id is as long as an override. */
  lemma NoOverrideIsAnId(v: string)
    requires |v| in {10, 13, 14, 15, 19}
    ensures !Dicts.Has(Overrides, v)
  {
    assert forall j :: 0 <= j < |Overrides| ==> |Overrides[j].0| != |v|;
  }

  /** No override is itself an overridden id, so looking the name up again changes
      nothing. */
  lemma IconNameIdempotent(xws: string)
    ensures IconName(IconName(xws)) == IconName(xws)
  {
    if Dicts.Has(Overrides, xws) {
      var i := Dicts.Find(Overrides, xws).value;
      assert forall j :: 0 <= j < |Overrides| ==> |Overrides[j].1| in {10, 13, 14, 15, 19};
      NoOverrideIsAnId(Overrides[i].1);
    }
  }

  /** The interceptor's override is the one fix the web front end's `ShipIcon` also makes. */
  lemma InterceptorAgreesWithWeb()
    ensures Icons.ShipIcon("tieininterceptor") == Some(IconName("tieininterceptor"))
  {
    var t := "tieininterceptor";
    assert Icons.ShipIcon(t) == Some("tieinterceptor") by {
      Strings.LowerNoCapitals(t);
      LengthBound(t, Icons.ShipPrefix);
      Icons.ShipIconPlain(t);
    }
    assert IconName(t) == "tieinterceptor" by {
      assert Dicts.Find(Overrides, t) == Some(0);
    }
  }

  lemma {:induction false} LengthBound(s: string, sub: string)
    requires |s| < |sub|
    ensures !Strings.Contains(s, sub)
    decreases |s|
  {
    if |s| > 0 {
      LengthBound(s[1..], sub);
    }
  }
}
