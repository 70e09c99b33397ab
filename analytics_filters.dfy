/** The format filter shared by the analytics aggregations: a selection of formats
    either lists the allowed format values or maps format values to on/off toggles. */
module AnalyticsFilters {
  import opened Wrappers
  import opened Formats
  import opened Models
  import opened Dicts

  /** `None` (or any empty value), a list or set of format values, or a dict of toggles. */
  datatype Selection =
    | NoSelection
    | Listed(items: seq<string>)
    | Toggles(flags: Dict<string, bool>)

  /** Python truthiness of the selection: `None`, `[]` and `{}` are all false. */
  predicate Selected(sel: Selection) {
    match sel
    case NoSelection => false
    case Listed(items) => |items| > 0
    case Toggles(flags) => |flags| > 0
  }

  /** The value a tournament is filtered by; a tournament without a format counts as
      `"other"`. */
  function TournamentFormat(t: Tournament): (r: string)
    ensures t.format.Some? ==> r == FormatValue(t.format.value)
    ensures t.format.None? ==> r == "other"
  {
    match t.format
    case Some(f) => FormatValue(f)
    case None => "other"
  }

  /** `check_format_filter`: everything passes an empty selection; a list tests
      membership; a dict answers `get(format, False)`. */
  function CheckFormatFilter(t: Tournament, sel: Selection): (r: bool)
    ensures !Selected(sel) ==> r
    ensures Selected(sel) && sel.Listed? ==> (r <==> TournamentFormat(t) in sel.items)
    ensures Selected(sel) && sel.Toggles? ==> (r <==> Get(sel.flags, TournamentFormat(t)) == Some(true))
  {
    if !Selected(sel) then true
    else
      var fmt := TournamentFormat(t);
      match sel
      case Listed(items) => fmt in items
      case Toggles(flags) => Get(flags, fmt).GetOr(false)
  }

  /** `[k for k, v in flags.items() if v]` */
  function TrueKeys(flags: Dict<string, bool>): (r: seq<string>)
    ensures |r| <= |flags|
    ensures forall k :: k in r <==> (k, true) in flags
  {
    if |flags| == 0 then []
    else
      var last := flags[|flags| - 1];
      var rest := TrueKeys(flags[..|flags| - 1]);
      assert forall e :: e in flags <==> e in flags[..|flags| - 1] || e == last;
      if last.1 then rest + [last.0] else rest
  }

  /** `get_active_formats`: the selection as a plain list of active format values. */
  function ActiveFormats(sel: Selection): (r: seq<string>)
    ensures !Selected(sel) ==> r == []
    ensures sel.Listed? ==> r == sel.items
    ensures sel.Toggles? ==> r == TrueKeys(sel.flags)
  {
    if !Selected(sel) then []
    else
      match sel
      case Listed(items) => items
      case Toggles(flags) => TrueKeys(flags)
  }

  /** A dict yields its true keys in insertion order: those of its first entries come
      before those of the entries inserted after them. */
  lemma {:induction false} TrueKeysAppend(a: Dict<string, bool>, b: Dict<string, bool>)
    ensures TrueKeys(a + b) == TrueKeys(a) + TrueKeys(b)
    decreases |b|
  {
    if |b| == 0 {
      assert a + b == a;
    } else {
      var ab := a + b;
      assert ab[..|ab| - 1] == a + b[..|b| - 1];
      assert ab[|ab| - 1] == b[|b| - 1];
      TrueKeysAppend(a, b[..|b| - 1]);
    }
  }

  /** With a non-empty dict without repeated keys, a tournament passes the filter
      exactly when its format is one of the active formats. */
  lemma CheckMatchesActive(t: Tournament, flags: Dict<string, bool>)
    requires |flags| > 0 && Distinct(flags)
    ensures CheckFormatFilter(t, Toggles(flags)) <==> TournamentFormat(t) in ActiveFormats(Toggles(flags))
  {
    var fmt := TournamentFormat(t);
    match Find(flags, fmt)
    case Some(i) =>
      forall j | 0 <= j < |flags| && flags[j] == (fmt, true) ensures j == i {
        FindDistinct(flags, fmt, j);
      }
    case None =>
  }

  /** A list selection is its own list of active formats, and the filter tests
      membership in it. */
  lemma ListedMatchesActive(t: Tournament, items: seq<string>)
    requires |items| > 0
    ensures CheckFormatFilter(t, Listed(items)) <==> TournamentFormat(t) in ActiveFormats(Listed(items))
  {
  }

  /** A non-empty dict whose toggles are all off rejects every tournament, and has no
      active format. */
  lemma AllTogglesOff(t: Tournament, flags: Dict<string, bool>)
    requires |flags| > 0 && forall i :: 0 <= i < |flags| ==> !flags[i].1
    ensures !CheckFormatFilter(t, Toggles(flags))
    ensures ActiveFormats(Toggles(flags)) == []
  {
    NoTrueKeys(flags);
  }

  lemma {:induction false} NoTrueKeys(flags: Dict<string, bool>)
    requires forall i :: 0 <= i < |flags| ==> !flags[i].1
    ensures TrueKeys(flags) == []
    decreases |flags|
  {
    if |flags| > 0 {
      NoTrueKeys(flags[..|flags| - 1]);
    }
  }

  /** The older `check_format_filter` of the card analytics reads
      `format_selection.get(...)` before testing for a list, so a non-empty list
      selection raises (`None` here) instead of testing membership. */
  function CardCheckAsWritten(t: Tournament, sel: Selection): (r: Option<bool>)
    ensures !Selected(sel) ==> r == Some(true)
    ensures Selected(sel) && sel.Listed? ==> r.None?
    ensures sel.Toggles? ==> r == Some(CheckFormatFilter(t, sel))
  {
    if !Selected(sel) then Some(true)
    else
      match sel
      case Listed(_) => None
      case Toggles(flags) => Some(Get(flags, TournamentFormat(t)).GetOr(false))
  }

  /** The card filter's list branch is unreachable: the selection `["xwa"]` raises. */
  lemma CardListSelectionRaises(t: Tournament)
    ensures CardCheckAsWritten(t, Listed(["xwa"])).None?
    ensures CheckFormatFilter(t, Listed(["xwa"])) <==> TournamentFormat(t) == "xwa"
  {
  }

  /** The card filter as intended agrees with `CheckFormatFilter` wherever the code as
      written does not raise. */
  lemma CardCheckAgrees(t: Tournament, sel: Selection)
    ensures CardCheckAsWritten(t, sel).Some? ==> CardCheckAsWritten(t, sel) == Some(CheckFormatFilter(t, sel))
    ensures CardCheckAsWritten(t, sel).None? <==> sel.Listed? && Selected(sel)
  {
  }
}
