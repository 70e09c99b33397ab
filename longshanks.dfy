/** The Longshanks scraper once the page has been read: the rows of the ranking tab
    become player results, and a round's selector label and a match's two player boxes
    become a match row. The page itself (browser, selectors, waits) is not modelled;
    every value it yields is an input. */
module Longshanks {
  import opened Wrappers
  import opened Strings
  import opened Formats
  import opened Models
  import Json
  import BaseScraper

  // ------------------------------------------------------------ player names

  /** The length of the run of digits that ends `s`. */
  function TrailingDigits(s: string): (n: nat)
    ensures n <= |s|
    ensures forall i :: |s| - n <= i < |s| ==> IsDigit(s[i])
    ensures n < |s| ==> !IsDigit(s[|s| - n - 1])
  {
    if |s| > 0 && IsDigit(s[|s| - 1]) then TrailingDigits(s[..|s| - 1]) + 1 else 0
  }

  /** `re.sub(r"\s*#\d+$", "", s)`: a `#` followed by digits at the very end goes,
      together with the whitespace just before it. */
  function DropTag(s: string): string {
    var n := TrailingDigits(s);
    if 0 < n < |s| && s[|s| - n - 1] == '#' then TrimRight(s[..|s| - n - 1]) else s
  }

  /** The participant name: stripped, without a trailing `#digits` tag, and with every
      run of whitespace collapsed to one space. */
  function CleanName(raw: string): string {
    CollapseSpaces(DropTag(Strip(raw)))
  }

  lemma {:induction false} TrailingDigitsOf(t: string, d: string)
    requires |t| > 0 && !IsDigit(t[|t| - 1]) && AllDigits(d)
    ensures TrailingDigits(t + d) == |d|
    decreases |d|
  {
    if |d| > 0 {
      assert (t + d)[..|t + d| - 1] == t + d[..|d| - 1];
      TrailingDigitsOf(t, d[..|d| - 1]);
    } else {
      assert t + d == t;
    }
  }

  /** A name tagged `t #123` loses the tag and the spaces before it. */
  lemma DropTagOf(t: string, d: string)
    requires |d| > 0 && AllDigits(d)
    ensures DropTag(t + "#" + d) == TrimRight(t)
  {
    var s := t + "#" + d;
    assert s == (t + "#") + d;
    TrailingDigitsOf(t + "#", d);
    assert s[..|s| - |d| - 1] == t;
  }

  predicate IsWord(w: string) {
    |w| > 0 && forall i :: 0 <= i < |w| ==> !IsSpace(w[i])
  }

  lemma {:induction false} WordOfPrefix(w: string, rest: string)
    requires forall i :: 0 <= i < |w| ==> !IsSpace(w[i])
    requires |rest| == 0 || IsSpace(rest[0])
    ensures Word(w + rest) == w
    decreases |w|
  {
    if |w| == 0 {
      assert w + rest == rest;
    } else {
      assert (w + rest)[1..] == w[1..] + rest;
      WordOfPrefix(w[1..], rest);
    }
  }

  lemma WordsOfPrefix(w: string, rest: string)
    requires IsWord(w)
    requires |rest| == 0 || IsSpace(rest[0])
    ensures Words(w + rest) == [w] + Words(rest)
  {
    WordOfPrefix(w, rest);
    assert (w + rest)[|w|..] == rest;
  }

  /** Splitting a space-joined sequence of words gives the words back. */
  lemma {:induction false} WordsOfJoin(ws: seq<string>)
    requires forall k :: 0 <= k < |ws| ==> IsWord(ws[k])
    ensures Words(Join(ws, " ")) == ws
    decreases |ws|
  {
    if |ws| == 1 {
      WordsOfPrefix(ws[0], "");
      assert ws[0] + "" == ws[0];
    } else if |ws| > 1 {
      var j := Join(ws[1..], " ");
      assert Join(ws, " ") == ws[0] + (" " + j);
      WordsOfPrefix(ws[0], " " + j);
      assert (" " + j)[1..] == j;
      WordsOfJoin(ws[1..]);
      assert ws == [ws[0]] + ws[1..];
    }
  }

  /** Collapsing whitespace twice is collapsing it once. */
  lemma CollapseIdempotent(s: string)
    ensures CollapseSpaces(CollapseSpaces(s)) == CollapseSpaces(s)
  {
    WordsAreWords(s);
    var ws := Words(s);
    assert forall k :: 0 <= k < |ws| ==> IsWord(ws[k]);
    WordsOfJoin(ws);
  }

  // ------------------------------------------------------------ row fields

  /** `re.match(r'^-?\d+$', s)` */
  predicate IsIntText(s: string) {
    var d := if |s| > 0 && s[0] == '-' then s[1..] else s;
    |d| > 0 && AllDigits(d)
  }

  /** The length of the run of digits that starts `s`. */
  function LeadingDigits(s: string): (n: nat)
    ensures n <= |s|
    ensures forall i :: 0 <= i < n ==> IsDigit(s[i])
    ensures n < |s| ==> !IsDigit(s[n])
  {
    if |s| > 0 && IsDigit(s[0]) then 1 + LeadingDigits(s[1..]) else 0
  }

  /** `re.search(r"(\d+)", s)`: the value of the first run of digits. */
  function FirstNumber(s: string): (r: Option<nat>)
    decreases |s|
  {
    if |s| == 0 then None
    else if IsDigit(s[0]) then Some(DigitsValue(s[..LeadingDigits(s)]))
    else FirstNumber(s[1..])
  }

  lemma {:induction false} LeadingDigitsOf(d: string, rest: string)
    requires AllDigits(d)
    requires |rest| == 0 || !IsDigit(rest[0])
    ensures LeadingDigits(d + rest) == |d|
    decreases |d|
  {
    if |d| > 0 {
      assert (d + rest)[1..] == d[1..] + rest;
      LeadingDigitsOf(d[1..], rest);
    } else {
      assert d + rest == rest;
    }
  }

  /** There is a first number exactly when some character is a digit. */
  lemma {:induction false} FirstNumberExists(s: string)
    ensures FirstNumber(s).Some? <==> exists i :: 0 <= i < |s| && IsDigit(s[i])
    decreases |s|
  {
    if |s| > 0 && !IsDigit(s[0]) {
      FirstNumberExists(s[1..]);
      if exists i :: 0 <= i < |s| && IsDigit(s[i]) {
        var i :| 0 <= i < |s| && IsDigit(s[i]);
        assert s[1..][i - 1] == s[i];
      }
    }
  }

  /** The first number of a text whose only digits are `str(n)` is `n`. */
  lemma {:induction false} FirstNumberOf(pre: string, n: nat, rest: string)
    requires forall i :: 0 <= i < |pre| ==> !IsDigit(pre[i])
    requires |rest| == 0 || !IsDigit(rest[0])
    ensures FirstNumber(pre + NatToString(n) + rest) == Some(n)
    decreases |pre|
  {
    var d := NatToString(n);
    var s := pre + d + rest;
    if |pre| == 0 {
      assert s == d + rest;
      LeadingDigitsOf(d, rest);
      assert s[..|d|] == d;
      DigitsValueOfNat(n);
    } else {
      assert s[1..] == pre[1..] + d + rest;
      FirstNumberOf(pre[1..], n, rest);
    }
  }

  /** `int(str(x).replace('-', '0').strip() or 0)`; `None` is the ValueError that makes
      the row be skipped. */
  function Count(s: string): Option<int> {
    var t := Strip(Replace(s, "-", "0"));
    if t == "" then Some(0) else ParseInt(t)
  }

  lemma {:induction false} ReplaceDashAbsent(s: string)
    requires NoChar(s, '-')
    ensures Replace(s, "-", "0") == s
    decreases |s|
  {
    if |s| >= 1 {
      ReplaceDashAbsent(s[1..]);
    }
  }

  /** A count written as a number reads back as that number, and a lone dash is 0. */
  lemma CountOfNat(n: nat)
    ensures Count(NatToString(n)) == Some(n)
    ensures Count("-") == Some(0)
  {
    NatCount(n);
    DashCount();
  }

  lemma NatCount(n: nat)
    ensures Count(NatToString(n)) == Some(n)
  {
    var d := NatToString(n);
    assert NoChar(d, '-');
    ReplaceDashAbsent(d);
    assert IntToString(n) == d;
    StripOfIntString(n);
    ParseIntOfString(n);
  }

  lemma DashCount()
    ensures Count("-") == Some(0)
  {
    assert Replace("-", "-", "0") == "0";
    assert Strip("0") == "0" by { TrimLeftId("0"); TrimRightId("0"); }
    assert ParseInt("0") == Some(0) by { ParseIntOfString(0); assert IntToString(0) == "0"; }
  }

  // ------------------------------------------------------------ stat boxes

  /** One `.stat` box: its text and its `title` attribute ("" when absent). */
  datatype StatItem = StatItem(text: string, title: string)

  /** Tournament points, mission/victory points and margin of victory. The `score`
      stat is read by the source but never used afterwards, so it is not kept. */
  datatype Stats = Stats(tp: int, vps: int, mov: int)

  /** The page's text functions for the stat boxes. `pairs(txt)` is the list of
      (label, value) matches of the "label value" pattern, or, when it has none, those
      of the "value label" pattern with the two parts swapped; `num(v)` is
      `int(float(v))`, `None` where it raises. */
  datatype Env = Env(
    tournamentId: int,
    baseUrl: string,
    pairs: string -> seq<(string, string)>,
    num: string -> Option<int>,
    parseJson: string -> Option<Json.Json>)

  /** The legacy subdomain keeps no event points and prefers MoV as tie-breaker. */
  predicate Legacy(env: Env) { Contains(env.baseUrl, "xwing-legacy") }

  function NormalizeStatText(s: string): string {
    Replace(Replace(Replace(Strip(s), "\U{00A0}", " "), "\U{2013}", "-"), "\U{2014}", "-")
  }

  /** The stat a label names receives the value; other labels change nothing. */
  function ApplyLabel(st: Stats, labelRaw: string, v: int): (r: Stats)
    ensures Lower(Strip(labelRaw)) == "tp" ==> r == st.(tp := v)
    ensures Lower(Strip(labelRaw)) == "vps" ==> r == st.(vps := v)
    ensures Lower(Strip(labelRaw)) == "mov" ==> r == st.(mov := v)
    ensures r == st || r == st.(tp := v) || r == st.(vps := v) || r == st.(mov := v)
  {
    var lbl := Lower(Strip(labelRaw));
    if lbl == "tp" || lbl == "tournament points" then st.(tp := v)
    else if lbl == "mp" || lbl == "mission points" || lbl == "vps" || lbl == "victory points" then st.(vps := v)
    else if lbl == "mov" || lbl == "margin of victory" then st.(mov := v)
    else st
  }

  function ApplyPairs(st: Stats, ms: seq<(string, string)>, num: string -> Option<int>): Stats
    decreases |ms|
  {
    if |ms| == 0 then st
    else
      var prev := ApplyPairs(st, ms[..|ms| - 1], num);
      match num(ms[|ms| - 1].1)
      case None => prev
      case Some(v) => ApplyLabel(prev, ms[|ms| - 1].0, v)
  }

  /** `str.isdigit()` (ASCII) */
  predicate IsDigitText(s: string) { |s| > 0 && AllDigits(s) }

  /** A box with no label match but a title: a plain number is assigned by the title. */
  function ApplyTitle(st: Stats, txt: string, title: string, num: string -> Option<int>): Stats {
    var check := ReplaceFirst(ReplaceFirst(txt, ".", ""), "-", "");
    var t := Lower(title);
    if !IsDigitText(check) then st
    else match num(txt)
      case None => st
      case Some(v) =>
        if Contains(t, "tournament points") || t == "tp" then st.(tp := v)
        else if Contains(t, "mission points") || Contains(t, "victory points") || t == "vps" then st.(vps := v)
        else if Contains(t, "margin of victory") || t == "mov" then st.(mov := v)
        else st
  }

  function ApplyStat(st: Stats, item: StatItem, env: Env): Stats {
    var txt := NormalizeStatText(item.text);
    var ms := env.pairs(txt);
    var st1 := ApplyPairs(st, ms, env.num);
    if |ms| == 0 && item.title != "" then ApplyTitle(st1, txt, item.title, env.num) else st1
  }

  /** The stats of a row: all start at 0, and each box in turn overwrites what it names. */
  function ReadStats(items: seq<StatItem>, env: Env): Stats
    decreases |items|
  {
    if |items| == 0 then Stats(0, 0, 0)
    else ApplyStat(ReadStats(items[..|items| - 1], env), items[|items| - 1], env)
  }

  /** A box matching no pattern and carrying no title leaves the stats as they are. */
  lemma InertStat(st: Stats, item: StatItem, env: Env)
    requires |env.pairs(NormalizeStatText(item.text))| == 0 && item.title == ""
    ensures ApplyStat(st, item, env) == st
  {
  }

  method ReadStatsOf(items: seq<StatItem>, env: Env) returns (st: Stats)
    ensures st == ReadStats(items, env)
  {
    st := Stats(0, 0, 0);
    var k := 0;
    while k < |items|
      invariant 0 <= k <= |items|
      invariant st == ReadStats(items[..k], env)
    {
      var txt := NormalizeStatText(items[k].text);
      var ms := env.pairs(txt);
      var before := st;
      var j := 0;
      while j < |ms|
        invariant 0 <= j <= |ms|
        invariant st == ApplyPairs(before, ms[..j], env.num)
      {
        var (lbl, raw) := ms[j];
        match env.num(raw) {
          case None =>
          case Some(v) => st := ApplyLabel(st, lbl, v);
        }
        assert ms[..j + 1][..j] == ms[..j];
        j := j + 1;
      }
      assert ms[..|ms|] == ms;
      if |ms| == 0 && items[k].title != "" {
        st := ApplyTitle(st, txt, items[k].title, env.num);
      }
      assert items[..k + 1][..k] == items[..k];
      k := k + 1;
    }
    assert items[..|items|] == items;
  }

  // ------------------------------------------------------------ rows

  /** One element of the ranking tab: a section header (`h3`) or a player row. Every
      field is the element's text; `xws` is the list icon's `data-list`, `pid` the
      Longshanks user id and `team` the team the row belongs to. */
  datatype DumpItem =
    | Header(text: string)
    | Player(nameRaw: string, rankRaw: string, wins: string, loss: string, draw: string,
             stats: seq<StatItem>, xws: Option<string>, pid: Option<string>, team: Option<string>)

  datatype Section = SwissSection | CutSection

  /** A header naming the cut or a top bracket switches to cut fields; one naming the
      main event or swiss switches back; any other header keeps the section. */
  function NextSection(sec: Section, text: string): (r: Section)
    ensures Contains(Lower(text), "cut") || Contains(Lower(text), "top") ==> r == CutSection
    ensures !Contains(Lower(text), "cut") && !Contains(Lower(text), "top") ==>
      r == (if Contains(Lower(text), "main") || Contains(Lower(text), "swiss") then SwissSection else sec)
  {
    var h := Lower(text);
    if Contains(h, "cut") || Contains(h, "top") then CutSection
    else if Contains(h, "main") || Contains(h, "swiss") then SwissSection
    else sec
  }

  /** What a kept row contributes: the cleaned name, rank, W/L/D, event points and
      tie-breaker. */
  datatype Entry = Entry(name: string, rank: int, wins: int, losses: int, draws: int, ep: Option<int>, tb: int)

  /** The rows that are not results: byes, drops and the placeholder account 308. */
  predicate Excluded(name: string, pid: Option<string>) {
    Contains(Lower(name), "bye") || Contains(Lower(name), "drop") || pid == Some("308")
  }

  /** Missing tournament points are rebuilt from the record. */
  function TournamentPoints(tp: int, wins: int, draws: int): int {
    if tp == 0 && (wins != 0 || draws != 0) then wins * 3 + draws else tp
  }

  function RowEntry(p: DumpItem, env: Env): (r: Option<Entry>)
    requires p.Player?
    ensures r.Some? <==>
      !Excluded(CleanName(p.nameRaw), p.pid) && IsIntText(Strip(p.wins)) &&
      FirstNumber(p.rankRaw).GetOr(0) != 0 &&
      Count(p.wins).Some? && Count(p.loss).Some? && Count(p.draw).Some?
    ensures r.Some? ==> r.value.name == CleanName(p.nameRaw) && r.value.rank > 0
  {
    var name := CleanName(p.nameRaw);
    var rank := FirstNumber(p.rankRaw).GetOr(0);
    if Excluded(name, p.pid) || !IsIntText(Strip(p.wins)) || rank == 0 then None
    else
      match (Count(p.wins), Count(p.loss), Count(p.draw))
      case (Some(w), Some(l), Some(d)) =>
        var st := ReadStats(p.stats, env);
        var tp := TournamentPoints(st.tp, w, d);
        var ep := if Legacy(env) then None else Some(tp);
        var tb := if Legacy(env) then (if st.mov != 0 then st.mov else st.vps) else st.vps;
        Some(Entry(name, rank, w, l, d, ep, tb))
      case _ => None
  }

  lemma {:induction false} ReplaceDashOfIntText(s: string)
    requires IsIntText(s)
    ensures Strip(Replace(s, "-", "0")) != "" ==> ParseInt(Strip(Replace(s, "-", "0"))).Some?
  {
    var d := if s[0] == '-' then s[1..] else s;
    assert NoChar(d, '-');
    ReplaceDashAbsent(d);
    var t := Replace(s, "-", "0");
    var u := if s[0] == '-' then "0" + d else d;
    if s[0] == '-' {
      assert s == "-" + d;
      assert s[1..] == d;
    }
    assert t == u;
    assert |u| > 0 && AllDigits(u);
    assert !IsSpace(u[0]) && !IsSpace(u[|u| - 1]);
    TrimLeftId(u);
    TrimRightId(u);
    DigitsAreGroups(u);
  }

  /** The points of a kept row: on the legacy host no event points and MoV (else VPs)
      as tie-breaker; elsewhere the tournament points, rebuilt as wins*3+draws when the
      row had none, and VPs. */
  lemma EntryPoints(p: DumpItem, env: Env)
    requires p.Player? && RowEntry(p, env).Some?
    ensures var e := RowEntry(p, env).value;
      var st := ReadStats(p.stats, env);
      (Legacy(env) ==> e.ep.None? && e.tb == (if st.mov != 0 then st.mov else st.vps)) &&
      (!Legacy(env) ==> e.ep == Some(TournamentPoints(st.tp, e.wins, e.draws)) && e.tb == st.vps) &&
      (st.tp == 0 && (e.wins != 0 || e.draws != 0) ==> TournamentPoints(st.tp, e.wins, e.draws) == 3 * e.wins + e.draws)
  {
  }

  // ------------------------------------------------------------ results

  /** The first result carrying `name`. */
  function FindName(ps: seq<PlayerResult>, name: string): (r: Option<nat>)
    ensures r.Some? ==> r.value < |ps| && ps[r.value].playerName == name
    ensures r.None? ==> forall i :: 0 <= i < |ps| ==> ps[i].playerName != name
    decreases |ps|
  {
    if |ps| == 0 then None
    else if ps[0].playerName == name then Some(0)
    else match FindName(ps[1..], name)
      case None => None
      case Some(i) => Some(i + 1)
  }

  /** The row's values go into the cut fields or the swiss fields; the other section
      and everything else stay as they are. */
  function WithSection(p: PlayerResult, sec: Section, e: Entry): (q: PlayerResult)
    ensures sec == CutSection ==>
      q == p.(cutRank := Some(e.rank), cutWins := Some(e.wins), cutLosses := Some(e.losses),
              cutDraws := Some(e.draws), cutEventPoints := e.ep, cutTieBreakerPoints := Some(e.tb))
    ensures sec == SwissSection ==>
      q == p.(swissRank := e.rank, swissWins := e.wins, swissLosses := e.losses,
              swissDraws := e.draws, swissEventPoints := e.ep, swissTieBreakerPoints := Some(e.tb))
  {
    match sec
    case CutSection =>
      p.(cutRank := Some(e.rank), cutWins := Some(e.wins), cutLosses := Some(e.losses),
         cutDraws := Some(e.draws), cutEventPoints := e.ep, cutTieBreakerPoints := Some(e.tb))
    case SwissSection =>
      p.(swissRank := e.rank, swissWins := e.wins, swissLosses := e.losses,
         swissDraws := e.draws, swissEventPoints := e.ep, swissTieBreakerPoints := Some(e.tb))
  }

  /** Results keyed by name: a known name is updated in place, a new one appended. */
  function Upsert(ps: seq<PlayerResult>, tid: int, team: Option<string>, sec: Section, e: Entry): seq<PlayerResult> {
    match FindName(ps, e.name)
    case Some(i) => ps[i := WithSection(ps[i], sec, e)]
    case None => ps + [WithSection(NewPlayerResult(tid, e.name, team), sec, e)]
  }

  /** The results so far and the format inferred from the first parsed list. */
  datatype Sheet = Sheet(results: seq<PlayerResult>, inferred: Option<Format>)

  /** A row's list: when it parses, it becomes the list of the result named `name`, and
      the first one also decides the format (an inference that fails leaves it unset). */
  function AttachList(sh: Sheet, name: string, xws: Option<string>, env: Env): Sheet {
    match xws
    case None => sh
    case Some(x) =>
      if x == "" then sh
      else match env.parseJson(x)
        case None => sh
        case Some(j) =>
          match FindName(sh.results, name)
          case None => sh
          case Some(i) =>
            Sheet(sh.results[i := sh.results[i].(listJson := j)],
                  if sh.inferred.None? then InferFormat(j) else sh.inferred)
  }

  function Step(sh: Sheet, sec: Section, item: DumpItem, env: Env): Sheet {
    match item
    case Header(_) => sh
    case Player(_, _, _, _, _, _, xws, _, team) =>
      match RowEntry(item, env)
      case None => sh
      case Some(e) => AttachList(Sheet(Upsert(sh.results, env.tournamentId, team, sec, e), sh.inferred), e.name, xws, env)
  }

  /** The section in force after the given rows; a pass starts in swiss. */
  function SectionAfter(items: seq<DumpItem>): Section
    decreases |items|
  {
    if |items| == 0 then SwissSection
    else
      var prev := SectionAfter(items[..|items| - 1]);
      match items[|items| - 1]
      case Header(text) => NextSection(prev, text)
      case Player(_, _, _, _, _, _, _, _, _) => prev
  }

  /** One pass over the ranking tab, starting from the results of earlier passes. */
  function Processed(sh: Sheet, items: seq<DumpItem>, env: Env): Sheet
    decreases |items|
  {
    if |items| == 0 then sh
    else
      var n := |items| - 1;
      Step(Processed(sh, items[..n], env), SectionAfter(items[..n]), items[n], env)
  }

  method ReadRow(item: DumpItem, env: Env) returns (r: Option<Entry>)
    requires item.Player?
    ensures r == RowEntry(item, env)
  {
    var name := CleanName(item.nameRaw);
    if Excluded(name, item.pid) {
      return None;
    }
    if !IsIntText(Strip(item.wins)) {
      return None;
    }
    var rank := FirstNumber(item.rankRaw).GetOr(0);
    if rank == 0 {
      return None;
    }
    var w := Count(item.wins);
    var l := Count(item.loss);
    var d := Count(item.draw);
    if w.None? || l.None? || d.None? {
      return None;
    }
    var st := ReadStatsOf(item.stats, env);
    var tp := TournamentPoints(st.tp, w.value, d.value);
    var ep: Option<int> := if Legacy(env) then None else Some(tp);
    var tb := if Legacy(env) then (if st.mov != 0 then st.mov else st.vps) else st.vps;
    r := Some(Entry(name, rank, w.value, l.value, d.value, ep, tb));
  }

  /** The participant loop of one pass. */
  method ProcessPass(sheet: Sheet, items: seq<DumpItem>, env: Env) returns (out: Sheet)
    ensures out == Processed(sheet, items, env)
  {
    out := sheet;
    var section := SwissSection;
    var k := 0;
    while k < |items|
      invariant 0 <= k <= |items|
      invariant out == Processed(sheet, items[..k], env)
      invariant section == SectionAfter(items[..k])
    {
      var item := items[k];
      assert items[..k + 1][..k] == items[..k];
      match item {
        case Header(text) =>
          section := NextSection(section, text);
        case Player(_, _, _, _, _, _, xws, _, team) =>
          var e := ReadRow(item, env);
          if e.Some? {
            out := AttachList(Sheet(Upsert(out.results, env.tournamentId, team, section, e.value), out.inferred),
                              e.value.name, xws, env);
          }
      }
      k := k + 1;
    }
    assert items[..|items|] == items;
  }

  // ------------------------------------------------------------ properties of a pass

  predicate DistinctNames(ps: seq<PlayerResult>) {
    forall i, j :: 0 <= i < j < |ps| ==> ps[i].playerName != ps[j].playerName
  }

  /** A repeated name updates the existing result's section fields and adds nothing; a
      new name adds one result at the end. */
  lemma UpsertShape(ps: seq<PlayerResult>, tid: int, team: Option<string>, sec: Section, e: Entry)
    ensures FindName(ps, e.name).Some? ==>
      var i := FindName(ps, e.name).value;
      Upsert(ps, tid, team, sec, e) == ps[i := WithSection(ps[i], sec, e)]
    ensures FindName(ps, e.name).None? ==>
      Upsert(ps, tid, team, sec, e) == ps + [WithSection(NewPlayerResult(tid, e.name, team), sec, e)]
    ensures |Upsert(ps, tid, team, sec, e)| == |ps| + (if FindName(ps, e.name).Some? then 0 else 1)
  {
  }

  lemma UpsertDistinct(ps: seq<PlayerResult>, tid: int, team: Option<string>, sec: Section, e: Entry)
    requires DistinctNames(ps)
    ensures DistinctNames(Upsert(ps, tid, team, sec, e))
    ensures forall i :: 0 <= i < |ps| ==> Upsert(ps, tid, team, sec, e)[i].playerName == ps[i].playerName
    ensures exists i :: 0 <= i < |Upsert(ps, tid, team, sec, e)| && Upsert(ps, tid, team, sec, e)[i].playerName == e.name
  {
    var r := Upsert(ps, tid, team, sec, e);
    match FindName(ps, e.name)
    case Some(i) =>
      assert r[i].playerName == e.name;
    case None =>
      assert r[|ps|].playerName == e.name;
  }

  /** A step keeps the names of the results it had, in place, and any result it adds
      carries the row's cleaned name. */
  lemma StepNames(sh: Sheet, sec: Section, item: DumpItem, env: Env)
    ensures var r := Step(sh, sec, item, env).results;
      |sh.results| <= |r| <= |sh.results| + 1 &&
      (forall i :: 0 <= i < |sh.results| ==> r[i].playerName == sh.results[i].playerName) &&
      (|r| > |sh.results| ==> item.Player? && RowEntry(item, env).Some? &&
                              r[|sh.results|].playerName == RowEntry(item, env).value.name &&
                              FindName(sh.results, RowEntry(item, env).value.name).None?)
  {
    if item.Player? && RowEntry(item, env).Some? {
      var e := RowEntry(item, env).value;
      var u := Upsert(sh.results, env.tournamentId, item.team, sec, e);
      UpsertShape(sh.results, env.tournamentId, item.team, sec, e);
      assert forall i :: 0 <= i < |sh.results| ==> u[i].playerName == sh.results[i].playerName;
      if FindName(sh.results, e.name).None? {
        assert u[|sh.results|].playerName == e.name;
      }
      AttachListNames(Sheet(u, sh.inferred), e.name, item.xws, env);
      assert Step(sh, sec, item, env) == AttachList(Sheet(u, sh.inferred), e.name, item.xws, env);
    }
  }

  lemma AttachListNames(sh: Sheet, name: string, xws: Option<string>, env: Env)
    ensures |AttachList(sh, name, xws, env).results| == |sh.results|
    ensures forall i :: 0 <= i < |sh.results| ==>
      AttachList(sh, name, xws, env).results[i].playerName == sh.results[i].playerName
  {
  }

  lemma StepDistinct(sh: Sheet, sec: Section, item: DumpItem, env: Env)
    requires DistinctNames(sh.results)
    ensures DistinctNames(Step(sh, sec, item, env).results)
    ensures |Step(sh, sec, item, env).results| <= |sh.results| + 1
  {
    StepNames(sh, sec, item, env);
  }

  /** Results stay keyed by name: however many rows repeat a name, a pass never holds two
      results for it, and each row adds at most one result. */
  lemma {:induction false} ProcessedDistinct(sh: Sheet, items: seq<DumpItem>, env: Env)
    requires DistinctNames(sh.results)
    ensures DistinctNames(Processed(sh, items, env).results)
    ensures |Processed(sh, items, env).results| <= |sh.results| + |items|
    decreases |items|
  {
    if |items| > 0 {
      var n := |items| - 1;
      ProcessedDistinct(sh, items[..n], env);
      StepDistinct(Processed(sh, items[..n], env), SectionAfter(items[..n]), items[n], env);
    }
  }

  predicate NoExcluded(ps: seq<PlayerResult>) {
    forall i :: 0 <= i < |ps| ==> !Excluded(ps[i].playerName, None)
  }

  /** No result of a pass is a bye or a drop, provided none was before it. */
  lemma {:induction false} ProcessedNoByes(sh: Sheet, items: seq<DumpItem>, env: Env)
    requires NoExcluded(sh.results)
    ensures NoExcluded(Processed(sh, items, env).results)
    decreases |items|
  {
    if |items| > 0 {
      var n := |items| - 1;
      ProcessedNoByes(sh, items[..n], env);
      var prev := Processed(sh, items[..n], env);
      StepNames(prev, SectionAfter(items[..n]), items[n], env);
      var r := Step(prev, SectionAfter(items[..n]), items[n], env).results;
      assert Processed(sh, items, env).results == r;
      forall i | 0 <= i < |r| ensures !Excluded(r[i].playerName, None) {
        if i >= |prev.results| {
          var e := RowEntry(items[n], env).value;
          assert !Excluded(e.name, items[n].pid);
          assert i == |prev.results|;
          assert r[i].playerName == e.name;
        } else {
          assert r[i].playerName == prev.results[i].playerName;
        }
      }
    }
  }

  /** A row after a cut header lands in the cut fields of the result with its name. */
  lemma CutRowAfterHeader(sh: Sheet, h: string, item: DumpItem, env: Env)
    requires Contains(Lower(h), "top") || Contains(Lower(h), "cut")
    requires item.Player? && item.xws.None? && RowEntry(item, env).Some?
    ensures var e := RowEntry(item, env).value;
      var r := Processed(sh, [Header(h), item], env).results;
      exists i :: 0 <= i < |r| && r[i].playerName == e.name && r[i].cutRank == Some(e.rank) &&
        r[i].cutTieBreakerPoints == Some(e.tb) && r[i].cutEventPoints == e.ep
  {
    var items := [Header(h), item];
    assert items[..1] == [Header(h)];
    assert items[..1][..0] == [];
    assert SectionAfter(items[..1]) == CutSection;
    assert Processed(sh, items[..1], env) == sh;
    var e := RowEntry(item, env).value;
    var r := Upsert(sh.results, env.tournamentId, item.team, CutSection, e);
    assert Processed(sh, items, env).results == r;
    match FindName(sh.results, e.name)
    case Some(i) =>
      assert r[i].playerName == e.name && r[i].cutRank == Some(e.rank);
    case None =>
      assert r[|sh.results|].playerName == e.name;
  }

  // ------------------------------------------------------------ matches

  /** `re.search(r"Round (\d+)", s)`: the number after the first "Round " followed by a
      digit. */
  function RoundNumberLabel(s: string): (r: Option<nat>)
    decreases |s|
  {
    if |s| == 0 then None
    else if StartsWith(s, "Round ") && |s| > 6 && IsDigit(s[6]) then
      Some(DigitsValue(s[6..][..LeadingDigits(s[6..])]))
    else RoundNumberLabel(s[1..])
  }

  /** A round option's number and type: "Round N" is swiss round N; a label naming the
      cut or a top bracket is that cut round (its first number, else 0); anything else
      uses the option's value as number, 0 when it is not an integer. */
  function RoundLabel(text: string, value: string): (r: (int, RoundType))
    ensures r.1 == CUT <==> RoundNumberLabel(text).None? && (Contains(text, "Cut") || Contains(text, "Top"))
    ensures r.1 != ELIMINATION
    ensures RoundNumberLabel(text).Some? ==> r.0 == RoundNumberLabel(text).value
  {
    match RoundNumberLabel(text)
    case Some(n) => (n, SWISS)
    case None =>
      if Contains(text, "Cut") || Contains(text, "Top") then (FirstNumber(text).GetOr(0), CUT)
      else (ParseInt(value).GetOr(0), SWISS)
  }

  lemma RoundLabelOfRound(n: nat, rest: string, value: string)
    requires |rest| == 0 || !IsDigit(rest[0])
    ensures RoundLabel("Round " + NatToString(n) + rest, value) == (n, SWISS)
  {
    var d := NatToString(n);
    var s := "Round " + d + rest;
    assert StartsWith(s, "Round ");
    assert s[6..] == d + rest;
    LeadingDigitsOf(d, rest);
    assert s[6..][..|d|] == d;
    DigitsValueOfNat(n);
  }

  lemma {:induction false} NoRoundWithoutR(s: string)
    requires NoChar(s, 'R')
    ensures RoundNumberLabel(s).None?
    decreases |s|
  {
    if |s| > 0 {
      assert |s| < 6 || s[..6][0] == s[0];
      assert !StartsWith(s, "Round ");
      NoRoundWithoutR(s[1..]);
    }
  }

  /** A label with no "Round" (no capital R at all) that names a top bracket is a cut
      round numbered by its first number. */
  lemma RoundLabelOfTop(pre: string, n: nat, rest: string, value: string)
    requires NoChar(pre, 'R') && NoChar(rest, 'R')
    requires forall i :: 0 <= i < |pre| ==> !IsDigit(pre[i])
    requires |rest| == 0 || !IsDigit(rest[0])
    requires Contains(pre, "Top")
    ensures RoundLabel(pre + NatToString(n) + rest, value) == (n, CUT)
  {
    var d := NatToString(n);
    var t := d + rest;
    var s := pre + d + rest;
    assert s == pre + t;
    forall i | 0 <= i < |s| ensures s[i] != 'R' {
      if i < |pre| {
        assert s[i] == pre[i];
      } else if i < |pre| + |d| {
        assert s[i] == d[i - |pre|];
      } else {
        assert s[i] == rest[i - |pre| - |d|];
      }
    }
    NoRoundWithoutR(s);
    ContainsPrefix(pre, t, "Top");
    FirstNumberOf(pre, n, rest);
  }

  /** The scenario of a round: none on the legacy host; otherwise the part after " - "
      in the label, else the text the page shows under its "Scenario" header. */
  function RoundScenario(text: string, legacy: bool, shown: Option<string>): (r: Option<Scenario>)
    ensures legacy ==> r == Some(NO_SCENARIO)
    ensures !legacy && !Contains(text, " - ") && (shown.None? || shown == Some("")) ==> r.None?
  {
    if legacy then Some(NO_SCENARIO)
    else
      IndexOfSpec(text, " - ");
      var fromLabel := LabelScenario(text);
      if fromLabel.None? && shown.Some? && shown.value != "" then Some(BaseScraper.ParseScenario(shown.value))
      else fromLabel
  }

  /** `text.split(" - ", 1)[1].strip()` read as a scenario, when the label has the separator. */
  function LabelScenario(text: string): (r: Option<Scenario>)
    ensures r.Some? <==> IndexOf(text, " - ").Some?
  {
    match IndexOf(text, " - ")
    case None => None
    case Some(i) =>
      IndexOfSpecBound(text, " - ");
      Some(BaseScraper.ParseScenario(Strip(text[i + 3..])))
  }

  /** A round's scenario as the source reads it. The scraper calls `_parse_scenario`,
      which the `BaseScraper` it imports does not define, so a non-legacy label holding
      " - " raises AttributeError. The page-text reading raises the same error inside a
      handler of its own, which leaves the scenario unset. */
  function RoundScenarioAsWritten(text: string, legacy: bool): (r: Result<Option<Scenario>>)
    ensures legacy ==> r == Ok(Some(NO_SCENARIO))
    ensures !legacy ==> (r.Err? <==> Contains(text, " - "))
    ensures !legacy && !Contains(text, " - ") ==> r == Ok(None)
  {
    if legacy then Ok(Some(NO_SCENARIO))
    else if Contains(text, " - ") then Err("AttributeError")
    else Ok(None)
  }

  /** How many rounds of the dropdown, in order, have their matches read as written: the
      error of the first label that raises leaves the round loop through the handler
      around it, which keeps the rows of the rounds before. */
  function RoundsReadAsWritten(labels: seq<string>, legacy: bool): (n: nat)
    ensures n <= |labels|
    ensures forall i :: 0 <= i < n ==> RoundScenarioAsWritten(labels[i], legacy).Ok?
    ensures n < |labels| ==> RoundScenarioAsWritten(labels[n], legacy).Err?
  {
    if |labels| > 0 && RoundScenarioAsWritten(labels[0], legacy).Ok? then
      var m := RoundsReadAsWritten(labels[1..], legacy);
      assert forall i :: 1 <= i < m + 1 ==> labels[i] == labels[1..][i - 1];
      1 + m
    else 0
  }

  /** Any non-legacy label "<round> - <scenario>" raises as written, ending match reading
      at that round, while the corrected reading takes its scenario from the label. */
  lemma SeparatorLabelAborts(pre: string, post: string, later: seq<string>)
    ensures RoundScenarioAsWritten(pre + " - " + post, false).Err?
    ensures RoundsReadAsWritten([pre + " - " + post] + later, false) == 0
    ensures LabelScenario(pre + " - " + post).Some?
    ensures RoundScenario(pre + " - " + post, false, None) == LabelScenario(pre + " - " + post)
  {
    var t := pre + " - " + post;
    assert t == pre + (" - " + post);
    ContainsSelf(" - ");
    ContainsPrefix(" - ", post, " - ");
    ContainsSuffix(pre, " - " + post, " - ");
    IndexOfSpec(t, " - ");
    assert ([t] + later)[0] == t;
  }

  /** The first round of a 2.5 event labelled "Round 1 - Chance Engagement" yields no
      match at all as written. */
  lemma ChanceEngagementAborts(later: seq<string>)
    ensures RoundsReadAsWritten(["Round 1 - Chance Engagement"] + later, false) == 0
    ensures RoundScenario("Round 1 - Chance Engagement", false, None).Some?
  {
    assert "Round 1 - Chance Engagement" == "Round 1" + " - " + "Chance Engagement";
    SeparatorLabelAborts("Round 1", "Chance Engagement", later);
  }

  /** The winner of a match: the side whose box carries the `winner` class, first p1;
      else the strictly higher score; else none. */
  function MatchWinner(p1Cls: string, p2Cls: string, p1: string, p2: string, s1: int, s2: int): (r: Option<string>)
    ensures r.None? || r == Some(p1) || r == Some(p2)
    ensures Contains(p1Cls, "winner") ==> r == Some(p1)
    ensures !Contains(p1Cls, "winner") && Contains(p2Cls, "winner") ==> r == Some(p2)
    ensures !Contains(p1Cls, "winner") && !Contains(p2Cls, "winner") ==>
      (s1 > s2 ==> r == Some(p1)) && (s2 > s1 ==> r == Some(p2)) && (s1 == s2 <==> r.None?)
  {
    if Contains(p1Cls, "winner") then Some(p1)
    else if Contains(p2Cls, "winner") then Some(p2)
    else if s1 > s2 then Some(p1)
    else if s2 > s1 then Some(p2)
    else None
  }

  /** A score box: `int(text.strip())`, 0 when it is not an integer or absent. */
  function Score(text: Option<string>): int {
    match text
    case None => 0
    case Some(t) => ParseInt(t).GetOr(0)
  }

  function ScenarioText(s: Option<Scenario>): string {
    match s
    case None => ""
    case Some(x) => ScenarioValue(x)
  }

  /** The match row of one result box; a match is a bye iff player 2's name contains
      "bye" in any case. */
  function MatchRowOf(round: (int, RoundType), scenario: Option<Scenario>,
                      p1Raw: string, p2Raw: string, p1Cls: string, p2Cls: string,
                      s1Text: Option<string>, s2Text: Option<string>): (m: MatchRow)
    ensures m.isBye <==> Contains(Lower(m.p2Name), "bye")
    ensures m.p1Name == Strip(p1Raw) && m.p2Name == Strip(p2Raw)
    ensures m.roundNumber == round.0 && m.roundType == round.1
  {
    var p1 := Strip(p1Raw);
    var p2 := Strip(p2Raw);
    var s1 := Score(s1Text);
    var s2 := Score(s2Text);
    MatchRow(round.0, round.1, ScenarioText(scenario), p1, p2,
             MatchWinner(p1Cls, p2Cls, p1, p2, s1, s2).GetOr(""), s1, s2, Contains(Lower(p2), "bye"))
  }

  /** With no winner class, the standings computation reads a Longshanks row the way the
      scraper meant it: the higher score wins. */
  lemma ScoreWinnerAgrees(round: (int, RoundType), scenario: Option<Scenario>,
                          p1Raw: string, p2Raw: string, p1Cls: string, p2Cls: string,
                          s1Text: Option<string>, s2Text: Option<string>)
    requires !Contains(p1Cls, "winner") && !Contains(p2Cls, "winner")
    requires Strip(p1Raw) != "" && Strip(p2Raw) != ""
    requires BaseScraper.NameKey(Strip(p1Raw)) != BaseScraper.NameKey(Strip(p2Raw))
    ensures var m := MatchRowOf(round, scenario, p1Raw, p2Raw, p1Cls, p2Cls, s1Text, s2Text);
      (m.player1Score > m.player2Score ==> BaseScraper.Outcome(m) == BaseScraper.P1Win) &&
      (m.player2Score > m.player1Score ==> BaseScraper.Outcome(m) == BaseScraper.P2Win)
  {
  }
}
