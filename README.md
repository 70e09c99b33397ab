# M3taCron core, modelled in Dafny

M3taCron collects tournament results for the X-Wing miniatures game from several
tournament platforms (Longshanks, Rollbetter, List Fortress) and turns them into meta
statistics: standings per tournament, the popularity and win rate of squad lists, ships,
pilots, upgrades and factions, and the dashboards and filters that show them.

This project models the deterministic core of that system and proves properties about it:

- **standings**: rebuilding swiss wins, losses, draws, tie-breakers and event points from
  match rows; resolving scraped names to stored player ids; assigning winners; and the
  scrapers' reading of already-extracted rows and JSON exports;
- **squad canonicalisation**: squadron and full-list signatures, their parser, and the
  canonical list key used for grouping;
- **aggregation**: the list, ship, card and faction statistics and the `/api/lists`
  endpoint, as accumulation over (result, tournament) rows with filters, sorting and a
  page cut;
- **classification**: format and macro-format inference from XWS vendor data, majority-vote
  format detection, faction normalisation and the format badge;
- **de-duplication** of tournaments held on different platforms;
- **filter state**: the hierarchical format checkboxes, the default selection per data
  source, resets and the location option lists;
- **pagination and ranking**: the pagination mixin and page navigator, and the dashboard's
  sorted top-five panels;
- **small parsers and lookups**: time ranges, YASB links, ListFortress XWS validation, ship
  icon names, faction colours and icons, and sort-criterion labels.

Each core source file is one Dafny module. Pure code is modelled by datatypes, functions and
lemmas. Code that changes things step by step is modelled imperatively:

- loops are methods proved against specification functions;
- player results updated in place are records in an `array`;
- the filter-state mixins are classes whose methods modify their fields.

Shared modules:

- `Wrappers`: `Option` and `Result`;
- `Strings`: ASCII case mapping, stripping, splitting and searching on `seq<char>`;
- `Json`: the Python value a JSON field holds, with dicts as insertion-ordered entries;
- `Dicts`: Python's insertion-ordered `dict`;
- `Sorting`: a stable sort by a lexicographic key, which is what `sorted`, `list.sort` and
  JavaScript's `Array.prototype.sort` compute;
- `Dates`: the proleptic Gregorian calendar as day numbers.

Outside inputs are parameters of the model:

- the card catalogue lookups;
- `SequenceMatcher.ratio`;
- `strptime`, `json.loads`, `urlparse`/`parse_qs` and `quote`;
- the current day;
- the SQL query results.

Wherever Python would raise, the model returns `None` or an `Err`.

## Model

Where the program has a defect listed under "## Findings", the model uses the corrected member, and so does every member built on it. Rows marked "corrected reading (uses X)" name that member; the behaviour as written is stated only by the members of the Findings table's as-written column.

| member | source | states |
|---|---|---|
| Longshanks.DropTagOf | m3tacron/backend/scrapers/longshanks_scraper.py:370 | a name ending in `#digits` loses the tag and the whitespace before it |
| Longshanks.CollapseIdempotent | m3tacron/backend/scrapers/longshanks_scraper.py:371 | collapsing whitespace runs is idempotent (split/join round trip of words) |
| Longshanks.WordsOfJoin | m3tacron/backend/scrapers/longshanks_scraper.py:371 | splitting a space-join of words gives back the words |
| Longshanks.FirstNumberExists | m3tacron/backend/scrapers/longshanks_scraper.py:384-385 | a rank number exists iff the text has a digit |
| Longshanks.FirstNumberOf | m3tacron/backend/scrapers/longshanks_scraper.py:384-385 | the rank read from a text whose only digits are str(n) is n |
| Longshanks.CountOfNat | m3tacron/backend/scrapers/longshanks_scraper.py:388-390 | a count written as str(n) reads back as n; a dash reads as 0 |
| Longshanks.ApplyLabel | m3tacron/backend/scrapers/longshanks_scraper.py:406-413 | a stat label sets exactly the stat it names |
| Longshanks.ReadStatsOf | m3tacron/backend/scrapers/longshanks_scraper.py:392-424 | the stats loop computes ReadStats |
| Longshanks.InertStat | m3tacron/backend/scrapers/longshanks_scraper.py:400-415 | a box with no pattern match and no title changes nothing |
| Longshanks.NextSection | m3tacron/backend/scrapers/longshanks_scraper.py:360-364 | cut/top headers switch to cut, main/swiss back to swiss, others keep the section |
| Longshanks.RowEntry | m3tacron/backend/scrapers/longshanks_scraper.py:368-390 | a row is kept iff not bye/drop/308, integer wins, nonzero rank and parsable counts; name cleaned, rank > 0 |
| Longshanks.EntryPoints | m3tacron/backend/scrapers/longshanks_scraper.py:426-429 | legacy: no EP, MoV else VPs; otherwise EP = TP (rebuilt as 3W+D) and VPs |
| Longshanks.ReadRow | m3tacron/backend/scrapers/longshanks_scraper.py:368-429 | the row method computes RowEntry |
| Longshanks.FindName | m3tacron/backend/scrapers/longshanks_scraper.py:432 | the index found carries the name; none found means no result has it |
| Longshanks.WithSection | m3tacron/backend/scrapers/longshanks_scraper.py:434-452 | only the current section's six fields change |
| Longshanks.UpsertShape | m3tacron/backend/scrapers/longshanks_scraper.py:431-453 | a known name is updated in place, a new one appended |
| Longshanks.UpsertDistinct | m3tacron/backend/scrapers/longshanks_scraper.py:431-453 | names stay distinct and the row's name is present afterwards |
| Longshanks.ProcessPass | m3tacron/backend/scrapers/longshanks_scraper.py:358-464 | the pass loop computes Processed |
| Longshanks.ProcessedDistinct | m3tacron/backend/scrapers/longshanks_scraper.py:431-453 | a pass never holds two results with one name, and adds at most one per row |
| Longshanks.ProcessedNoByes | m3tacron/backend/scrapers/longshanks_scraper.py:377-378 | no bye/drop name becomes a result |
| Longshanks.CutRowAfterHeader | m3tacron/backend/scrapers/longshanks_scraper.py:358-449 | a row after a cut header fills that player's cut fields |
| Longshanks.StepNames | m3tacron/backend/scrapers/longshanks_scraper.py:431-458 | existing names keep their place; an added result carries the row's name |
| Longshanks.RoundLabel | m3tacron/backend/scrapers/longshanks_scraper.py:748-762 | CUT iff no "Round N" and Cut/Top present; never ELIMINATION; "Round N" gives N |
| Longshanks.RoundLabelOfRound | m3tacron/backend/scrapers/longshanks_scraper.py:750-752 | "Round N…" gives (N, SWISS) |
| Longshanks.RoundLabelOfTop | m3tacron/backend/scrapers/longshanks_scraper.py:753-756 | "Top N" without "Round" gives (N, CUT) |
| Longshanks.RoundScenario | m3tacron/backend/scrapers/longshanks_scraper.py:765-812 | corrected reading (scenario text read by the shared `_parse_scenario`): legacy gives NO_SCENARIO; without separator or page text, none |
| Longshanks.RoundScenarioAsWritten | m3tacron/backend/scrapers/longshanks_scraper.py:765-812 | as written: legacy gives NO_SCENARIO; otherwise it raises iff the label holds " - ", and is none otherwise |
| Longshanks.RoundsReadAsWritten | m3tacron/backend/scrapers/longshanks_scraper.py:743-889 | the rounds read are exactly those before the first label that raises |
| Longshanks.SeparatorLabelAborts | m3tacron/backend/scrapers/longshanks_scraper.py:767-769 | a first label "<round> - <scenario>" leaves no round read as written, while the corrected reading takes the scenario from the label |
| Longshanks.ChanceEngagementAborts | m3tacron/backend/scrapers/longshanks_scraper.py:767-769 | "Round 1 - Chance Engagement" first: no round read as written; a scenario in the corrected reading |
| Longshanks.LabelScenario | m3tacron/backend/scrapers/longshanks_scraper.py:767-769 | a scenario is read from the label iff it contains " - " |
| Longshanks.MatchWinner | m3tacron/backend/scrapers/longshanks_scraper.py:851-859 | winner class first p1 then p2, else the strictly higher score, none iff equal |
| Longshanks.MatchRowOf | m3tacron/backend/scrapers/longshanks_scraper.py:829-873 | is_bye iff p2's name contains "bye"; names stripped; round copied |
| Longshanks.ScoreWinnerAgrees | m3tacron/backend/scrapers/longshanks_scraper.py:856-859 | the standings computation reads a score-decided row as the same win |
| Rollbetter.EventName | m3tacron/backend/scrapers/rollbetter.py:302-309 | a falsy title, or one holding "Rollbetter Event" (substring of a text, element of a list, key of a dict), gives "Rollbetter Event {tid}"; any other text, list or dict title is kept; None iff a truthy number or boolean title, on which `in` raises |
| Rollbetter.ListTitleKept | m3tacron/backend/scrapers/rollbetter.py:303 | a list title is kept unless "Rollbetter Event" is one of its elements; a number title raises |
| Rollbetter.EventDate | m3tacron/backend/scrapers/rollbetter.py:311-315 | today unless the date text parses |
| Rollbetter.PlayersJsonChoice | m3tacron/backend/scrapers/rollbetter.py:322 | the first non-empty of players/participants/standings |
| Rollbetter.SafeInt | m3tacron/backend/scrapers/rollbetter.py:347-350 | None gives the default; ints as is; text parsed or default; containers default |
| Rollbetter.RankRules | m3tacron/backend/scrapers/rollbetter.py:354-358 | integer rank used; dict rank swiss, else elimination, else 0; unparsable 0 |
| Rollbetter.ListOf | m3tacron/backend/scrapers/rollbetter.py:336-342 | object lists kept; non-text non-object gives {} |
| Rollbetter.ResultAsWritten | m3tacron/backend/scrapers/rollbetter.py:366-375 | as written the points never reach the result |
| Rollbetter.ResultOf | m3tacron/backend/scrapers/rollbetter.py:360-375 | corrected: the points are kept as swiss event points |
| Rollbetter.ResultDefaults | m3tacron/backend/scrapers/rollbetter.py:360-364 | wins/losses default -1, draws 0, points fall back points→tournament_points→-1 |
| Rollbetter.PointsLost | m3tacron/backend/scrapers/rollbetter.py:364-375 | an entry with 5 points: as written None, corrected Some(5) |
| Rollbetter.Results | m3tacron/backend/scrapers/rollbetter.py:334-381 | corrected reading (uses Rollbetter.ResultOf): one result per entry up to the first non-object |
| Rollbetter.ParsePlayers | m3tacron/backend/scrapers/rollbetter.py:334-381 | corrected reading (uses Rollbetter.ResultOf): the players loop computes Results |
| Rollbetter.FormatChoice | m3tacron/backend/scrapers/rollbetter.py:385-391 | a non-OTHER format comes from some list with pilots |
| Rollbetter.NoPilotsOther | m3tacron/backend/scrapers/rollbetter.py:385-391 | no list with pilots gives OTHER |
| Rollbetter.ChooseFormat | m3tacron/backend/scrapers/rollbetter.py:385-391 | the loop with break computes FormatChoice of the first ten |
| Rollbetter.PreLoop | m3tacron/backend/scrapers/rollbetter.py:329-331 | the unguarded loop gets through iff every entry of the player list is an object |
| Rollbetter.ParseFromJsonV2 | m3tacron/backend/scrapers/rollbetter.py:295-393 | corrected reading (uses Rollbetter.ResultOf): None whenever an entry of the player value is not an object (the loop ahead of the `try`) or the title raises; on success no matches, count = len of the chosen list = number of results, players/format/name as above |
| Rollbetter.NonObjectEntryRaises | m3tacron/backend/scrapers/rollbetter.py:329-331 | `{"players": [{"name": "A"}, 5]}` raises out of the reader although the guarded loop alone would have kept the first player |
| Rollbetter.NonListPlayersRaise | m3tacron/backend/scrapers/rollbetter.py:322-331 | a non-empty dict or text as the player value raises, its keys or characters having no `.get` |
| RollbetterV2.EventDate | m3tacron/backend/scrapers/rollbetter_v2.py:215-217 | today when the date is not text |
| RollbetterV2.ParticipantOf | m3tacron/backend/scrapers/rollbetter_v2.py:240-248 | a participant becomes a result with its name, swiss rank 0, the -1 placeholders and its ListFortress id |
| RollbetterV2.RankNotStored | m3tacron/backend/scrapers/rollbetter_v2.py:243 | the rank entry does not change the result |
| RollbetterV2.Participants | m3tacron/backend/scrapers/rollbetter_v2.py:228-249 | Some iff all entries objects; one participant per entry |
| RollbetterV2.ParseParticipants | m3tacron/backend/scrapers/rollbetter_v2.py:228-249 | loop computes Participants |
| RollbetterV2.FindById | m3tacron/backend/scrapers/rollbetter_v2.py:274-275 | first participant with that id; None iff none has it |
| RollbetterV2.RoundTypeOf | m3tacron/backend/scrapers/rollbetter_v2.py:255-256 | CUT iff round-type == "elimination" |
| RollbetterV2.MatchOf | m3tacron/backend/scrapers/rollbetter_v2.py:258-282 | round idx+1; bye iff no p2 id; names only for found ids; winner only for matching found side |
| RollbetterV2.WinnerIdIsP1Win | m3tacron/backend/scrapers/rollbetter_v2.py:279 | winner id = p1 id is a p1 win for the standings |
| RollbetterV2.RoundRows | m3tacron/backend/scrapers/rollbetter_v2.py:254-258 | rows of round idx carry idx+1 and its type |
| RollbetterV2.ParseRound | m3tacron/backend/scrapers/rollbetter_v2.py:258-282 | loop computes RoundRows |
| RollbetterV2.AllRowsNumbered | m3tacron/backend/scrapers/rollbetter_v2.py:254 | every round number is in 1..len(rounds) |
| RollbetterV2.ParseRounds | m3tacron/backend/scrapers/rollbetter_v2.py:252-282 | loop computes AllRows |
| RollbetterV2.ParseFromJson | m3tacron/backend/scrapers/rollbetter_v2.py:209-293 | count = len(players); first-non-OTHER format; name |
| ListFortressScraper.MapFormat | m3tacron/backend/scrapers/listfortress_scraper.py:217-226 | OTHER iff the id equals 2; every other id AMG |
| ListFortressScraper.FormatLocation | m3tacron/backend/scrapers/listfortress_scraper.py:228-230 | defined iff every truthy part is text |
| ListFortressScraper.FormatLocationParts | m3tacron/backend/scrapers/listfortress_scraper.py:228-230 | "" iff all parts falsy; split at commas gives back the parts |
| ListFortressScraper.TournamentDataAsWritten | m3tacron/backend/scrapers/listfortress_scraper.py:100-124 | the code as written returns no tournament for any export: the date reader it calls is not defined and its fallback names a format that does not exist |
| ListFortressScraper.TournamentData | m3tacron/backend/scrapers/listfortress_scraper.py:105-121 | corrected reading: the supplied inferred format wins, else OTHER; the player count is the number of participants and the name is stripped |
| ListFortressScraper.DateReaderMissing | m3tacron/backend/scrapers/listfortress_scraper.py:112-124 | for an export with only an id and a name the code as written fails, while the corrected reading gives a tournament of format OTHER with no players dated today |
| ListFortressScraper.PlayerMap | m3tacron/backend/scrapers/listfortress_scraper.py:177 | every key of the map built is hashable; None where the comprehension raises |
| ListFortressScraper.MapGet | m3tacron/backend/scrapers/listfortress_scraper.py:191-192 | default iff no equal key, else the value of an equal key |
| ListFortressScraper.RoundTypeOf | m3tacron/backend/scrapers/listfortress_scraper.py:180 | SWISS iff roundtype_id == 1, never CUT |
| ListFortressScraper.MatchOf | m3tacron/backend/scrapers/listfortress_scraper.py:186-210 | a match row is read exactly when it is a dict whose two player ids are hashable |
| ListFortressScraper.MatchOfFields | m3tacron/backend/scrapers/listfortress_scraper.py:187-209 | names via map with Unknown/Bye; winner only for equal side id |
| ListFortressScraper.MatchNames | m3tacron/backend/scrapers/listfortress_scraper.py:192-199 | winner is a side name or None; "Bye" only for falsy p2 id or a player named Bye |
| ListFortressScraper.ByeWithoutWinner | m3tacron/backend/scrapers/listfortress_scraper.py:192-199 | a bye with no winner id names "Bye" as winner |
| ListFortressScraper.ItemRows | m3tacron/backend/scrapers/listfortress_scraper.py:186-210 | at most one row per match, exactly when no failure |
| ListFortressScraper.RoundRun | m3tacron/backend/scrapers/listfortress_scraper.py:179-186 | a round that cannot be read stops the reading of the rounds |
| ListFortressScraper.AllRunPrefix | m3tacron/backend/scrapers/listfortress_scraper.py:179-215 | an exception only cuts the list of rows short: what is read is a prefix of the full reading |
| ListFortressScraper.AllRunCount | m3tacron/backend/scrapers/listfortress_scraper.py:179-210 | never more rows than matches, and exactly as many when nothing raises |
| ListFortressScraper.AllRunFromRounds | m3tacron/backend/scrapers/listfortress_scraper.py:179-210 | every row carries its own round's number and type |
| ListFortressScraper.GetMatches | m3tacron/backend/scrapers/listfortress_scraper.py:162-215 | a non-dict export or one without rounds gives no rows; otherwise never more rows than the matches of its readable rounds |
| ListFortressScraper.ReadMatches | m3tacron/backend/scrapers/listfortress_scraper.py:162-215 | the method computes the match rows that the reading of the rounds defines |
| ListFortressScraper.CollectMatches | m3tacron/backend/scrapers/listfortress_scraper.py:179-210 | the outer loop over the rounds computes the rows of all rounds |
| ListFortressScraper.RoundRows | m3tacron/backend/scrapers/listfortress_scraper.py:186-210 | the inner loop computes one round's rows |
| ListFortress.ExtractXws | m3tacron/backend/scrapers/listfortress.py:66-99 | no record without a truthy list_json; a dict is kept when it has faction, pilots, vendor or points; a string is parsed and kept under the same test; anything else, or a string that does not parse, gives None |
| ListFortress.ExtractIdempotent | m3tacron/backend/scrapers/listfortress.py:66-99 | extracting again from a record holding an extracted squad gives that squad back |
| ListFortress.SumPointsAppend | m3tacron/backend/scrapers/listfortress.py:109-112 | the total over two pilot lists one after the other is the sum of their totals |
| ListFortress.SumPointsSwap | m3tacron/backend/scrapers/listfortress.py:109-112 | swapping two neighbouring pilots does not change the total |
| ListFortress.PointsOfPilot | m3tacron/backend/scrapers/listfortress.py:110-111 | a pilot without points adds 0 and a pilot with n points adds n |
| ListFortress.CalculateListPoints | m3tacron/backend/scrapers/listfortress.py:102-112 | the loop computes the total of the pilots' points, with None where Python raises |
| ListFortress.SinceFilter | m3tacron/backend/scrapers/listfortress.py:36-41 | a result exists exactly when every date parses, and it keeps exactly the tournaments dated on or after the cutoff, never more than the input |
| ListFortress.Kept | m3tacron/backend/scrapers/listfortress.py:36-41 | without a `since` text every tournament is kept; an unreadable `since` raises |
| ListFortress.PostFetchSpec | m3tacron/backend/scrapers/listfortress.py:35-45 | each tournament returned is one of the input, on or after the cutoff when one is given, newest date text first |
| ListFortress.PostFetchNewest | m3tacron/backend/scrapers/listfortress.py:43-45 | exactly min(`limit`, number kept) tournaments, drawn from the kept ones, and no kept tournament left out is newer than one returned |
| Factions.Normalize | m3tacron/backend/data_structures/factions.py:53 | result has no space, dash or uppercase and is no longer than the input |
| Factions.NormalizeNormal | m3tacron/backend/data_structures/factions.py:53 | already-normal text is unchanged |
| Factions.NormalizeLower | m3tacron/backend/data_structures/factions.py:53 | case is ignored |
| Factions.NormalizeSeparator | m3tacron/backend/data_structures/factions.py:53 | a space or dash anywhere is ignored |
| Factions.DirectMatch | m3tacron/backend/data_structures/factions.py:56-58 | found faction has that id; none found means no faction has it |
| Factions.AliasMatch | m3tacron/backend/data_structures/factions.py:61-73 | first alias in table order that occurs wins; none means no alias occurs |
| Factions.FromXws | m3tacron/backend/data_structures/factions.py:43-75 | empty -> UNKNOWN; id match first; else alias; else UNKNOWN |
| Factions.FromValue | m3tacron/backend/data_structures/factions.py:10-58 | reading a faction's value gives the faction back |
| Factions.FromLabel | m3tacron/backend/data_structures/factions.py:19-58 | reading a faction's label gives the faction back |
| Factions.NormalizeLabel | m3tacron/backend/data_structures/factions.py:19-53 | every label normalises to its id |
| Factions.FromXwsIdempotent | m3tacron/backend/data_structures/factions.py:53-75 | reading the value of a reading again gives the same faction |
| Factions.FromXwsLower | m3tacron/backend/data_structures/factions.py:53 | the reading ignores case |
| Factions.FromXwsUnknown | m3tacron/backend/data_structures/factions.py:49-75 | UNKNOWN iff empty, "unknown", or no id and no alias |
| Factions.AliasOrderExample | m3tacron/backend/data_structures/factions.py:61-73 | "scumrebel" -> REBEL (table order, not text order) |
| FactionEnum.Str | m3tacron/backend/enums/factions.py:42-43 | the text of a member is a non-empty normalised id |
| FactionEnum.FromXws | m3tacron/backend/enums/factions.py:45-60 | empty -> UNKNOWN; result's id is normalised text, or UNKNOWN when no id equals it |
| FactionEnum.AllFactionsComplete | m3tacron/backend/enums/factions.py:6-17 | every faction is listed |
| FactionEnum.FromValue | m3tacron/backend/enums/factions.py:57-59 | reading a faction's value gives the faction back |
| FactionEnum.FromStr | m3tacron/backend/enums/factions.py:42-59 | reading a member's text gives the member back |
| FactionEnum.AliasIsUnknown | m3tacron/backend/enums/factions.py:55-60 | the alias "rebel" is no id, so this stricter reading gives UNKNOWN |
| FactionEnum.AgreesWithLenient | m3tacron/backend/enums/factions.py:45-60 | agrees with data_structures variant wherever not UNKNOWN |
| Squadron.ParseYasb | backend/utils/squadron.py:19-39 | {} exactly when parsing raises; otherwise no pilots, the link recorded under vendor.yasb, and the faction read leniently from `f` (the copy at m3tacron/backend/utils/squadron.py:19-39 is identical) |
| Squadron.YasbXws | backend/utils/squadron.py:30-34 | the export built is non-empty, has no pilots, the given faction and the link under vendor.yasb |
| Squadron.YasbDefaultFaction | backend/utils/squadron.py:27-31 | without an `f` parameter the faction is "unknown" |
| Squadron.LbnXws | backend/utils/squadron.py:16-17 | a Launch Bay Next export holds only the vendor link and no pilots |
| Squadron.ParseBuilderUrl | backend/utils/squadron.py:5-14 | a yasb.app URL is parsed as YASB, else a launchbaynext.app URL as Launch Bay Next, and any other URL gives {} (the copy at m3tacron/backend/utils/squadron.py:5-14 is identical) |
| Squadron.BuilderUrlRecordsLink | backend/utils/squadron.py:5-39 | a non-empty parse always records the URL itself as the vendor link, with no pilots |
| Squadron.Traverse | backend/utils/squadron.py:59-66 | the loop succeeds exactly when every pilot succeeds, and then yields one result per pilot, in order |
| Squadron.TraversePermutation | backend/utils/squadron.py:59-68 | reordering the pilots reorders the results and does not change whether the loop succeeds |
| Squadron.ShipOf | backend/utils/squadron.py:60-66 | a pilot the catalogue does not know contributes "Unknown"; only dict pilots contribute |
| Squadron.SquadronSignature | backend/utils/squadron.py:41-70 | None exactly for a non-dict, a falsy faction or no pilots; otherwise the faction, a vertical bar and the ship names sorted and joined by commas, or the error Python raises (the copies at m3tacron/backend/utils/squadron.py:41-70 and m3tacron/backend/squadron_utils.py:7-44 are identical) |
| Squadron.GetSquadronSignature | backend/utils/squadron.py:47-70 | the loop over the pilots computes the squadron signature |
| Squadron.SquadronPilotOrder | backend/utils/squadron.py:59-70 | the signature does not depend on the order of the pilots (the copy at m3tacron/backend/squadron_utils.py:33-44 is identical) |
| Squadron.ParseSignature | backend/utils/squadron.py:72-87 | a text without a vertical bar gives ("unknown", []); otherwise the faction is the text before the first vertical bar (the copy at m3tacron/backend/squadron_utils.py:46-61 is identical) |
| Squadron.SignatureRoundTrip | backend/utils/squadron.py:68-87 | parsing a signature gives back the faction and the sorted ship names when the faction has no a vertical bar and the names are non-empty and hold no a vertical bar or "," |
| Squadron.EmptyNameLost | backend/utils/squadron.py:68-84 | a lone empty ship name does not survive the round trip: it parses back as no ships |
| Squadron.SquadronRoundTrip | m3tacron/backend/squadron_utils.py:42-61 | parsing a squadron's signature gives back its faction and its sorted ship names, under the same conditions |
| Squadron.TextOf | backend/utils/squadron.py:128-129 | an upgrade contributes text exactly when it is a string; anything else makes the join raise |
| Squadron.PilotSignature | backend/utils/squadron.py:109-133 | a pilot's part ends with its upgrades sorted and joined by "," |
| Squadron.ListSignature | backend/utils/squadron.py:89-139 | None exactly for a non-dict, a falsy faction or no pilots; otherwise the faction then the sorted pilot parts joined by a vertical bar, or the error Python raises |
| Squadron.CollectUpgrades | backend/utils/squadron.py:118-125 | the loop collects list slots' items and string slots in slot order |
| Squadron.GetListSignature | backend/utils/squadron.py:96-139 | the loop over the pilots computes the list signature |
| Squadron.PilotSignatureOf | backend/utils/squadron.py:109-133 | the loop over one pilot's slots computes its part |
| Squadron.ListPilotOrder | backend/utils/squadron.py:135-139 | the list signature does not depend on the order of the pilots |
| Squadron.SlotPermutation | backend/utils/squadron.py:118-125 | reordering items within slots only reorders the collected upgrades |
| Squadron.UpgradeOrder | backend/utils/squadron.py:127-132 | a pilot's part does not depend on the order of its upgrades |
| Squadron.DifferentUpgrade | backend/utils/squadron.py:109-139 | two one-pilot lists that differ only in their one upgrade get different signatures |
| AnalyticsFilters.TournamentFormat | backend/analytics/filters.py:35 | a tournament with a format is filtered by its value, one without by "other" |
| AnalyticsFilters.CheckFormatFilter | backend/analytics/filters.py:25-40 | an empty selection accepts every tournament; a list tests membership of the format; a dict accepts exactly when the format maps to True (the copy at m3tacron/backend/analytics/filters.py:25-39 is identical) |
| AnalyticsFilters.TrueKeys | backend/analytics/filters.py:53 | exactly the keys whose toggle is True, never more entries than the dict |
| AnalyticsFilters.ActiveFormats | backend/analytics/filters.py:42-55 | empty selection gives []; a list gives its elements; a dict its true keys |
| AnalyticsFilters.TrueKeysAppend | backend/analytics/filters.py:53 | true keys come in insertion order |
| AnalyticsFilters.CheckMatchesActive | backend/analytics/filters.py:40-53 | for a non-empty dict without repeated keys, the filter accepts iff the format is active |
| AnalyticsFilters.ListedMatchesActive | backend/analytics/filters.py:37-50 | a list selection accepts iff the format is listed |
| AnalyticsFilters.AllTogglesOff | backend/analytics/filters.py:40-53 | a dict with every toggle off rejects everything and has no active format |
| AnalyticsFilters.CardCheckAsWritten | m3tacron/backend/card_analytics.py:32-69 | as written: a non-empty list selection raises at the dict lookup; dicts behave like CheckFormatFilter |
| AnalyticsFilters.CardListSelectionRaises | m3tacron/backend/card_analytics.py:55-66 | for ["xwa"] the code raises where membership was intended |
| AnalyticsFilters.CardCheckAgrees | m3tacron/backend/card_analytics.py:38-69 | where it does not raise, the card filter agrees with CheckFormatFilter; it raises exactly on non-empty lists |
| ListAnalytics.RowKey | m3tacron/backend/analytics/lists.py:33-67 | a row is skipped when its format is not among the non-empty active formats, when it has no squad dict or no pilots; it raises when the pilots are not a list of dicts; otherwise it is keyed by the sorted pilot entries |
| ListAnalytics.PilotEntry | m3tacron/backend/analytics/lists.py:52-64 | a pilot's part of the key is its id (else name, else "unknown") followed by its sorted upgrade ids in parentheses |
| ListAnalytics.NewEntry | m3tacron/backend/analytics/lists.py:69-79 | a new group starts with zero wins, games and count |
| ListAnalytics.TallyTotals | m3tacron/backend/analytics/lists.py:69-93 | each group's count, wins and games are the sums over exactly the rows keyed to it; a key has a group iff some row is keyed to it; keys are never repeated |
| ListAnalytics.NoRowsNoTotals | m3tacron/backend/analytics/lists.py:88-93 | a key with no rows has no wins and no games |
| ListAnalytics.TallyRaises | m3tacron/backend/analytics/lists.py:51-52 | the aggregation raises iff some row raises |
| ListAnalytics.TallyStops | m3tacron/backend/analytics/lists.py:33-52 | the first row that raises decides the error |
| ListAnalytics.TallyFirstInstance | m3tacron/backend/analytics/lists.py:69-79 | a group's pilots, faction, name and points are those of the first row keyed to it |
| ListAnalytics.WinRate | m3tacron/backend/analytics/lists.py:97 | 0.0 without games; between 0 and 100 when 0 <= wins <= games |
| ListAnalytics.Summary | m3tacron/backend/analytics/lists.py:99-108 | the result record carries the group's count as popularity, its totals and its descriptive fields |
| ListAnalytics.Ranking | m3tacron/backend/analytics/lists.py:110-112 | the ranking is ordered by popularity descending, no longer than a non-negative limit, and a sub-multiset of the group summaries |
| ListAnalytics.MostPopularFirst | m3tacron/backend/analytics/lists.py:111 | with a positive limit, the first ranked list is at least as popular as every group |
| ListAnalytics.AllTogglesOffSelectsAll | m3tacron/backend/analytics/lists.py:38-40 | a selection with every toggle off ranks exactly like no selection |
| ListAnalytics.PilotOrder | m3tacron/backend/analytics/lists.py:66-67 | the key does not depend on the pilots' order |
| ListAnalytics.UpgradeOrder | m3tacron/backend/analytics/lists.py:54-64 | a pilot entry does not depend on the upgrades' order |
| ListAnalytics.PlaceholderCounts | m3tacron/backend/analytics/lists.py:81-89 | a result still holding the -1 placeholders counts -1 wins in -2 games |
| ListAnalytics.CollectUpgradeIds | m3tacron/backend/analytics/lists.py:54-61 | the loop gathers exactly UpgradeIds |
| ListAnalytics.PilotEntryOf | m3tacron/backend/analytics/lists.py:52-64 | computes PilotEntry |
| ListAnalytics.PilotEntriesOf | m3tacron/backend/analytics/lists.py:50-64 | the entries are produced exactly when every pilot is a dict, and then they are the pilots' entries in list order |
| ListAnalytics.RowKeyOf | m3tacron/backend/analytics/lists.py:35-67 | the loop over the pilots computes RowKey |
| ListAnalytics.SummariesOf | m3tacron/backend/analytics/lists.py:95-108 | the loop over the groups computes their summaries in order |
| ListAnalytics.AggregateListStats | m3tacron/backend/analytics/lists.py:110-112 | the ranking comes out most popular first and never longer than a non-negative limit |
| ListAnalytics.AggregateLists | m3tacron/backend/analytics/lists.py:12-112 | the loops compute AggregateListStats |
| ApiLists.PointsOf | backend/api/lists.py:57-59 | missing or None points count as 0; any other value is kept |
| ApiLists.Admit | backend/api/lists.py:44-63 | an admitted row has a squad dict, a non-empty signature, an allowed faction and numeric points inside the window |
| ApiLists.NoUpperBound | backend/api/lists.py:60-63 | with points_max at 200 or more only points_min filters |
| ApiLists.PilotLoadout | backend/api/lists.py:84-89 | a non-dict pilot raises; a pilot without id or catalogue entry adds 0 |
| ApiLists.LoadoutSum | backend/api/lists.py:82-90 | the sum succeeds iff every pilot's loadout does |
| ApiLists.Reloaded | backend/api/lists.py:81-90 | only the loadout changes, and only for the XWA source while it is 0 |
| ApiLists.RankedGames | backend/api/lists.py:101-106 | an unranked result contributes no games; a ranked one always some |
| ApiLists.RankedWins | backend/api/lists.py:101-104 | an unranked result or a negative placeholder contributes no wins; otherwise the swiss wins |
| ApiLists.UnplayedCountsThree | backend/api/lists.py:105-106 | a ranked result with W+L+D = 0 counts 3 games and 0 wins |
| ApiLists.CountedEffect | backend/api/lists.py:77-109 | a rejected row leaves count, games and wins as they were; an accepted one adds 1, its games and its wins; the first list's faction, points and squad stay; a non-zero loadout is never recomputed |
| ApiLists.OtherSourcesIgnoreLoadout | backend/api/lists.py:93-99 | the loadout window rejects nothing outside the XWA source |
| ApiLists.TallyValid | backend/api/lists.py:42-109 | the grouping never repeats a signature, keeps counts non-negative and keeps numeric points inside the window |
| ApiLists.StepValid | backend/api/lists.py:65-109 | one row keeps that invariant |
| ApiLists.StepOthersUnchanged | backend/api/lists.py:65-77 | a row touches no group but its own |
| ApiLists.NormSlot | backend/api/lists.py:141-142 | slots are lower-cased and "configuration" becomes "config" |
| ApiLists.UpgradePoints | backend/api/lists.py:144-148 | the cost dict's value, an integer cost, or 0 |
| ApiLists.RichUpgrade | backend/api/lists.py:140-157 | an upgrade keeps its id and its normalised slot |
| ApiLists.RichItems | backend/api/lists.py:159-178 | one upgrade per id, in order, each keeping its id |
| ApiLists.RichPilot | backend/api/lists.py:122-189 | a pilot keeps its id, and its own points win over the catalogue cost |
| ApiLists.RichPilotList | backend/api/lists.py:122-189 | one pilot record per pilot |
| ApiLists.WinRate | backend/api/lists.py:116 | 0.0 without games; between 0 and 100 when 0 <= wins <= games |
| ApiLists.Final | backend/api/lists.py:112-206 | a group with count 0 or fewer games than min_games is omitted; a returned one carries the group's signature, counters, points, faction key and loadout |
| ApiLists.FinalListSpec | backend/api/lists.py:111-114 | every returned group has a count and at least min_games games, and comes from a group |
| ApiLists.SortedByMetric | backend/api/lists.py:208-217 | the groups are ordered by the chosen metric, descending iff "desc", as a permutation |
| ApiLists.PageSpec | backend/api/lists.py:219-227 | total is the number of returned groups; the page is the run of at most size sorted groups from page·size |
| ApiLists.Window | backend/api/lists.py:220 | a slice from a non-negative start holds at most size elements |
| ApiLists.TotalLoadoutOf | backend/api/lists.py:80-90 | the loop computes TotalLoadout |
| ApiLists.LoadoutStops | backend/api/lists.py:84-89 | the first pilot that raises decides the result |
| ApiLists.TallyOf | backend/api/lists.py:42-109 | the loop over the rows computes Tally |
| ApiLists.TallyStops | backend/api/lists.py:44-109 | the first row that raises decides the result |
| ApiLists.StepOf | backend/api/lists.py:44-109 | one pass of the loop computes Step |
| ApiLists.AdmitOf | backend/api/lists.py:45-63 | computes Admit |
| ApiLists.CountedOf | backend/api/lists.py:77-109 | computes Counted |
| ApiLists.FinalListOf | backend/api/lists.py:111-206 | the loop over the groups computes FinalList |
| ApiLists.FinalStops | backend/api/lists.py:111-206 | the first group that raises decides the result |
| ApiLists.GetLists | backend/api/lists.py:207-227 | a page holds at most `size` groups, echoes the requested page and size, and its total counts every group that survived the filters (see PageSpec and SortedByMetric for the order and the window) |
| ApiLists.GetListsOf | backend/api/lists.py:19-227 | computes GetLists |
| ShipAnalytics.FactionKey | m3tacron/backend/analytics/ships.py:79-81 | the intended key is a faction id that reads back as the same faction as the text it came from |
| ShipAnalytics.ResolveFaction | m3tacron/backend/analytics/ships.py:131-136 | corrected reading: text resolves through `from_xws` to an id; a falsy non-text value reads as "unknown"; any other non-text value raises |
| ShipAnalytics.ResolveFactionAsWritten | m3tacron/backend/analytics/ships.py:132-136 | as written, only text succeeds, and the key has no space and is no longer than the text |
| ShipAnalytics.AliasKeyLost | m3tacron/backend/analytics/ships.py:78-84 | as written, the alias "rebel" keys lists under "rebel" while the catalogue's "Rebel Alliance" keys ships under "rebelalliance" |
| ShipAnalytics.AliasKeyKept | m3tacron/backend/analytics/ships.py:78-81 | resolved as intended, "rebel" and "Rebel Alliance" both key as "rebelalliance" |
| ShipAnalytics.AsWrittenAgreesOnIds | m3tacron/backend/analytics/ships.py:78-84 | on a faction id the code as written and as intended give the same key, the id itself |
| ShipAnalytics.CatalogueKey | m3tacron/backend/analytics/ships.py:70-86 | a catalogue pilot is skipped exactly when its ship or faction is falsy; otherwise its key is its ship xws with a normalised faction id |
| ShipAnalytics.OpenGroups | m3tacron/backend/analytics/ships.py:86-96 | opening a pilot's group keeps keys distinct and groups at zero, and adds exactly that pilot's key |
| ShipAnalytics.InitGroups | m3tacron/backend/analytics/ships.py:68-96 | the catalogue loop gives one zeroed group per distinct pair it names, and no other |
| ShipAnalytics.VisibleWithoutFormats | m3tacron/backend/analytics/ships.py:188-190 | with no format selected, a pilot is shown exactly when it is standard-legal or wild space |
| ShipAnalytics.VisibleReasons | m3tacron/backend/analytics/ships.py:174-187 | with formats selected, only the standard, wild-space, epic and legacy rules can show a pilot |
| ShipAnalytics.LegacyFormatsShowAll | m3tacron/backend/analytics/ships.py:184-187 | a legacy format shows every legacy-data pilot, but does not show an unflagged pilot for XWA data |
| ShipAnalytics.PilotInfo | m3tacron/backend/analytics/ships.py:163 | a catalogued id gives its info, anything else `{}`, and an unhashable id raises |
| ShipAnalytics.PilotKey | m3tacron/backend/analytics/ships.py:158-195 | a counted pilot's key carries the list's faction and a truthy ship xws |
| ShipAnalytics.PilotCountedIff | m3tacron/backend/analytics/ships.py:159-195 | a catalogued pilot with a ship counts for that ship exactly when it is visible |
| ShipAnalytics.PilotKeys | m3tacron/backend/analytics/ships.py:158-200 | a list yields at most one key per pilot, each under the list's faction |
| ShipAnalytics.RowContribution | m3tacron/backend/analytics/ships.py:99-156 | a row the tournament filters reject adds nothing; a counted row adds its swiss+cut wins and games (None as 0) under its (tournament, player) id |
| ShipAnalytics.AddPilotGroups | m3tacron/backend/analytics/ships.py:195-200 | one pilot instance adds the list's wins and games to its own group only, and adds no key |
| ShipAnalytics.AddPilotsGroups | m3tacron/backend/analytics/ships.py:158-200 | a list's pilot loop adds its wins and games to each group once per pilot instance of that key |
| ShipAnalytics.MarkListGroups | m3tacron/backend/analytics/ships.py:202-204 | the list's id is added to exactly the groups its pilots reached |
| ShipAnalytics.ApplyGroups | m3tacron/backend/analytics/ships.py:158-204 | one list changes each group by its pilot count times the list's wins and games, and adds its id where it has a pilot |
| ShipAnalytics.TallyTotals | m3tacron/backend/analytics/ships.py:99-204 | corrected reading (uses ShipAnalytics.ResolveFaction): the results loop adds no group, and leaves each group at its opening totals plus the reference totals of its key |
| ShipAnalytics.GroupTotals | m3tacron/backend/analytics/ships.py:68-209 | corrected reading (uses ShipAnalytics.ResolveFaction): every catalogue pair has exactly one group, used or not, holding wins and games once per visible pilot instance and its set of distinct lists |
| ShipAnalytics.NoListsNoGames | m3tacron/backend/analytics/ships.py:196-216 | a group that no counted list reached has no wins and no games |
| ShipAnalytics.Summary | m3tacron/backend/analytics/ships.py:207-226 | win rate is "NA" exactly when games are not positive, and lies within 0-100 for real counts; popularity is the number of distinct lists |
| ShipAnalytics.ByFaction | m3tacron/backend/analytics/ships.py:228-243 | an empty faction filter keeps everything; otherwise a row survives exactly when its normalised faction or faction id is one of the normalised filters |
| ShipAnalytics.ByShip | m3tacron/backend/analytics/ships.py:245-248 | an empty ship filter keeps everything; otherwise exactly the rows whose ship xws is listed survive |
| ShipAnalytics.LabelMatchesId | m3tacron/backend/analytics/ships.py:232-241 | a faction filter given as the label or as the id matches that faction's groups |
| ShipAnalytics.Ranking | m3tacron/backend/analytics/ships.py:250-266 | the output is sorted by the chosen key, descending exactly for DESCENDING, and is a permutation of the filtered groups, all of them without filters |
| ShipAnalytics.InitOf | m3tacron/backend/analytics/ships.py:68-96 | the catalogue loop computes Init |
| ShipAnalytics.InitStops | m3tacron/backend/analytics/ships.py:68-96 | the first catalogue pilot that raises decides the result |
| ShipAnalytics.PilotKeysOf | m3tacron/backend/analytics/ships.py:158-200 | the pilot loop computes PilotKeys |
| ShipAnalytics.PilotKeysStops | m3tacron/backend/analytics/ships.py:158-200 | the first pilot that raises decides the result |
| ShipAnalytics.ContributionOf | m3tacron/backend/analytics/ships.py:99-156 | computes RowContribution |
| ShipAnalytics.ApplyOf | m3tacron/backend/analytics/ships.py:158-204 | the per-list updates compute Apply |
| ShipAnalytics.GroupsOf | m3tacron/backend/analytics/ships.py:68-204 | the two loops compute ShipGroups |
| ShipAnalytics.TallyStops | m3tacron/backend/analytics/ships.py:99-204 | the first row that raises decides the result |
| ShipAnalytics.AggregateShipStats | m3tacron/backend/analytics/ships.py:250-266 | corrected reading (uses ShipAnalytics.ResolveFaction): the ship results come out ordered by the chosen criterion, descending exactly for DESCENDING |
| ShipAnalytics.AggregateShips | m3tacron/backend/analytics/ships.py:17-266 | corrected reading (uses ShipAnalytics.ResolveFaction): computes AggregateShipStats |
| XwingData.Entry | m3tacron/backend/xwing_data.py:87-88 | a lookup raises exactly for an unhashable key; a found entry is the catalogue's value for a text key |
| XwingData.Index | m3tacron/backend/xwing_data.py:89 | subscripting a dict succeeds exactly when the key is present and yields its value |
| XwingData.NameOf | m3tacron/backend/xwing_data.py:85-89 | an unhashable id raises, an id without a non-empty entry is its own name, a known id takes the entry's name |
| XwingData.UnknownIdIsName | m3tacron/backend/xwing_data.py:158-162 | an id absent from the catalogue is returned unchanged as its name |
| XwingData.KnownIdName | m3tacron/backend/xwing_data.py:85-89 | a catalogued id with a name yields that name |
| XwingData.FactionName | m3tacron/backend/xwing_data.py:71-75 | a faction text whose lowercased, space-free form has no entry is named by the text itself |
| XwingData.NormalizeText | m3tacron/backend/xwing_data.py:239-258 | the result is always in normal form: lower case, no spaces or dashes |
| XwingData.NormalizeFaction | m3tacron/backend/xwing_data.py:239-243 | a falsy value gives "", text gives its normalised form, any other truthy value raises |
| XwingData.NormalizeIdempotent | m3tacron/backend/xwing_data.py:239-258 | normalising twice equals normalising once |
| XwingData.NormalizeIgnoresForm | m3tacron/backend/xwing_data.py:244 | case, spaces and dashes do not change the result |
| XwingData.AliasesMap | m3tacron/backend/xwing_data.py:246-258 | each alias of the table, in any case or spacing, maps to its full XWS id |
| XwingData.NonAliasPassesThrough | m3tacron/backend/xwing_data.py:258 | text that is no alias comes back in its normal form |
| XwingData.RebelsExample | m3tacron/backend/xwing_data.py:248-256 | "Rebels" reads as rebelalliance |
| XwingData.CisExample | m3tacron/backend/xwing_data.py:248-256 | "CIS" reads as separatistalliance |
| XwingData.Capitalize | m3tacron/backend/xwing_data.py:220 | capitalising keeps the length |
| XwingData.Plus | m3tacron/backend/xwing_data.py:231 | adding succeeds exactly on two numbers and its value is their sum |
| XwingData.SlotUpgrades | m3tacron/backend/xwing_data.py:217-223 | one entry per id of the slot, in order, each with the capitalised slot, its catalogue name and the id; raises exactly when some name lookup raises |
| XwingData.SlotsUpgrades | m3tacron/backend/xwing_data.py:215-223 | every parsed upgrade comes from some slot, carries that slot's capitalised name and one of its ids |
| XwingData.PilotUpgrades | m3tacron/backend/xwing_data.py:215-216 | an upgrades field that is not a dict raises; the empty dict gives no upgrades |
| XwingData.PilotPoints | m3tacron/backend/xwing_data.py:209-211 | listed points other than 0 are kept; 0 on a catalogued pilot takes the catalogue cost |
| XwingData.PilotEntry | m3tacron/backend/xwing_data.py:200-230 | a pilot that is not a dict raises, one without id or name is skipped, otherwise name, ship and points come from the catalogue entry or the fallbacks |
| XwingData.ParsedCount | m3tacron/backend/xwing_data.py:198-231 | one parsed pilot per named pilot entry |
| XwingData.TotalIsSum | m3tacron/backend/xwing_data.py:196-231 | the running total equals the sum of the parsed pilots' points |
| XwingData.ParsePilotsOf | m3tacron/backend/xwing_data.py:196-231 | the pilot loop computes ParsePilots |
| XwingData.ParsePilotsStops | m3tacron/backend/xwing_data.py:198-231 | the first pilot that raises decides the loop's result |
| XwingData.ParseXws | m3tacron/backend/xwing_data.py:184-186 | a falsy value or one that is not a dict gives the empty result; any other list that reads gives a parsed list |
| XwingData.Assemble | m3tacron/backend/xwing_data.py:190-236 | a parsed list carries the faction name it was given |
| XwingData.AssembleSpec | m3tacron/backend/xwing_data.py:192-235 | one pilot per named entry; listed points other than 0 are kept, points 0 become the pilots' sum |
| XwingParser.NormalizeFaction | m3tacron/backend/utils/xwing_data/parser.py:6-7 | a falsy value is the unknown faction, text is the value of the faction it reads as, other values raise; every result is a faction value |
| XwingParser.NormalizeIdempotent | m3tacron/backend/utils/xwing_data/parser.py:6-7 | normalising an already normalised value changes nothing |
| XwingParser.FactionName | m3tacron/backend/utils/xwing_data/core.py:33-37 | an id without a table entry is named by the id with dashes as spaces, title-cased |
| XwingParser.ParseXws | m3tacron/backend/utils/xwing_data/parser.py:28-79 | a falsy value or non-dict gives the empty result; every parsed pilot keeps its xws id |
| XwingParser.WithIds | m3tacron/backend/utils/xwing_data/parser.py:67-73 | every pilot of the newer reading carries its id |
| XwingParser.ReadingsAgree | m3tacron/backend/utils/xwing_data/parser.py:28-79 | the newer reading succeeds whenever the older one does, with the same points and the same pilots up to the id |
| XwingParser.EntryAgrees | m3tacron/backend/utils/xwing_data/parser.py:44-73 | one pilot reads the same in both readings, up to the id |
| CardStats.Chosen | m3tacron/backend/analytics/core.py:77-83 | an unset, empty or "all" choice selects nothing; a single value selects itself; a list selects its members |
| CardStats.StripChar | m3tacron/backend/analytics/core.py:46 | stripping never lengthens the text and leaves neither end equal to the stripped character |
| CardStats.StripQuotes | m3tacron/backend/analytics/core.py:46-49 | the stripped id neither starts nor ends with a single quote |
| CardStats.BareIdKept | m3tacron/backend/analytics/core.py:45-49 | an id without surrounding quotes is used as given |
| CardStats.QuotedIdStripped | m3tacron/backend/analytics/core.py:45-49 | an id wrapped in one pair of double or single quotes loses exactly them |
| CardStats.ParsedInts | m3tacron/backend/analytics/core.py:51-64 | the allowed initiatives are exactly the values that parse as integers |
| CardStats.Setup | m3tacron/backend/analytics/core.py:37-91 | the factions are the chosen ones; the types are exactly the chosen types lowercased; a ship list and the legacy ship text exclude each other and one is set exactly when the ship filter is active; the initiatives are the parsed values; the ids lose their quotes |
| CardStats.TypeFilterIgnoresCase | m3tacron/backend/analytics/core.py:86-91 | a slot passes the type filter whatever the case of the slot or of the filter value |
| CardStats.Outcome | m3tacron/backend/analytics/core.py:105-106 | the wins are the player's swiss and cut wins; the games are wins, losses and swiss draws, without cut draws |
| CardStats.OutcomeAsWritten | m3tacron/backend/analytics/core.py:105-106 | the sums as written succeed exactly when both cut counts are present, and then agree with Outcome |
| CardStats.CutlessResultRaises | m3tacron/backend/analytics/core.py:105-106 | a player without cut counts raises as written, where the intended outcome counts 3 wins in 5 games |
| CardStats.Info | m3tacron/backend/analytics/core.py:133 | a catalogue read raises exactly for an unhashable id or an entry that is not a dict; otherwise it is the entry, or the empty dict |
| Json.InJson | m3tacron/backend/analytics/core.py:125 | `in` on a list, text or dict is membership, substring or key presence; on anything else it raises |
| CardStats.Carries | m3tacron/backend/analytics/core.py:122-127 | false means no slot holds the id, true means some slot does, an error comes from some slot that cannot be searched |
| CardStats.HasUpgrade | m3tacron/backend/analytics/core.py:121-129 | a loadout that is not a dict raises; otherwise the answer is the slot search |
| CardStats.Member | m3tacron/backend/analytics/core.py:135 | set membership raises exactly on an unhashable value and holds exactly for a listed text |
| CardStats.InitiativeIn | m3tacron/backend/analytics/core.py:153-154 | an unhashable value raises; an integer is compared by value; text or None is never allowed |
| CardStats.AndThen | m3tacron/backend/analytics/core.py:119-168 | the chain passes exactly when both checks pass, and the first failing check decides otherwise |
| CardStats.UpgradeCheck | m3tacron/backend/analytics/core.py:121-129 | without an upgrade id every pilot passes; with one the pilot must carry it |
| CardStats.ShipTermsMatch | m3tacron/backend/analytics/core.py:141-148 | a ship name that is not text raises; the pilot passes exactly when some term occurs in its lowercased ship name |
| CardStats.ShipCheck | m3tacron/backend/analytics/core.py:131-148 | without a ship filter every pilot passes; a passing pilot's ship id is listed, or under the legacy text its ship name matches a term |
| CardStats.InitiativeCheck | m3tacron/backend/analytics/core.py:150-155 | without initiatives every pilot passes; a passing pilot's catalogue initiative is allowed |
| CardStats.PilotTextMatch | m3tacron/backend/analytics/core.py:157-168 | a name, ability or ship that is not text raises; otherwise the pilot matches exactly when the text occurs in one of the three |
| CardStats.PilotTextCheck | m3tacron/backend/analytics/core.py:157-168 | without search text every pilot passes; a passing pilot matches the text |
| CardStats.PilotAdmitted | m3tacron/backend/analytics/core.py:119-168 | a pilot passes exactly when all four filters pass; with no filter set every pilot passes |
| CardStats.PilotHit | m3tacron/backend/analytics/core.py:115-186 | a non-dict pilot raises; no hit without an id or when a filter rejects; at most one hit, keyed by the id, carrying the list's outcome and the catalogue name |
| CardStats.UpgradeTextMatch | m3tacron/backend/analytics/core.py:222-229 | a name or text that is not text raises; otherwise the upgrade matches exactly when the search text occurs in one of them |
| CardStats.UpgradeHit | m3tacron/backend/analytics/core.py:217-245 | the paired-upgrade target is never counted; a hit is keyed by the id, carries the outcome, the catalogue name and the slot title-cased |
| CardStats.SlotHits | m3tacron/backend/analytics/core.py:211-245 | a slot outside the type filter contributes nothing; every hit carries the outcome and the catalogue name and is not the target |
| CardStats.UpgradePilotHits | m3tacron/backend/analytics/core.py:189-245 | a non-dict pilot raises; with a pilot id only that pilot counts; hits come only from pilots carrying the target upgrade |
| CardStats.FactionCheck | m3tacron/backend/analytics/core.py:109-113 | without a faction filter every list passes; otherwise the faction the list reads as must be allowed |
| CardStats.RowHits | m3tacron/backend/analytics/core.py:93-245 | corrected reading (uses CardStats.Outcome): rows of other formats or without a dict list add nothing; in the pilots mode a list of another faction adds nothing; every hit carries the row's outcome and the catalogue name; the upgrades mode never counts the target |
| CardStats.GatherKeeps | m3tacron/backend/analytics/core.py:93-245 | a property of every element's hits holds of all gathered hits |
| CardStats.GatherOf | m3tacron/backend/analytics/core.py:93-245 | the row loop computes Gather |
| CardStats.GatherStops | m3tacron/backend/analytics/core.py:93-245 | the first element that raises decides the result |
| CardStats.GatherAppend | m3tacron/backend/analytics/core.py:93-245 | gathering one more element appends its hits |
| CardStats.AddHitsAppend | m3tacron/backend/analytics/core.py:170-186 | counting two runs of hits is counting them one after the other |
| CardStats.NoFirstNoHits | m3tacron/backend/analytics/core.py:170-186 | a card that never opened an entry has no count, wins or games and was not seen |
| CardStats.FirstSeen | m3tacron/backend/analytics/core.py:170-172 | a card that opened an entry was seen and has a positive count |
| CardStats.ExpectedOther | m3tacron/backend/analytics/core.py:183-186 | a hit of one card leaves every other card's reference entry unchanged |
| CardStats.ExpectedSame | m3tacron/backend/analytics/core.py:170-186 | a hit opens its card's reference entry or adds one occurrence, the wins and the games to it |
| CardStats.SeenStep | m3tacron/backend/analytics/core.py:170-172 | a hit appends its card to the seen cards exactly when it is new |
| CardStats.TallyStep | m3tacron/backend/analytics/core.py:170-186 | one counting step keeps the dict equal to its reference |
| CardStats.StepKeys | m3tacron/backend/analytics/core.py:170-172 | a counting step keeps the dict's keys equal to the seen cards |
| CardStats.StepValues | m3tacron/backend/analytics/core.py:183-186 | a counting step keeps every entry equal to its reference |
| CardStats.TallySpec | m3tacron/backend/analytics/core.py:170-186 | the stats dict has no repeated key, its keys are the cards in first-hit order, and each entry holds the count, wins, games and first metadata of its card |
| CardStats.TallyOf | m3tacron/backend/analytics/core.py:93-245 | the row loop computes the tally of the gathered hits, or the first error |
| CardStats.AddHitsOf | m3tacron/backend/analytics/core.py:183-186 | the counting statements compute AddHits |
| CardStats.WinRate | m3tacron/backend/analytics/core.py:250-253 | no games gives 0.0; with wins between 0 and games the rate is within 0 to 100; all wins gives 100 |
| CardStats.Summary | m3tacron/backend/analytics/core.py:249-268 | the result keeps the entry's id, count, wins and games and adds the win rate; an entry already carrying the catalogue name is kept as it is |
| CardStats.Summaries | m3tacron/backend/analytics/core.py:248-270 | one result per entry, in dict order, each the summary of its entry |
| CardStats.SummariesOf | m3tacron/backend/analytics/core.py:248-270 | the results loop computes Summaries |
| CardStats.SummariesStop | m3tacron/backend/analytics/core.py:248-270 | the first entry that raises decides the result |
| CardStats.FirstMetaNamed | m3tacron/backend/analytics/core.py:255-264 | every entry opens with the catalogue name, so the name fallback never changes it |
| CardStats.SummariesOfTally | m3tacron/backend/analytics/core.py:248-270 | the results loop over a tally of well-named hits succeeds and changes no entry but for the win rate |
| CardStats.SummariesAll | m3tacron/backend/analytics/core.py:248-270 | when no entry needs the fallback, the results are the entries in order |
| CardStats.EntryReported | m3tacron/backend/analytics/core.py:170-270 | each result holds its card's reference count, wins, games, first metadata and win rate |
| CardStats.Ranking | m3tacron/backend/analytics/core.py:13-278 | corrected reading (uses CardStats.Outcome): the output is ordered by the sort key descending, has one row per card counted, and each row holds its card's reference totals |
| CardStats.AggregateCardStats | m3tacron/backend/analytics/core.py:272-278 | corrected reading (uses CardStats.Outcome): the card results come out ordered by the chosen sort key, largest first |
| CardStats.AggregateCardStatsOf | m3tacron/backend/analytics/core.py:13-278 | corrected reading (uses CardStats.Outcome): the loops compute AggregateCardStats |
| CardAnalytics.ListFaction | m3tacron/backend/card_analytics.py:120-124 | a falsy faction is unknown, text is the faction it reads as, anything else raises |
| CardAnalytics.FactionKept | m3tacron/backend/card_analytics.py:122-125 | without an active faction filter every list passes; a single value must equal the value of the list's faction; a list of values never lets a list through |
| CardAnalytics.PilotTextMatch | m3tacron/backend/card_analytics.py:132-149 | a match requires a text name; the text in the name matches; a match without it is the text in the catalogue ship |
| CardAnalytics.PilotHit | m3tacron/backend/card_analytics.py:127-167 | a non-dict pilot raises; no hit without an id or when the search misses; at most one hit, keyed by the id, carrying the list's outcome |
| CardAnalytics.TypeKept | m3tacron/backend/card_analytics.py:183-184 | without an active type filter every slot passes; a single value compares case-insensitively; a list of values raises |
| CardAnalytics.UpgradeHit | m3tacron/backend/card_analytics.py:186-208 | a hit under search text has the text in its name; a hit is keyed by the id, carries the outcome and the slot name as written |
| CardAnalytics.SlotHits | m3tacron/backend/card_analytics.py:180-208 | a slot the type filter rejects adds nothing and one where it raises raises; every hit carries the outcome |
| CardAnalytics.UpgradePilotHits | m3tacron/backend/card_analytics.py:172-208 | a pilot that is not a dict, or whose upgrades field is not a dict, raises; every hit carries the outcome |
| CardAnalytics.RowHits | m3tacron/backend/card_analytics.py:100-208 | corrected reading (uses CardStats.Outcome): rows outside the allowed formats, without a dict list or in another mode add nothing; a list of another faction adds nothing in the pilots mode; every hit carries the row's outcome |
| CardAnalytics.EmptyFormatsKeepNothing | m3tacron/backend/card_analytics.py:105-109 | an empty allowed-format list keeps no row at all |
| CardAnalytics.Results | m3tacron/backend/card_analytics.py:211-217 | one result per entry, in dict order, each the entry with its win rate |
| CardAnalytics.Ranking | m3tacron/backend/card_analytics.py:72-226 | corrected reading (uses CardStats.Outcome): the output is ordered by the sort key descending, has one row per card counted, and each row holds its card's reference totals |
| CardAnalytics.EntryReported | m3tacron/backend/card_analytics.py:151-217 | corrected reading (uses CardStats.Outcome): each result holds its card's reference count, wins, games, first metadata and win rate |
| CardAnalytics.CopiesAgreeOnPilots | m3tacron/backend/card_analytics.py:72-208 | with no filters, this copy and the analytics copy count the same pilot hits |
| CardAnalytics.RowsAgree | m3tacron/backend/card_analytics.py:100-167 | without filters, the two copies read each row into the same pilot hits |
| CardAnalytics.GatherSame | m3tacron/backend/card_analytics.py:127-167 | loops whose bodies agree on every element gather the same hits |
| CardAnalytics.AggregateCardStats | m3tacron/backend/card_analytics.py:219-226 | corrected reading (uses CardStats.Outcome): the card results come out ordered by the chosen sort key, largest first |
| CardAnalytics.AggregateCardStatsOf | m3tacron/backend/card_analytics.py:72-226 | corrected reading (uses CardStats.Outcome): the loops compute AggregateCardStats |
| CardAnalytics.RowHitsAsWritten | m3tacron/backend/card_analytics.py:100-117 | as written: a row that passes the format and dict-list checks raises in every mode when a cut count is None; with both cut counts it reads as the corrected RowHits |
| CardAnalytics.AggregateCardStatsAsWritten | m3tacron/backend/card_analytics.py:72-226 | as written: wherever the aggregation returns, it returns the corrected statistics |
| CardAnalytics.AsWrittenAgreesWithCuts | m3tacron/backend/card_analytics.py:116-117 | when every row has both cut counts, the code as written and the corrected reading agree |
| CardAnalytics.CutlessRowAborts | m3tacron/backend/card_analytics.py:100-117 | as written, the first admitted dict-list row without cut counts ends the whole aggregation with the error |
| CardAnalytics.CutlessListRaises | m3tacron/backend/card_analytics.py:116-117 | a 3-2 player without cut counts: as written the rows raise in every mode, where the corrected reading counts nothing for its empty list |
| CardAnalytics.ResultsOf | m3tacron/backend/card_analytics.py:211-217 | the results loop computes Results |
| FactionAnalytics.Idx | m3tacron/backend/analytics/factions.py:33-34 | each faction but UNKNOWN has its place among the known factions |
| FactionAnalytics.ValueInjective | m3tacron/backend/analytics/factions.py:35 | distinct factions have distinct ids, so no entry is opened twice |
| FactionAnalytics.TableDistinct | m3tacron/backend/analytics/factions.py:32-41 | the opened entries have no repeated id and each known faction's entry sits at its place |
| FactionAnalytics.InitIsTable | m3tacron/backend/analytics/factions.py:32-41 | the loop over the factions opens exactly the seven known factions, in declaration order, each with its label, id and zero counts |
| FactionAnalytics.Grown | m3tacron/backend/analytics/factions.py:33-41 | after the first n known factions the entries are the first n of the table |
| FactionAnalytics.TableAt | m3tacron/backend/analytics/factions.py:35-41 | the i-th opened entry belongs to the i-th known faction |
| FactionAnalytics.ListFaction | m3tacron/backend/analytics/factions.py:57-58 | a falsy faction is UNKNOWN, text reads through `Faction.from_xws`, any other value raises |
| FactionAnalytics.RowFaction | m3tacron/backend/analytics/factions.py:45-62 | a row counts for a faction exactly when its format is allowed, its list is a dict and the list reads as a faction other than UNKNOWN |
| FactionAnalytics.Credit | m3tacron/backend/analytics/factions.py:73-86 | a counted list adds one to popularity, its swiss and cut wins to the wins and all its games, missing cut counts as 0, to the games |
| FactionAnalytics.CreditTotals | m3tacron/backend/analytics/factions.py:84-86 | crediting a faction's totals with one more list gives the totals of the longer list of results |
| FactionAnalytics.AddRowInPlace | m3tacron/backend/analytics/factions.py:64-86 | on entries keyed like the opened table, a list's update rewrites its own faction's entry and adds no key |
| FactionAnalytics.TallyStep | m3tacron/backend/analytics/factions.py:45-86 | one row keeps every entry equal to its faction's reference totals |
| FactionAnalytics.SkipStep | m3tacron/backend/analytics/factions.py:50-62 | a row skipped by a filter changes no faction's totals |
| FactionAnalytics.CountStep | m3tacron/backend/analytics/factions.py:73-86 | a counted row credits its own faction and leaves the others' totals unchanged |
| FactionAnalytics.TallyTotals | m3tacron/backend/analytics/factions.py:30-86 | after the rows, the keys are still the seven ids and each entry holds its faction's number of lists and the sums of their wins and games |
| FactionAnalytics.UnknownListIgnored | m3tacron/backend/analytics/factions.py:57-62 | a list whose faction reads as UNKNOWN leaves the statistics unchanged |
| FactionAnalytics.Results | m3tacron/backend/analytics/factions.py:88-102 | the results are exactly the entries with at least one list, each with its win rate and icon glyph |
| FactionAnalytics.Ranking | m3tacron/backend/analytics/factions.py:15-106 | the output is sorted by popularity, most popular first; a known faction appears exactly when some list counted for it, with its reference totals; nothing else appears |
| FactionAnalytics.NoSelectionCountsNothing | m3tacron/backend/analytics/factions.py:43-51 | with no format selection the active formats are the empty list, which admits no tournament, so the output is empty |
| FactionAnalytics.NothingAdmitted | m3tacron/backend/analytics/factions.py:50-51 | with no allowed format every row is skipped and the entries stay as opened |
| FactionAnalytics.InitOf | m3tacron/backend/analytics/factions.py:33-41 | the opening loop computes Init |
| FactionAnalytics.TallyOf | m3tacron/backend/analytics/factions.py:45-86 | the row loop computes Tally |
| FactionAnalytics.TallyStops | m3tacron/backend/analytics/factions.py:45-86 | the first row that raises decides the result |
| FactionAnalytics.ResultsOf | m3tacron/backend/analytics/factions.py:88-102 | the results loop computes Results |
| FactionAnalytics.AggregateFactionStats | m3tacron/backend/analytics/factions.py:104-106 | the faction results come out most popular first |
| FactionAnalytics.AggregateFactionStatsOf | m3tacron/backend/analytics/factions.py:15-106 | the loops compute AggregateFactionStats |
| FactionAnalytics.SnapshotFormats | m3tacron/backend/analytics/factions.py:122-129 | given formats are kept; without any, the XWA source uses xwa and amg and the legacy source legacy_x2po and legacy_xlc |
| FactionAnalytics.SnapshotSelectsFormats | m3tacron/backend/analytics/factions.py:122-131 | the snapshot always passes a non-empty format list that the faction statistics read back unchanged, so a tournament of another format is never counted |
| FactionAnalytics.Percentage | m3tacron/backend/analytics/factions.py:147 | no games in total gives 0; a faction's games between 0 and the total give a share within 0 to 100 |
| FactionAnalytics.Shares | m3tacron/backend/analytics/factions.py:144-155 | one slice per faction result |
| FactionAnalytics.SharesOfGames | m3tacron/backend/analytics/factions.py:146-155 | each slice carries its faction's glyph, name, id and games and its share of the total games |
| FactionAnalytics.PercentSumIs | m3tacron/backend/analytics/factions.py:143-155 | the shares add up to the total games over the divisor, as a percentage |
| FactionAnalytics.SplitShare | m3tacron/backend/analytics/factions.py:147 | shares of a common total add |
| FactionAnalytics.SharesMakeWhole | m3tacron/backend/analytics/factions.py:143-155 | when any game was played, the shares of the distribution add up to 100 percent |
| FactionAnalytics.WholeShare | m3tacron/backend/analytics/factions.py:147 | the whole total is 100 percent |
| FactionAnalytics.DistributionOf | m3tacron/backend/analytics/factions.py:143-155 | the distribution loop computes Shares against the sum of the games |
| Formatters.NormSlot | backend/api/formatters.py:42-43 | the slot is lowercase; it is "config" exactly when the slot reads "configuration" or "config" in any case; otherwise it is the lowered slot; never "configuration" |
| Formatters.NormSlotCase | backend/api/formatters.py:42-43 | the slot name is read without regard to case |
| Formatters.LowerOfUpper | backend/api/formatters.py:42 | lowering an upper-cased name gives the lowered name |
| Formatters.UpgradeCost | backend/api/formatters.py:45-47 | the value of a dict cost, else the integer cost; 0 for a missing, falsy, list or None cost and for a dict cost without "value" |
| Formatters.Upgrade | backend/api/formatters.py:40-56 | an upgrade keeps its item id, takes the normalised slot and an empty slot icon; it raises exactly when the lookup raises or finds a truthy non-dict; without a catalogue entry it is named by its id at 0 points |
| Formatters.Items | backend/api/formatters.py:40-56 | the item loop reads exactly when every item reads, and then gives one upgrade per item in order |
| Formatters.Slots | backend/api/formatters.py:37-56 | the dict form yields as many upgrades as its list-valued slots name, each in the normalised slot it was listed under |
| Formatters.PilotUpgrades | backend/api/formatters.py:35-75 | the dict form counts its list-valued slots; the list form keeps each item, in order, in the slot the catalogue gives; any other value has no upgrades |
| Formatters.SlotsAreLower | backend/api/formatters.py:42-43 | every emitted slot is lowercase and none is "configuration" |
| Formatters.PilotInfo | backend/api/formatters.py:15 | a pilot's catalogue entry is a dict, `{}` when nothing is found |
| Formatters.Pilot | backend/api/formatters.py:13-86 | a pilot that does not read raises the one exception |
| Formatters.PilotReads | backend/api/formatters.py:13-86 | a pilot reads exactly when it is a dict whose entry and upgrades read; it keeps its lookup id and carries the coerced points and loadout and its upgrades |
| Formatters.Pilots | backend/api/formatters.py:13-86 | the pilot list raises only the one exception |
| Formatters.PilotsPointwise | backend/api/formatters.py:13-86 | the list reads exactly when every pilot does, giving one enriched pilot per raw pilot in order |
| Formatters.PilotsGrow | backend/api/formatters.py:77-86 | reading one more pilot appends its reading |
| Formatters.PilotsStop | backend/api/formatters.py:13-86 | a pilot that raises makes the list raise |
| Formatters.TotalLoadoutAppend | backend/api/formatters.py:32 | the total loadout of a concatenation is the sum of the totals |
| Formatters.TotalLoadoutSwap | backend/api/formatters.py:32 | the total loadout does not depend on pilot order |
| Formatters.TotalLoadoutBounds | backend/api/formatters.py:32 | with non-negative loadouts the total is non-negative and bounds every pilot's loadout |
| Formatters.FactionLabel | backend/api/formatters.py:88-92 | the label raises exactly for a truthy non-text key; text is labelled by the faction from_xws reads; every label is a faction's label, so the title() fallback never supplies one |
| Formatters.FactionLabelRoundTrip | backend/api/formatters.py:88-92 | reading the label back gives the faction the key was read as |
| Formatters.EnrichListData | backend/api/formatters.py:7-116 | the response carries the read pilots and their summed loadout; it raises only the one exception |
| Formatters.ListFigures | backend/api/formatters.py:94-107 | count is the coerced popularity, points, games and win_rate the coerced row fields; the signature is the name when truthy, else "Unknown List", so never falsy; a row without faction is "Unknown" |
| Formatters.Coercions | backend/api/formatters.py:26-30 | text that is no integer, None, lists and dicts coerce to 0 (and 0.0); integers stay; floats truncate toward zero |
| Formatters.PilotsKept | backend/api/formatters.py:13-32 | every pilot is kept in order under its lookup id with its coerced catalogue loadout, and the total loadout equals the reference sum |
| Formatters.LoadoutSumIs | backend/api/formatters.py:24-32 | the running total equals the sum of the coerced catalogue loadouts |
| Formatters.ItemsOf | backend/api/formatters.py:40-56 | the item loop computes Items |
| Formatters.SlotsOf | backend/api/formatters.py:38-56 | the slot loop computes Slots |
| Formatters.SlotsStop | backend/api/formatters.py:38-56 | a slot that raises makes the dict form raise |
| Formatters.PilotUpgradesOf | backend/api/formatters.py:34-75 | the upgrade branch computes PilotUpgrades |
| Formatters.PilotOf | backend/api/formatters.py:14-86 | the loop body computes Pilot |
| Formatters.PilotsOf | backend/api/formatters.py:11-86 | the pilot loop computes Pilots and its running total is TotalLoadout |
| Formatters.EnrichListDataOf | backend/api/formatters.py:7-116 | the function as written computes EnrichListData |
| Wrappers.CollectPointwise | backend/api/formatters.py:13-86 | a stop-at-first-raise loop succeeds exactly when every reading does, with one value per element in order |
| Wrappers.CollectErr | backend/api/formatters.py:13-86 | the loop raises only errors its readings raise |
| Inference.LbnVerdict | m3tacron/backend/inference.py:61-72 | the Launch Bay Next verdict is LEGACY_X2PO or XWA |
| Inference.FromVendor | m3tacron/backend/inference.py:33-74 | the vendor part names only one of the six non-epic formats |
| Inference.InferFormat | m3tacron/backend/inference.py:7-74 | an empty export is OTHER; only the six non-epic formats come out; a ruleset XWA, AMG, LEGACY or X2PO in any case decides before the vendor data is read |
| Inference.VendorFallback | m3tacron/backend/inference.py:24-34 | a text ruleset that names none of the four leaves the verdict to the vendor data |
| Inference.YasbPrecedence | m3tacron/backend/inference.py:37-58 | in the YASB block, a legacy host gives LEGACY_X2PO, then lorenzosanti LEGACY_XLC; a text naming no host never gives LEGACY_XLC or FFG |
| Inference.LbnRule | m3tacron/backend/inference.py:60-74 | without a YASB block, no Launch Bay Next block gives OTHER; a block gives its verdict; a block with neither builder nor link never gives LEGACY_X2PO |
| Inference.DefaultNotLegacy | m3tacron/backend/inference.py:64-65 | the default builder "Launch Bay Next" and the default empty link do not mention "legacy" |
| Inference.AgreesWithFormats | m3tacron/backend/inference.py:7-74 | wherever this inference reads the export and the format field is text other than EPIC, the later inference of formats.py gives the same format |
| Inference.VendorAgrees | m3tacron/backend/inference.py:33-74 | the two modules' vendor parts agree wherever this one reads |
| Inference.YasbAgrees | m3tacron/backend/inference.py:39-44 | lowering builder, link and URL apart and lowering their joined text agree |
| Inference.LbnAgrees | m3tacron/backend/inference.py:64-68 | searching builder and link apart for "legacy" and searching their joined text agree |
| Inference.LegacyAcrossSpace | m3tacron/backend/inference.py:68 | "legacy" occurs in two texts joined by a space exactly when it occurs in one of them |
| Inference.ExampleXwaStandard | tests/test_inference.py:32-36 | the "XWA Standard" case gives XWA |
| Inference.ExampleLbnLegacy | tests/test_inference.py:48-52 | the "LBN Legacy (X2PO)" case gives LEGACY_X2PO |
| Inference.ExampleLbnXwa | tests/test_inference.py:53-57 | the "LBN XWA" case gives XWA |
| Inference.ExampleLbnAmg | tests/test_inference.py:58-62 | the "LBN AMG" case gives AMG |
| Inference.StandardLbnVerdict | tests/test_inference.py:69-73 | the Launch Bay Next block of the "LBN Standard" case gives XWA |
| Inference.ExampleLbnStandard | tests/test_inference.py:69-73 | the "LBN Standard" case gives XWA |
| Strings.ContainsAcrossSpace | m3tacron/backend/inference.py:44-46 | a text without spaces occurs in two texts joined by a space exactly when it occurs in one of them |
| Strings.AbsentChar | m3tacron/backend/inference.py:68 | a text holding a character that the searched text lacks does not occur in it |
| Dates.MakeDate | m3tacron/scripts/scrape_tournaments.py:34-37 | a triple is a date exactly when its day exists in its month and year, years 1 to 9999 |
| Dates.YearOfMonths | m3tacron/scripts/scrape_tournaments.py:54 | the month lengths of a year add up to its length |
| Dates.NextDay | m3tacron/scripts/scrape_tournaments.py:54 | the day after a date is valid, later and one ordinal on; only 9999-12-31 has none |
| Dates.PrevDay | m3tacron/scripts/scrape_tournaments.py:54 | the day before a date is valid, earlier and one ordinal back; only 0001-01-01 has none |
| Dates.MinusDays | m3tacron/scripts/scrape_tournaments.py:54-62 | subtracting n days lands n ordinals back, earlier when n > 0, and fails only when n > 0 |
| Dates.PrevNext | m3tacron/scripts/scrape_tournaments.py:54 | the day before and the day after undo each other |
| Dates.OrdinalInjective | m3tacron/scripts/scrape_tournaments.py:54-62 | two dates with the same ordinal are equal |
| Dates.OrdinalMonotone | m3tacron/scripts/scrape_tournaments.py:54-62 | ordinals follow the calendar order |
| Dates.MonthsBound | m3tacron/scripts/scrape_tournaments.py:54 | a month ends within its year |
| Dates.MonthsGrow | m3tacron/scripts/scrape_tournaments.py:54 | days before a month grow with the month |
| Dates.YearsGrow | m3tacron/scripts/scrape_tournaments.py:54 | days before a year grow with the year |
| Dates.Digits | m3tacron/scripts/scrape_tournaments.py:29 | a zero-padded numeral has its width and only digits |
| Dates.DigitsValueOfDigits | m3tacron/scripts/scrape_tournaments.py:29 | a zero-padded numeral reads back as its number |
| Dates.IsoFormat | m3tacron/scripts/scrape_tournaments.py:29 | the ISO text of a date has ten characters |
| Dates.FromIsoFormat | m3tacron/scripts/scrape_tournaments.py:29 | fromisoformat accepts only eight- or ten-character texts that name valid dates |
| Dates.IsoRoundTrip | m3tacron/scripts/scrape_tournaments.py:29 | fromisoformat reads the ISO text of every date back to it |
| Dates.StrptimeYmd | m3tacron/backend/format_detector.py:133-134 | strptime with "%Y-%m-%d" yields only valid dates |
| Dates.StrptimeOfIso | m3tacron/backend/format_detector.py:133-134 | strptime with "%Y-%m-%d" reads the ISO text of every date back to it |
| ScrapeTournaments.ParseDateRobust | m3tacron/scripts/scrape_tournaments.py:26-40 | an ISO text is read as fromisoformat reads it; otherwise only a valid date comes out; the failure is the OverflowError exactly when three dash fields parse and one lies outside the C int range, else the ValueError |
| ScrapeTournaments.DashDate | m3tacron/scripts/scrape_tournaments.py:34-37 | three numerals joined by dashes split and convert back to their three numbers |
| ScrapeTournaments.OverflowDate | m3tacron/scripts/scrape_tournaments.py:34-38 | a dash date whose year is 2^31 or more raises the OverflowError, which the `except (ValueError, TypeError)` lets through |
| ScrapeTournaments.OverflowEscapes | m3tacron/scripts/scrape_tournaments.py:65-78 | that OverflowError also escapes the `except ValueError` of the range reader |
| ScrapeTournaments.ParseTimeRange | m3tacron/scripts/scrape_tournaments.py:43-78 | today gives (today, today); every range read is made of valid dates; a failure is the ValueError or the OverflowError |
| ScrapeTournaments.Presets | m3tacron/scripts/scrape_tournaments.py:53-63 | yesterday is one day before today at both ends, last_week runs from seven days before today to today, and both succeed from year 2 on |
| ScrapeTournaments.EarlyEnough | m3tacron/scripts/scrape_tournaments.py:54-62 | stepping back at most 365 days from year 2 on never fails |
| ScrapeTournaments.FirstYearOrdinal | m3tacron/scripts/scrape_tournaments.py:54-62 | every date from year 2 on lies more than 365 days after 0001-01-01 |
| ScrapeTournaments.RangeSplits | m3tacron/scripts/scrape_tournaments.py:66-71 | "A,B" with no comma in A succeeds exactly when both stripped ends read as dates, and yields those two dates |
| ScrapeTournaments.SingleDate | m3tacron/scripts/scrape_tournaments.py:72-74 | the ISO text of a date gives the one-day range of that date |
| ScrapeTournaments.NoCommaInIso | m3tacron/scripts/scrape_tournaments.py:67 | an ISO date text holds no comma |
| ScrapeTournaments.UnpaddedAccepted | m3tacron/scripts/scrape_tournaments.py:30-38 | a date written with an unpadded month or day is read by its integer fields |
| ScrapeTournaments.ShortNumber | m3tacron/scripts/scrape_tournaments.py:30-38 | a decimal numeral below 10, 100, 1000 or 10000 has at most 1, 2, 3 or 4 digits |
| ScrapeTournaments.NoDateFails | m3tacron/scripts/scrape_tournaments.py:72-78 | text that is no preset, has no comma and does not read as a date fails with the date reader's own error, the ValueError or the OverflowError |
| FormatDetector.BuilderText | m3tacron/backend/format_detector.py:20-33 | the builder text is in lower case throughout |
| FormatDetector.LowerVendorText | m3tacron/backend/format_detector.py:24-33 | the lowered vendor parts are unchanged by lowering again |
| FormatDetector.LbnDecision | m3tacron/backend/format_detector.py:40-51 | a Launch Bay Next decision is 2.5 or 2.0 X2PO and names a sub-format of its macro format |
| FormatDetector.YasbDecision | m3tacron/backend/format_detector.py:54-65 | a YASB decision is 2.0 or 2.5 with a matching sub-format, and there is none exactly when the text has none of xwa, 2.5 and 2.0 |
| FormatDetector.Fallback | m3tacron/backend/format_detector.py:68-71 | the keyword fallback gives only 2.0 pairs |
| FormatDetector.Classify | m3tacron/backend/format_detector.py:36-73 | the squad designer is never classified; every pair names a sub-format of its macro format and none is EPIC or OTHER |
| FormatDetector.DetectXwsAsWritten | m3tacron/backend/format_detector.py:10-73 | as written: an empty export is (None, None), only a truthy non-dict raises, and every pair belongs together |
| FormatDetector.DetectXws | m3tacron/backend/format_detector.py:10-73 | corrected reading: an empty export is (None, None); only a truthy non-dict raises; every pair belongs together and is not EPIC; a squad designer export is (None, None) |
| FormatDetector.LbnRuleset | m3tacron/backend/format_detector.py:40-51 | a Launch Bay Next export is decided by its ruleset xwa, amg or legacy in any case, else by xwa in the text |
| FormatDetector.Yasb20 | m3tacron/backend/format_detector.py:54-65 | a YASB 2.0 text gives X2PO for legacy, then FFG for raithos, then XLC for lorenzosanti, else unknown |
| FormatDetector.MacroAgrees | m3tacron/backend/format_detector.py:43-71 | every known sub-format detected sits under the macro format that formats.py gives it |
| FormatDetector.Count | m3tacron/backend/format_detector.py:91-95 | a pair is counted at most once per list |
| FormatDetector.FirstSeen | m3tacron/backend/format_detector.py:91-95 | the first list detected as a pair is detected as it and no earlier list is |
| FormatDetector.CountZero | m3tacron/backend/format_detector.py:91-95 | a pair counted zero times is detected by no list |
| FormatDetector.TallyCounts | m3tacron/backend/format_detector.py:89-95 | the votes hold each pair once, and a pair's vote is the number of lists detected as it |
| FormatDetector.TallyOrder | m3tacron/backend/format_detector.py:89-95 | pairs enter the votes in the order they are first detected |
| FormatDetector.KeyCounted | m3tacron/backend/format_detector.py:89-95 | every pair in the votes was detected |
| FormatDetector.NotCountedYet | m3tacron/backend/format_detector.py:89-95 | a pair missing from the votes was never detected |
| FormatDetector.SeenBefore | m3tacron/backend/format_detector.py:89-95 | a later list does not move a pair's first sighting |
| FormatDetector.SameCountNone | m3tacron/backend/format_detector.py:93-95 | a list detected as nothing changes no count and no first sighting |
| FormatDetector.FirstMax | m3tacron/backend/format_detector.py:100 | max over the vote items picks an entry of greatest count, and the first such entry |
| FormatDetector.PySliceTo | m3tacron/backend/format_detector.py:88 | a Python prefix slice is a prefix of at most n elements, exactly min(n, length) for n >= 0 |
| FormatDetector.Votes | m3tacron/backend/format_detector.py:89-95 | corrected reading (uses FormatDetector.DetectXws): the only failure of the vote is the exception of an unreadable list |
| FormatDetector.TournamentFormat | m3tacron/backend/format_detector.py:78-101 | corrected reading (uses FormatDetector.DetectXws): no lists give (OTHER, UNKNOWN); the only failure is the exception of an unreadable list |
| FormatDetector.SampleOnly | m3tacron/backend/format_detector.py:88-101 | lists past the sample do not change the verdict |
| FormatDetector.VoteWinner | m3tacron/backend/format_detector.py:97-101 | corrected reading (uses FormatDetector.DetectXws): with nothing detected the verdict is (OTHER, UNKNOWN); otherwise it is a pair of greatest count, and any other pair with as many votes was first detected later |
| FormatDetector.CountPositive | m3tacron/backend/format_detector.py:93-95 | a detected pair has a positive count |
| FormatDetector.CountNone | m3tacron/backend/format_detector.py:93-97 | when nothing is detected no pair is counted |
| FormatDetector.VotesOf | m3tacron/backend/format_detector.py:89-95 | the voting loop computes Votes |
| FormatDetector.FirstMaxOf | m3tacron/backend/format_detector.py:100 | the max loop finds FirstMax |
| FormatDetector.TournamentFormatOf | m3tacron/backend/format_detector.py:78-101 | the function as written computes TournamentFormat |
| FormatDetector.TallyGrow | m3tacron/backend/format_detector.py:93-95 | one more list adds its vote |
| FormatDetector.VotesStop | m3tacron/backend/format_detector.py:92-93 | a list that raises makes the vote raise |
| FormatDetector.LorenzoMissedAsWritten | m3tacron/backend/format_detector.py:26-29 | as written, a YASB 2.0 export from the lorenzosanti builder is not classified |
| FormatDetector.LorenzoFound | m3tacron/backend/format_detector.py:26-65 | with the vendor text lowered, the same export is 2.0 XLC |
| FormatDetector.Unclassified | m3tacron/backend/format_detector.py:36-73 | a text lacking q, u, b, y, x and h is never classified |
| FormatDetector.XlcText | m3tacron/backend/format_detector.py:54-63 | a YASB 2.0 text naming lorenzosanti and no earlier keyword is 2.0 XLC |
| FormatDetector.NoLbn | m3tacron/backend/format_detector.py:40 | a text with no "l" followed by "b" does not mention lbn |
| FormatDetector.Heuristics | m3tacron/backend/format_detector.py:120-153 | the heuristics name a sub-format of its macro format |
| FormatDetector.ListFortressFormat | m3tacron/backend/format_detector.py:104-153 | corrected reading (uses FormatDetector.DetectXws): the only failure is the exception of an unreadable list; every pair belongs together |
| FormatDetector.VoteBelongs | m3tacron/backend/format_detector.py:97-101 | the vote names a pair that occurred and so belongs together |
| FormatDetector.XwsWins | m3tacron/backend/format_detector.py:117-120 | a vote naming a known sub-format decides the ListFortress format |
| FormatDetector.StandardIsV25 | m3tacron/backend/format_detector.py:122-126 | without a decisive vote, standard and extended are 2.5, XWA when the name says xwa or alliance, else AMG |
| FormatDetector.OtherByDate | m3tacron/backend/format_detector.py:129-151 | without a decisive vote or keyword, an other tournament is 2.5 XWA exactly when its date is from 2025 on, else unknown |
| FormatDetector.RecentIso | m3tacron/backend/format_detector.py:131-137 | an ISO date is recent exactly when it is on or after 2025-01-01 |
| FormatDetector.Display | m3tacron/backend/format_detector.py:156-160 | the display is the macro format exactly when the sub-format is unknown, else macro, a space and sub |
| FormatDetector.DisplayReadsBack | m3tacron/backend/format_detector.py:156-160 | a display with a known sub-format splits at its first space back into macro and sub |
| Ships.FoldSpec | m3tacron/backend/utils/xwing_data/ships.py:19-42 | the ship map holds each xws once, under its own xws, exactly the xws some readable file registers, each with the union of the factions its files name (else their directory) |
| Ships.StepSpec | m3tacron/backend/utils/xwing_data/ships.py:30-42 | one pilot file keeps that shape: a new xws opens an entry, a file's faction joins its entry, an unhashable faction raises after the entry was opened |
| Ships.Unregistered | m3tacron/backend/utils/xwing_data/ships.py:35-40 | a ship no file registered has no factions |
| Ships.PutShape | m3tacron/backend/utils/xwing_data/ships.py:35-40 | writing an entry under its own xws keeps every entry under its own xws |
| Ships.Values | m3tacron/backend/utils/xwing_data/ships.py:44-47 | the values of the map in insertion order |
| Ships.LoadAllShips | m3tacron/backend/utils/xwing_data/ships.py:6-50 | a missing pilots directory gives no ships; the only failure is the raise of sorting names that cannot be compared |
| Ships.LoadAllShipsSpec | m3tacron/backend/utils/xwing_data/ships.py:6-50 | the catalogue holds one ship per registered xws and no other, each with the union of its factions, sorted by name, as a permutation of the map's values |
| Ships.ShipsHeld | m3tacron/backend/utils/xwing_data/ships.py:44-50 | any arrangement of the map's values holds exactly the registered ships with their factions |
| Ships.ShipsDistinct | m3tacron/backend/utils/xwing_data/ships.py:44-50 | any arrangement of the map's values holds each xws once |
| Ships.SameXwsSameShip | m3tacron/backend/utils/xwing_data/ships.py:35-40 | two values of the map with one xws are one entry |
| Ships.XwsOnce | m3tacron/backend/utils/xwing_data/ships.py:35-40 | entries with distinct xws occur once each |
| Ships.TwiceCounted | m3tacron/backend/utils/xwing_data/ships.py:44-50 | a ship at two positions occurs twice |
| Ships.LoadAllShipsOf | m3tacron/backend/utils/xwing_data/ships.py:6-50 | the function as written computes LoadAllShips |
| Ships.ShelfOf | m3tacron/backend/utils/xwing_data/ships.py:19-42 | the directory loop computes the ship map of all readings |
| Ships.DirOf | m3tacron/backend/utils/xwing_data/ships.py:25-42 | the file loop extends the ship map by one directory's readings |
| Ships.FoldGrow | m3tacron/backend/utils/xwing_data/ships.py:25-42 | one more file is one more step |
| Ships.FilteredShips | m3tacron/backend/utils/xwing_data/ships.py:53-72 | a missing or empty filter returns every ship; the filter never adds a ship |
| Ships.FilterMembers | m3tacron/backend/utils/xwing_data/ships.py:66-72 | a non-empty filter keeps exactly the ships sharing a faction with it |
| Ships.FilterAppend | m3tacron/backend/utils/xwing_data/ships.py:69-72 | the filter keeps catalogue order: filtering a concatenation is concatenating the filtered halves |
| Ships.FilteredShipsOf | m3tacron/backend/utils/xwing_data/ships.py:53-72 | the function as written computes FilteredShips |
| Deduplication.OverlapSpec | m3tacron/backend/utils/deduplication.py:83-97 | the player overlap lies in [0, 1], is symmetric, and is 0 when either list is empty |
| Deduplication.OverlapOne | m3tacron/backend/utils/deduplication.py:88-97 | two non-empty player lists overlap fully exactly when they name the same lowered, stripped players |
| Deduplication.RatioBounds | m3tacron/backend/utils/deduplication.py:97 | a count over a count at least as large lies in [0, 1] |
| Deduplication.SubsetCard | m3tacron/backend/utils/deduplication.py:91-92 | the intersection has no more names than the union |
| Deduplication.SameCardEqual | m3tacron/backend/utils/deduplication.py:91-97 | an intersection as large as the union is the union |
| Deduplication.FirstDuplicate | m3tacron/backend/utils/deduplication.py:33-77 | the position found holds a duplicate and no earlier candidate is one; there is none exactly when no candidate is a duplicate |
| Deduplication.FindDuplicate | m3tacron/backend/utils/deduplication.py:13-77 | a candidate returned is one of the candidates, has a date within two days of the target's and matches; None exactly when no candidate matches |
| Deduplication.WithoutPlayers | m3tacron/backend/utils/deduplication.py:47-72 | without player data on either side a candidate matches exactly by the name and player-count rule |
| Deduplication.OverlapDecides | m3tacron/backend/utils/deduplication.py:59-63 | a near candidate whose players overlap by more than half matches, whatever its name |
| Deduplication.FindDuplicateOf | m3tacron/backend/utils/deduplication.py:13-77 | the loop as written computes FindDuplicate |
| Deduplication.FirstAt | m3tacron/backend/utils/deduplication.py:74-75 | returning at the first match returns the search's result |
| Deduplication.DateMismatch | test/test_deduplication.py:54-64 | a candidate ten days away is no duplicate |
| Deduplication.ExactNameMatch | test/test_deduplication.py:27-37 | the same name, date and player count match, given that a text's ratio with itself is 1 |
| Deduplication.Norms | test/test_deduplication.py:21-25 | the test names lower and strip to their lowercase forms |
| Deduplication.SetA | test/test_deduplication.py:21-25 | the target's name set |
| Deduplication.SetB | test/test_deduplication.py:76-83 | the candidate's name set |
| Deduplication.ThreeOfFour | test/test_deduplication.py:84 | three shared names out of four give an overlap of 0.75 |
| Deduplication.Cards | test/test_deduplication.py:84 | the intersection has three names and the union four |
| Deduplication.ExampleOverlap | test/test_deduplication.py:66-84 | the test's player lists overlap by 0.75 |
| Deduplication.PlayerOverlapMatch | test/test_deduplication.py:66-94 | the test's candidate, stored under its integer id, is found as a duplicate |
| UiFormats.ChildrenSpec | m3tacron/ui_utils/formats.py:11 | a format's item is among the children of a macro exactly when the format belongs to that macro |
| UiFormats.GroupsSpec | m3tacron/ui_utils/formats.py:10-17 | every entry is the entry of one of the macros walked and has children; every macro with formats gets its entry |
| UiFormats.HierarchySpec | m3tacron/ui_utils/formats.py:9-17 | each format sits under exactly one entry, its own macro format's; every entry's label equals its value |
| UiFormats.EveryMacroListed | m3tacron/ui_utils/formats.py:12 | no macro format is omitted, since each has a format |
| UiFormats.BuildHierarchy | m3tacron/ui_utils/formats.py:9-17 | the module-level loops build exactly the hierarchy function |
| UiFormats.SelectionSpec | m3tacron/ui_utils/formats.py:27-32 | the selection built from entries has distinct keys, maps every named value to True and holds nothing else |
| UiFormats.PutChildrenSpec | m3tacron/ui_utils/formats.py:30-31 | setting each child's value to True leaves every other key as it was |
| UiFormats.DefaultSelectionSpec | m3tacron/ui_utils/formats.py:20-32 | the default selection enables every macro value and every format value and holds no other key |
| UiFormats.NamedHierarchy | m3tacron/ui_utils/formats.py:9-17 | the hierarchy names exactly the macro values and the format values |
| UiFormats.DefaultSelectionOf | m3tacron/ui_utils/formats.py:27-32 | the loops compute the selection function of the entries |
| UiFormats.FormatOptions | m3tacron/ui_utils/formats.py:35-42 | "All"/"all" first, then one (label, value) pair per entry in order |
| UiFormats.OptionsName | m3tacron/ui_utils/formats.py:42 | after "All" each macro format is offered by its value |
| GlobalFilters.TargetMacro | m3tacron/backend/state/global_filter_state.py:71 | the enabled macro format is 2.5 exactly when the source is "xwa", and never the other macro |
| GlobalFilters.ResetAllSpec | m3tacron/backend/state/global_filter_state.py:64-69 | the reset loop leaves distinct keys, every visited value unchecked and nothing else |
| GlobalFilters.ResetKeysSpec | m3tacron/backend/state/global_filter_state.py:66-69 | the reset visits a value exactly when it is a walked macro's value or one of its formats' values |
| GlobalFilters.ResetKeysAll | m3tacron/backend/state/global_filter_state.py:66-69 | resetting every macro visits exactly the macro values and the format values |
| GlobalFilters.DefaultFormats | m3tacron/backend/state/global_filter_state.py:62-76 | the default selection repeats no key and checks every format of the source's target macro |
| GlobalFilters.DefaultFormatsGet | m3tacron/backend/state/global_filter_state.py:62-76 | the default selection is checked for the target macro and its formats, unchecked for every other known value, absent elsewhere |
| GlobalFilters.DefaultFormatsSpec | m3tacron/backend/state/global_filter_state.py:62-76 | every macro is checked iff it is the target, every format iff its macro is the target; no unknown key is present |
| GlobalFilters.DefaultMacroKey | m3tacron/backend/state/global_filter_state.py:66-72 | a macro value is checked exactly when it is the target macro (the shared "other" key is unchecked) |
| GlobalFilters.DefaultFormatKey | m3tacron/backend/state/global_filter_state.py:68-74 | a format value is checked exactly when its macro is the target |
| GlobalFilters.DefaultFormatsOf | m3tacron/backend/state/global_filter_state.py:62-76 | the loops compute the default selection of the source |
| GlobalFilters.PutEach | m3tacron/backend/state/global_filter_state.py:73-74 | the assignment loop equals setting each key in turn |
| GlobalFilters.ToggleMacro | m3tacron/backend/state/global_filter_state.py:78-99 | the toggled value ends with the negation of its old check, a missing key reading as unchecked |
| GlobalFilters.ToggleMacroSpec | m3tacron/backend/state/global_filter_state.py:78-99 | the macro toggle sets the value and all its children to the negation of the value's old check (missing reads as False) and leaves other keys unchanged |
| GlobalFilters.ToggleMacroTwice | m3tacron/backend/state/global_filter_state.py:78-99 | toggling a macro twice gives it and its children the macro's original check, other keys unchanged |
| GlobalFilters.ToggleChild | m3tacron/backend/state/global_filter_state.py:101-106 | the toggled child ends with the negation of its old check, a missing key reading as unchecked |
| GlobalFilters.ToggleChildSpec | m3tacron/backend/state/global_filter_state.py:101-106 | the child toggle flips only that key, missing reading as False; twice restores its check |
| GlobalFilters.CountChecked | m3tacron/backend/state/global_filter_state.py:130 | the count of checked children never exceeds the number of children |
| GlobalFilters.CountCheckedSpec | m3tacron/backend/state/global_filter_state.py:130 | the count equals the number of children iff all are checked, and is 0 iff none is |
| GlobalFilters.MacroState | m3tacron/backend/state/global_filter_state.py:117-138 | one of the three states; "checked" only when every format is checked, "unchecked" only when none is, "indeterminate" only when some are and some are not |
| GlobalFilters.MacroStateSpec | m3tacron/backend/state/global_filter_state.py:117-138 | a macro is "checked" iff all its formats are checked, "unchecked" iff none is, else "indeterminate" |
| GlobalFilters.MacroStates | m3tacron/backend/state/global_filter_state.py:122-138 | the states are keyed by the three macro values in declaration order |
| GlobalFilters.MacroStatesLookup | m3tacron/backend/state/global_filter_state.py:122-138 | each macro's key holds its state |
| GlobalFilters.DedupSpec | m3tacron/backend/state/global_filter_state.py:165 | removing repeats keeps exactly the pool's elements and none twice |
| GlobalFilters.SortedIncreasing | m3tacron/backend/state/global_filter_state.py:143 | sorting names without repeats gives a strictly ascending sequence of the same names |
| GlobalFilters.MatchingSpec | m3tacron/backend/state/global_filter_state.py:144-149 | the search keeps exactly the names whose lowered text contains the lowered query |
| GlobalFilters.MatchingIncreasing | m3tacron/backend/state/global_filter_state.py:146-148 | the search keeps the names in ascending order |
| GlobalFilters.Pairs | m3tacron/backend/state/global_filter_state.py:148 | each option is the [name, name] pair of its name, in order |
| GlobalFilters.OptionsSpec | m3tacron/backend/state/global_filter_state.py:165-172 | options are [c, c] pairs, strictly ascending, and exactly the pool's names that contain the search text case-insensitively |
| GlobalFilters.ContinentOptionsSpec | m3tacron/backend/state/global_filter_state.py:140-149 | continent options are exactly the matching continents of the tree, strictly ascending |
| GlobalFilters.Active | m3tacron/backend/state/global_filter_state.py:155 | the active keys are exactly the keys with a True entry |
| GlobalFilters.AllCountriesSpec | m3tacron/backend/state/global_filter_state.py:158-160 | with no continent selected the pool is every country of every continent |
| GlobalFilters.CountriesOfSpec | m3tacron/backend/state/global_filter_state.py:161-164 | with continents selected the pool is exactly the countries of those continents; unknown continents add none |
| GlobalFilters.CountryOptionsSpec | m3tacron/backend/state/global_filter_state.py:151-172 | country options are the matching countries of the selected continents, or of all when none is selected, strictly ascending |
| GlobalFilters.CitiesInSpec | m3tacron/backend/state/global_filter_state.py:180-186 | a continent contributes exactly the cities of its countries that pass the country filter |
| GlobalFilters.CitiesSpec | m3tacron/backend/state/global_filter_state.py:176-187 | the pool holds a city exactly when some country passing the filter lists it |
| GlobalFilters.CityOptionsSpec | m3tacron/backend/state/global_filter_state.py:174-194 | city options are the matching cities of the selected countries, or of all when none is selected, strictly ascending |
| GlobalFilters.GlobalFilterState.constructor | m3tacron/backend/state/global_filter_state.py:19-55 | the fields start at their class defaults |
| GlobalFilters.GlobalFilterState.SetDataSource | m3tacron/backend/state/global_filter_state.py:22-26 | a list argument gives its first element, an empty list raises before any change; the source is stored and the formats defaulted for it |
| GlobalFilters.GlobalFilterState.OnMount | m3tacron/backend/state/global_filter_state.py:57-60 | formats are defaulted only when no format is selected |
| GlobalFilters.GlobalFilterState.SetDefaultFormatsForSource | m3tacron/backend/state/global_filter_state.py:62-76 | the selection becomes the source's default selection and nothing else changes |
| GlobalFilters.GlobalFilterState.ToggleFormatMacro | m3tacron/backend/state/global_filter_state.py:78-99 | the selection becomes the macro toggle of the old selection |
| GlobalFilters.GlobalFilterState.ToggleFormatChild | m3tacron/backend/state/global_filter_state.py:101-106 | the selection becomes the child toggle of the old selection |
| GlobalFilters.GlobalFilterState.LoadLocations | m3tacron/backend/state/global_filter_state.py:112-115 | the tree read from the database replaces the stored one |
| GlobalFilters.GlobalFilterState.SetIncludeEpic | m3tacron/backend/state/global_filter_state.py:28-29 | the epic toggle takes the given value and only that field is modified |
| GlobalFilters.GlobalFilterState.SetDateStart | m3tacron/backend/state/global_filter_state.py:37-38 | the range start takes the given text and only that field is modified |
| GlobalFilters.GlobalFilterState.SetDateEnd | m3tacron/backend/state/global_filter_state.py:40-41 | the range end takes the given text and only that field is modified |
| GlobalFilters.GlobalFilterState.SetContinentSearch | m3tacron/backend/state/global_filter_state.py:212-213 | the continent search takes the given text and only that field is modified |
| GlobalFilters.GlobalFilterState.SetCountrySearch | m3tacron/backend/state/global_filter_state.py:215-216 | the country search takes the given text and only that field is modified |
| GlobalFilters.GlobalFilterState.SetCitySearch | m3tacron/backend/state/global_filter_state.py:218-219 | the city search takes the given text and only that field is modified |
| GlobalFilters.GlobalFilterState.ToggleContinent | m3tacron/backend/state/global_filter_state.py:197-200 | only the given continent's entry is set |
| GlobalFilters.GlobalFilterState.ToggleCountry | m3tacron/backend/state/global_filter_state.py:202-205 | only the given country's entry is set |
| GlobalFilters.GlobalFilterState.ToggleCity | m3tacron/backend/state/global_filter_state.py:207-210 | only the given city's entry is set |
| GlobalFilters.GlobalFilterState.ResetLogic | m3tacron/backend/state/global_filter_state.py:230-246 | the source returns to "xwa" only when asked; formats are re-defaulted for the resulting source; epic, dates, location selections and searches are cleared; locations stay |
| GlobalFilters.GlobalFilterState.ClearTournamentFilters | m3tacron/backend/state/global_filter_state.py:238-246 | epic, dates, location selections and searches are cleared |
| GlobalFilters.GlobalFilterState.ResetFilters | m3tacron/backend/state/global_filter_state.py:222-224 | a full reset ends with source "xwa" and its defaults |
| GlobalFilters.GlobalFilterState.ResetTournamentFilters | m3tacron/backend/state/global_filter_state.py:226-228 | the source is kept and the formats re-defaulted for it |
| FormatFilter.MixinDefaultSpec | m3tacron/components/format_filter.py:13 | the mixin default has distinct keys and checks exactly every macro and format value |
| FormatFilter.MixinMatchesUiDefault | m3tacron/components/format_filter.py:13 | the mixin default agrees key by key with the interface's default selection |
| FormatFilter.AllFormatValues | m3tacron/components/format_filter.py:13 | the format values in declaration order |
| FormatFilter.SetMacroSpec | m3tacron/components/format_filter.py:15-24 | the value and its children take the given check, others unchanged; a non-macro value sets only its own key |
| FormatFilter.MacroSetsChildren | m3tacron/components/format_filter.py:19-22 | a macro's value sets the macro and every one of its formats |
| FormatFilter.FormatFilterMixin.constructor | m3tacron/components/format_filter.py:13 | the selection starts at the class default |
| FormatFilter.FormatFilterMixin.ToggleFormatMacro | m3tacron/components/format_filter.py:15-25 | the loop writes the macro toggle in place and the hook runs once |
| FormatFilter.FormatFilterMixin.ToggleFormatChild | m3tacron/components/format_filter.py:27-31 | only the child key is written and the hook runs once |
| FormatFilter.FormatFilterMixin.OnFilterChange | m3tacron/components/format_filter.py:33-35 | the hook changes no modelled state; its runs are counted |
| Pagination.TotalPagesOf | m3tacron/ui_utils/pagination.py:17-20 | an error exactly for items with a zero page size; one page when there are no items |
| Pagination.TotalPagesSpec | m3tacron/ui_utils/pagination.py:17-20 | with a positive size the count is at least one and the least number of pages holding every item |
| Pagination.HasNextOf | m3tacron/ui_utils/pagination.py:22-24 | a next page exists exactly when the page is before the last; it fails exactly when the page count does |
| Pagination.NextOf | m3tacron/ui_utils/pagination.py:30-33 | fails exactly when the page count does |
| Pagination.MovesKeepRange | m3tacron/ui_utils/pagination.py:22-38 | next and previous move by at most one page and keep a page in range |
| Pagination.NextThenPrev | m3tacron/ui_utils/pagination.py:30-38 | going forward then back returns to the page whenever a next page existed |
| Pagination.Edges | m3tacron/ui_utils/pagination.py:22-28 | the last page has no next page and the first none before it |
| Pagination.PaginationMixin.constructor | m3tacron/ui_utils/pagination.py:11-15 | size 20, page 0, no items |
| Pagination.PaginationMixin.NextPage | m3tacron/ui_utils/pagination.py:30-33 | the page advances and the hook runs only when a next page exists; a zero size with items fails and changes nothing |
| Pagination.PaginationMixin.PrevPage | m3tacron/ui_utils/pagination.py:35-38 | the page goes back and the hook runs only when a previous page exists |
| Pagination.PaginationMixin.SetCurrentPage | m3tacron/ui_utils/pagination.py:40-42 | the page is stored as given and the hook runs |
| Pagination.PaginationMixin.OnPageChange | m3tacron/ui_utils/pagination.py:44-46 | the hook changes no modelled state; its runs are counted |
| PaginationView.CeilDivSpec | frontend/src/components/ui/Pagination.tsx:13 | the page count is the least number of pages holding every item |
| PaginationView.Render | frontend/src/components/ui/Pagination.tsx:12-40 | when shown, the view counts the ceiling of total over size pages, more than one |
| PaginationView.HiddenIff | frontend/src/components/ui/Pagination.tsx:13-15 | nothing is rendered exactly when the items fit on one page |
| PaginationView.Buttons | frontend/src/components/ui/Pagination.tsx:19-36 | previous is disabled exactly on page 0 and asks for the page before; next is disabled exactly from the last page on and asks for the page after; the label counts from one |
| PaginationView.AgreesWithMixin | frontend/src/components/ui/Pagination.tsx:13-31 | with items the front end and the back end count the same pages, and next is enabled exactly when the back end has a next page |
| DashboardRankings.SortedBySpec | frontend/src/components/DashboardRankings.tsx:20-30 | the sorted copy is a permutation, non-increasing in the numeric value with non-numbers as 0, stable on ties, and idempotent |
| DashboardRankings.SortedListsSpec | frontend/src/components/DashboardRankings.tsx:32-39 | lists are a permutation sorted non-increasing by count for popularity and by win rate otherwise, stable on ties |
| DashboardRankings.TopFive | frontend/src/components/DashboardRankings.tsx:73-83 | at most five entries, the i-th being the i-th sorted item with rank i + 1 |
| DashboardRankings.PanelSpec | frontend/src/components/DashboardRankings.tsx:70-119 | a panel shows min(5, n) of the input's items ranked 1 upward |
| FactionColors.Index | frontend/src/lib/factions.ts:20 | an object-literal lookup gives the own value for a table key, the inherited member for a prototype name, undefined otherwise |
| FactionColors.Coalesce | frontend/src/lib/factions.ts:20 | `??` takes the fallback only for undefined |
| FactionColors.Palette | frontend/src/lib/factions.ts:7-16 | the colours of the table, in its order, are eight and pairwise different |
| FactionColors.TablesShareKeys | frontend/src/lib/factions.ts:7-16 | colour and label tables have the same distinct keys, which are the XWS ids of the eight factions |
| FactionColors.InheritedNamesAreNoKeys | frontend/src/lib/factions.ts:7-16 | no faction key is a name inherited from Object.prototype |
| FactionColors.ColorAsWritten | frontend/src/lib/factions.ts:19-21 | as written the lookup is never undefined, and yields an inherited member exactly for a prototype name that is not a table key |
| FactionColors.InheritedNameIsNoColor | frontend/src/lib/factions.ts:19-21 | as written, an inherited name such as "toString" passes the fallback and yields the inherited member, not a colour |
| FactionColors.Color | frontend/src/lib/factions.ts:19-21 | a table key gives its colour, any other key grey |
| FactionColors.ColorInPalette | frontend/src/lib/factions.ts:7-21 | the corrected colour is always one of the eight, and a non-key gets the colour of "unknown" |
| FactionColors.ColorAgrees | frontend/src/lib/factions.ts:19-21 | the corrected lookup equals the code as written on every non-inherited name |
| FactionColors.FactionColor | frontend/src/lib/factions.ts:7-16 | the i-th faction gets the i-th colour, grey only for unknown |
| Icons.FactionIconAsWritten | frontend/src/components/Icons.tsx:13-17 | as written no icon renders exactly for a name that is neither a table key nor an inherited member name |
| Icons.InheritedNameRendersIcon | frontend/src/components/Icons.tsx:13-17 | as written, an inherited name such as "constructor" renders an icon |
| Icons.FactionIcon | frontend/src/components/Icons.tsx:13-24 | a rendered icon has the table's class and the faction's colour |
| Icons.FactionIconSpec | frontend/src/components/Icons.tsx:3-17 | an icon renders exactly for the seven table keys, never for "unknown", and never in the grey fallback |
| Icons.ResistanceSharesRebelIcon | frontend/src/components/Icons.tsx:4-7 | resistance shows the rebel icon in its own colour |
| Icons.FactionIconAgrees | frontend/src/components/Icons.tsx:13-24 | the corrected component equals the code as written on every non-inherited name |
| Icons.ShipIcon | frontend/src/components/Icons.tsx:27-34 | nothing renders exactly for an empty id |
| Icons.ShipIconLower | frontend/src/components/Icons.tsx:31 | the clean name is lowercase and case-insensitive in the id |
| Icons.ShipIconPrefix | frontend/src/components/Icons.tsx:31-34 | an id starting with the font prefix, in any case, loses it |
| Icons.ShipIconPlain | frontend/src/components/Icons.tsx:31-34 | an id without the prefix is only lowercased, and "tieininterceptor" in any case becomes "tieinterceptor" |
| ShipIcons.OverridesDistinct | m3tacron/ui_utils/ships.py:9-17 | the seven overridden ids are distinct |
| ShipIcons.IconNameSpec | m3tacron/ui_utils/ships.py:9-21 | each listed id gets its override and every other id is unchanged |
| ShipIcons.NoOverrideIsAnId | m3tacron/ui_utils/ships.py:9-17 | no override value is an overridden id |
| ShipIcons.IconNameIdempotent | m3tacron/ui_utils/ships.py:19-21 | looking up the icon name twice is the same as once |
| ShipIcons.InterceptorAgreesWithWeb | m3tacron/ui_utils/ships.py:10 | the interceptor override agrees with the web front end's fix |
| ApiTournaments.Head | backend/api/tournaments.py:40-43 | `s[:n]` is the first min(n, len) characters |
| ApiTournaments.SplitFormatBadge | backend/api/tournaments.py:14-45 | both badge rows have at most four characters for every label |
| ApiTournaments.BadgeOf | backend/api/tournaments.py:23-45 | the first matching rule gives the badge, and both of its rows have at most four characters (see BadgeExact, BadgeLegacyFirst and FallbackRows for the rules) |
| ApiTournaments.BadgeUnknown | backend/api/tournaments.py:16 | a missing or empty label gives ("UNK", "") |
| ApiTournaments.BadgeCaseInsensitive | backend/api/tournaments.py:16 | the badge does not depend on the label's case |
| ApiTournaments.BadgeExact | backend/api/tournaments.py:23-24 | after STANDARD and EXTENDED are removed, exactly "AMG" or "XWA" shows on one row |
| ApiTournaments.BadgeLegacyFirst | backend/api/tournaments.py:25-30 | any label mentioning LEGACY gives LGCY with X2PO, XLC or 2.0, before the FFG, WILD and EPIC rules |
| ApiTournaments.FallbackRows | backend/api/tournaments.py:38-45 | without a keyword: prefixes of the first two words, or the first eight characters of a single word split over two rows |
| ApiTournaments.BadgeFallback | backend/api/tournaments.py:38-45 | the same for the label as the function receives it |
| ApiTournaments.PartsOf | backend/api/tournaments.py:84-87 | at most one part per key, none of them empty |
| ApiTournaments.UniqueParts | backend/api/tournaments.py:89-94 | the seen-set loop gives the first occurrences of the parts in order |
| ApiTournaments.LocationText | backend/api/tournaments.py:79-99 | a falsy location shows "Unknown Location"; a text location that is not JSON is shown as it is (see CityStateShownOnce and DedupDistinct for the parts) |
| ApiTournaments.FormatLocation | backend/api/tournaments.py:79-99 | the location text follows the falsy, distinct-parts and exception rules |
| ApiTournaments.DedupDistinct | backend/api/tournaments.py:89-94 | every part is kept once, and already distinct parts keep their order |
| ApiTournaments.CityStateShownOnce | backend/api/tournaments.py:84-97 | a city equal to its country is shown once before the continent |
| SortingOrder.AllCriteriaComplete | m3tacron/backend/data_structures/sorting_order.py:10-16 | the iteration order lists every criterion once |
| SortingOrder.Label | m3tacron/backend/data_structures/sorting_order.py:18-27 | every label is a non-empty text starting with a capital letter |
| SortingOrder.LabelsDistinct | m3tacron/backend/data_structures/sorting_order.py:6-27 | labels, values and string forms of different criteria differ, as do the two direction values |
| SortingOrder.FromLabel | m3tacron/backend/data_structures/sorting_order.py:29-34 | the search loop returns a criterion with the given label, or POPULARITY when no criterion has it |
| SortingOrder.SearchFinds | m3tacron/backend/data_structures/sorting_order.py:31-34 | the search finds a matching criterion whenever one is listed, and the default otherwise |
| SortingOrder.FromLabelLabel | m3tacron/backend/data_structures/sorting_order.py:18-34 | reading back any criterion's label gives that criterion |
| SortingOrder.FromLabelUnknown | m3tacron/backend/data_structures/sorting_order.py:34 | a text that is no label gives POPULARITY |
| Yasb.BaseUrl | m3tacron/backend/utils/yasb.py:11-31 | the base URL is always one of the three builders |
| Yasb.ValueLower | m3tacron/backend/utils/yasb.py:21-22 | lowering a format value leaves it unchanged |
| Yasb.BaseUrlOfFormat | m3tacron/backend/utils/yasb.py:25-31 | yasb.app exactly for the 2.5 formats, the lorenzosanti builder exactly for Legacy (XLC), xwing-legacy.com for all others |
| Yasb.BaseUrlOfText | m3tacron/backend/utils/yasb.py:21-25 | a text in any case selects the same builder as the format it spells |
| Yasb.DParam | m3tacron/backend/utils/yasb.py:82-86 | a found `d` value is non-empty, free of `&`, and follows a "d=" in the text |
| Yasb.Run | m3tacron/backend/utils/yasb.py:84 | the longest `&`-free prefix |
| Yasb.DParamNeedsMarker | m3tacron/backend/utils/yasb.py:82-84 | a `d` value is found only when the text holds "d=" |
| Yasb.XwsToYasbUrl | m3tacron/backend/utils/yasb.py:45-46 | non-dict data gives "" |
| Yasb.NoSquadNoLink | m3tacron/backend/utils/yasb.py:45-53 | non-dict data or a falsy faction gives "" |
| Yasb.ExistingLinkKept | m3tacron/backend/utils/yasb.py:60-63 | a stored link containing the base URL is returned unchanged |
| Yasb.NoDataGivesLink | m3tacron/backend/utils/yasb.py:79-95 | without a `d` parameter the result is the stored link, or "" when there is none |
| Yasb.BuiltLinkShape | m3tacron/backend/utils/yasb.py:66-99 | any other link is built on the format's base URL and starts with "?f=" |
| BaseScraper.ParseIntValue | backend/scrapers/base.py:87-99 | an integer is itself, a text is the integer its stripped form denotes, and anything that does not parse (any other text, None, a float, a list, a dict) is 0 |
| BaseScraper.ParseIntValueOfText | backend/scrapers/base.py:96-97 | the decimal text of every integer parses back to that integer |
| BaseScraper.FirstMatching | backend/scrapers/base.py:120-126 | the position found is the first scenario that matches by spaced name or by normalised value; none is found only when no scenario matches |
| BaseScraper.ParseScenario | backend/scrapers/base.py:101-127 | empty text gives OTHER_UNKNOWN; any other scenario returned is the first in declaration order that matches; OTHER_UNKNOWN for a non-empty text means no scenario before it matches |
| BaseScraper.IndexMapSpec | backend/scrapers/base.py:154 | every player's lowered, stripped name is a key, each key leads to a player with that name, and to the last such player |
| BaseScraper.HasPlaceholder | backend/scrapers/base.py:146-149 | true exactly when some player has wins of -1 or a tie-breaker of -1 |
| BaseScraper.BuildIndexMap | backend/scrapers/base.py:154 | the loop builds the name-to-player map of the comprehension |
| BaseScraper.ResetOne | backend/scrapers/base.py:157-164 | -1 wins, losses and draws become 0, other counts are kept, and the tie-breaker becomes 0 |
| BaseScraper.ResetPlaceholders | backend/scrapers/base.py:157-164 | the array afterwards holds every player reset |
| BaseScraper.Outcome | backend/scrapers/base.py:180-194 | a named winner makes side 1 win iff it matches player 1's key, else side 2 iff it matches player 2's, never a draw; without a winner the higher score wins and equal positive scores draw |
| BaseScraper.ApplyMatchInPlace | backend/scrapers/base.py:166-213 | one row's updates in place are the row's effect on the players, and non-swiss rows change nothing |
| BaseScraper.AwardEventPoints | backend/scrapers/base.py:215-221 | the array afterwards holds every player's event points filled in where they were None or at most 0 |
| BaseScraper.ComputeStatsFromMatches | backend/scrapers/base.py:129-221 | the players afterwards are the computed standings of the players before, the rows and the format |
| BaseScraper.NoPlaceholderNoChange | backend/scrapers/base.py:145-151 | without a placeholder the players are unchanged |
| BaseScraper.ApplyMatchesTotals | backend/scrapers/base.py:166-213 | each player's counters grow by exactly its wins, losses, draws and own scores over the rows, and event points are untouched |
| BaseScraper.ComputedStatsTotals | backend/scrapers/base.py:156-221 | after a run each counter is its placeholder-cleared value plus the matches; the tie-breaker is the sum of the player's own swiss scores; event points are wins·3+draws (wins·1 for LEGACY_X2PO) only where None or at most 0 |
| BaseScraper.SwissOnly | backend/scrapers/base.py:167-168 | the rows kept are all swiss rows |
| BaseScraper.OnlySwissCounted | backend/scrapers/base.py:166-168 | the standings depend only on the swiss rows |
| BaseScraper.MatchBetweenTwo | backend/scrapers/base.py:196-213 | between two known players a decided match gives one a win and the other a loss, or both a draw; no result changes no W/L/D; each tie-breaker grows by its own score |
| BaseScraper.UnreportedNoResult | backend/scrapers/base.py:188-194 | an unreported 0-0 without winner is no result |
| ExtractData.DictSet | m3tacron/scripts/extract_data.py:301-302 | after the assignment the key leads to the new value and every other key to what it led to before |
| ExtractData.PlayerMapBothKeys | m3tacron/scripts/extract_data.py:298-302 | a named player's whitespace-collapsed name and its lower-cased form both lead to its id |
| ExtractData.PrefixCandidates | m3tacron/scripts/extract_data.py:143-146 | the candidates are ids of the map, at most one per entry |
| ExtractData.ResolvePlayerId | m3tacron/scripts/extract_data.py:125-151 | None for an empty name; else the collapsed name as exact key, else its lower-case form, else an id exactly when one key starts with it case-insensitively; any id found is in the map |
| ExtractData.MixedCasePrefixUnresolved | m3tacron/scripts/extract_data.py:143-151 | for a player whose name has upper-case letters the prefix fallback finds two candidates, its cased and lower-cased keys, and resolves nothing |
| ExtractData.AssignWinner | m3tacron/scripts/extract_data.py:349-365 | the winner is one of the two ids; a winner name matching player 1 (stripped, lower-cased) picks player 1's id, else one matching player 2 picks player 2's; without a name the strictly higher score wins and a tie leaves none |
| ExtractData.StoreMatch | m3tacron/scripts/extract_data.py:316-365 | a row is stored exactly when player 1 resolves to a truthy id, with both resolved ids, both scores and the assigned winner |
| ExtractData.RecalculatedSpec | m3tacron/scripts/extract_data.py:100-115 | every tie-breaker is overwritten by the recomputed total; outside legacy event points that were None or 0 become wins·3+draws; id, name and W/L/D are kept |
| ExtractData.TieBreakerTotals | m3tacron/scripts/extract_data.py:73-98 | the totals have exactly the players' ids as keys and each is the player's tie-breaker over the counted matches |
| ExtractData.CalculateAndUpdateStats | m3tacron/scripts/extract_data.py:55-122 | the players afterwards are the players recalculated from the matches and the format |
| ExtractData.TbOfAbsent | m3tacron/scripts/extract_data.py:73-84 | a player no counted match names gets the tie-breaker 0 |
| ExtractData.TbStandardNonNegative | m3tacron/scripts/extract_data.py:85-98 | outside legacy a tie-breaker is a sum of scores clamped at 0, never negative |
| ExtractData.LegacyTbSumZero | m3tacron/scripts/extract_data.py:76-93 | in legacy scoring a tournament's tie-breakers sum to zero when every counted match is between its own players |
| Formats.Macro | m3tacron/backend/data_structures/formats.py:58-67 | a format's macro format is the one whose list holds it, and no other list holds it |
| Formats.FormatsPartition | m3tacron/backend/data_structures/formats.py:20-25 | the three lists are pairwise disjoint, together hold every format, and a format is in a list exactly when that list's macro format is its own |
| Formats.ValuesInjective | m3tacron/backend/data_structures/formats.py:6-41 | values identify formats and macro formats, except that the macro OTHER and the format OTHER share "other" |
| Formats.LabelsInjective | m3tacron/backend/data_structures/formats.py:11-55 | no two formats, and no two macro formats, share a label |
| Formats.FormatFromValue | m3tacron/backend/data_structures/formats.py:27-41 | the format returned has the value asked for, and there is none exactly when no format has it |
| Formats.MacroFromValue | m3tacron/backend/data_structures/formats.py:6-9 | the macro format returned has the value asked for, and there is none exactly when no macro format has it |
| Formats.FormatValuesSpec | m3tacron/backend/data_structures/formats.py:20-25 | a format's value is among a macro format's values exactly when the format belongs to it |
| Formats.EpicByRuleset | m3tacron/backend/data_structures/formats.py:88-91 | always an epic format, XWA_EPIC exactly for the ruleset XWA |
| Formats.InferEpic | m3tacron/backend/data_structures/formats.py:78-91 | the EPIC branch always yields one of the two epic formats |
| Formats.YasbFormat | m3tacron/backend/data_structures/formats.py:102-107 | legacy hosts give LEGACY_X2PO; otherwise lorenzosanti gives LEGACY_XLC; no verdict exactly when none of the five keywords occurs |
| Formats.InferFromVendor | m3tacron/backend/data_structures/formats.py:99-115 | the vendor fallback never yields an epic format, WILDSPACE or AMG |
| Formats.InferFormat | m3tacron/backend/data_structures/formats.py:69-115 | empty XWS is OTHER; a format field EPIC in any case yields an epic format, and nothing else does; outside EPIC the rulesets XWA, AMG and LEGACY/X2PO decide before vendor data |
| Formats.EpicDefault | m3tacron/backend/data_structures/formats.py:80-91 | an EPIC export without vendor data is LEGACY_EPIC unless its ruleset is XWA |
| Formats.YasbPrecedence | m3tacron/backend/data_structures/formats.py:100-107 | with a YASB block the keyword precedence is legacy hosts, lorenzosanti, raithos, yasb.app |
| Formats.LbnRule | m3tacron/backend/data_structures/formats.py:109-113 | a Launch Bay Next block gives LEGACY_X2PO exactly when its builder or link mentions "legacy", XWA otherwise |
| Models.NewPlayerResult | m3tacron/backend/models.py:42-60 | a new player result carries the placeholders: rank, wins and losses -1, draws 0, no event points, tie-breaker or cut stats |

## Left out

- Network access, browsers and page scraping, database sessions, logging and the HTTP and
  UI frameworks are not modelled. Their results are inputs: the rows, JSON exports, page
  texts and query results the core computes from.
- Lower-casing, upper-casing, whitespace and digits are ASCII only. Python's and
  JavaScript's Unicode case mapping is not modelled.
- Strings.IsSpace: the whitespace of `str.split()` and `str.strip()` is space, tab, line feed,
  carriage return, vertical tab and form feed; the separators \x1c-\x1f, which Python also
  strips, are kept as ordinary characters.
- The integer and string forms of `int`, `float` and `str` are modelled for integers and
  text. `str()` of a float, list or dict is a tagged text and not Python's exact rendering.
- Ships.Sortable: a name list that is all numbers is refused as unsortable, although
  Python's `sorted` orders numbers; only text names are ordered.
- ApiLists.LoadoutValue: a float loadout is read as raising, although Python adds it to the
  total; only integer and boolean loadouts are summed.
- Win rates are exact reals. The rounding to one decimal (`round(x, 1)`, `toFixed`) is not
  modelled.
- `SequenceMatcher.ratio`, `strptime`, `datetime.fromisoformat` of a tournament date,
  `json.loads`, `urlparse`/`parse_qs`, `quote` and `str.title` are parameters. So are the
  card-catalogue loaders (`get_pilot_info`, `load_all_pilots`, `get_upgrade_info`,
  `get_upgrade_slot`).
- `backend/utils/xwing_data` and `backend/data_structures/factions.py` are not part of this
  model. `Formatters`, `FactionAnalytics`, `ApiLists.FactionLabel` and `Squadron.ParseYasb`
  use m3tacron's `Faction` in their place. The catalogue functions (`get_pilot_info`,
  `get_upgrade_info`, `get_upgrade_slot`, `load_all_pilots`) are parameters of ApiLists,
  CardStats, CardAnalytics, ShipAnalytics, Squadron and Formatters.
- The current day is a parameter: `datetime.now()` and `date.today()` are not read.
- BaseScraper: `_parse_date` and `run_full_scrape` are not part of this model.
- ExtractData: scraper selection, the session, `commit` and the `existing` player lookup of
  `run_url` are not modelled. Only the player map, the match rows and the winner rule are.
- ExtractData.CalculateAndUpdateStats: requires distinct player ids. Ids are primary keys,
  so the source's players always have them.
- Longshanks: the browser session, selectors and waits of `get_participants` and
  `get_matches` are not modelled. The texts they yield are inputs.
- Rollbetter: matches are read from the page, not from the JSON export, and are not modelled.
- Rollbetter.ParseFromJsonV2: a kept list or dict title is stored in the tournament's name as its text form (`Str`), whereas the source stores the container object itself in the untyped-at-runtime `name` field.
- ListFortressScraper: `_map_format` is modelled, but `get_tournament_data` never calls it.
- ListFortress: only the post-fetch step of `fetch_tournaments` is modelled, not the HTTP
  request. `fetch_tournament_details` is plain I/O and is left out.
- ListFortress: a tournament date is compared through the `iso` parameter.
- ListFortress: sorting uses the date text as a code-point key, as Python does.
- Squadron: the three Python copies compute the same values and are modelled once. Each row
  cites one copy and names the others.
- ListAnalytics, ApiLists, ShipAnalytics, CardStats, CardAnalytics, FactionAnalytics: the
  SQL query is the input sequence of (result, tournament) rows.
- ListAnalytics, ApiLists, ShipAnalytics, CardStats, CardAnalytics, FactionAnalytics:
  dictionary keys compare structurally.
- CardStats and CardAnalytics: catalogue entries are taken to be dicts.
- CardStats: the unused `parts` variable and the pilot ability text are not modelled.
- CardAnalytics: the five-argument call site of the older `aggregate_card_stats` is not
  modelled.
- FactionAnalytics: only the faction distribution and the default formats of
  `get_meta_snapshot` are modelled. Its other panels are database reads.
- ListAnalytics: m3tacron/backend/analytics/lists.py:9 imports `get_active_formats` from
  m3tacron/backend/analytics/filters.py. That file defines only `filter_query` and
  `check_format_filter`, so the module as written fails at import. The model describes it
  as it would run with the `get_active_formats` of backend/analytics/filters.py:42-55
  (`AnalyticsFilters.ActiveFormats`).
- FactionAnalytics: m3tacron/backend/analytics/factions.py:11 imports `get_active_formats`
  from m3tacron/backend/analytics/filters.py. That file defines only `filter_query` and
  `check_format_filter`, so the module as written fails at import. The model describes it
  as it would run with the `get_active_formats` of backend/analytics/filters.py:42-55
  (`AnalyticsFilters.ActiveFormats`).
- ShipAnalytics: the ship key compares structurally. `load_all_pilots` is a parameter.
- ShipAnalytics: the date bounds are compared as day numbers. The source compares
  `str(tournament.date)` with the filter text, so a bound that is not a zero-padded ISO date
  (such as "2025-1-5") orders differently there, and that case is not represented.
- Ships: the directory listing is the input in the order given, and file reading is a
  parameter. The `lru_cache` and set iteration order are not modelled.
- Ships: the hash order of Python sets is not modelled. The result is sorted by name, so it
  does not depend on that order.
- Deduplication: the name similarity is a parameter into [0, 1], and dates are day numbers.
- XwingData and XwingParser: the JSON files the catalogues are read from are not part of
  this model. The catalogues are maps given as inputs.
- Formatters: pydantic validation of the response model is not modelled.
- ApiLists: the `image`, `ship_icon` and `slot_icon` fields of the enriched pilot and upgrade
  records are not modelled. They only carry display paths.
- ApiLists: pydantic validation of `ListData`, `PilotData` and `UpgradeData` is not modelled.
  The records hold the values as read.
- Formatters: `float()` of text that is not a plain integer is not modelled and reads as 0.0.
- GlobalFilters: `load_locations` reads the database, so its result is a parameter.
- GlobalFilters: the `rx.event` plumbing is not modelled.
- FormatFilter: the rendering functions of `components/format_filter.py` are interface
  layout and are not modelled. The `on_filter_change` hook is a no-op counted by a ghost
  field.
- PaginationView: a zero page size, which JavaScript turns into `Infinity` or `NaN`, is not
  modelled. The size is taken positive.
- DashboardRankings: JavaScript's `Number()` of a text win rate is the parameter `textValue`.
- DashboardRankings: the component copies before sorting, so its input stays unmodified.
  With values this holds by construction.
- FactionColors: `FACTION_LABELS` uses "Scum & Villainy" where the Python enum's label is
  "Scum and Villainy". Both tables are modelled as written.
- Icons: the components are reduced to the class name and colour they would render.
- Icons: JavaScript's `toLowerCase` is ASCII here.
- ApiTournaments: the SQL query, the player counts, the platform label and the Format
  table of `backend/data_structures/formats.py` are not part of this model.
- ApiTournaments: `json.loads` of a stored location is the parameter `parse`.
- ApiTournaments: `str()` of a dict-valued location part is a tagged text.
- SortingOrder: comparing a `StrEnum` member with a plain string is not modelled. Members
  and their values are kept apart.
- Yasb: a vendor field of the wrong kind (a non-dict `vendor` or `yasb`, a non-string `link`
  or `builder_url`) gives an `Err` result and is not modelled further.
- Yasb: `urlencode`'s `quote` is a parameter.
- ScrapeTournaments: ISO week numbering and the `%U`/`%W` directives are not modelled. The
  time-range presets are modelled on day numbers.
- Models: only `PlayerResult`, `Match` and `Tournament` with the fields the core reads are
  modelled, and the SQL table options are not. m3tacron/backend/models.py defines only those
  three classes.
- FormatDetector: m3tacron/backend/format_detector.py imports `MacroFormat` and `SubFormat`
  from `.models`, which defines neither, so the module as written fails at import. The model
  stands `Formats.MacroFormat` in for `MacroFormat` and its own `FormatDetector.SubFormat`
  for `SubFormat`, and describes the detector as it would run with those names defined.
- Inference: m3tacron/backend/inference.py imports `GameFormat` from
  `m3tacron.backend.models`, which does not define it, so the module as written fails at
  import. The model reads `GameFormat`'s members as `Formats.Format` (`XWA`, `AMG`,
  `LEGACY_X2PO`, `LEGACY_XLC`, `FFG`, `OTHER`) and describes the inference as it would run
  with that name defined.

## Findings

| source | as written | input that shows it | evidently intended | confidence | as-written member | corrected member |
|---|---|---|---|---|---|---|
| m3tacron/backend/scrapers/rollbetter.py:364-375 | the points read into `swiss_points` are passed to `PlayerResult` as a keyword it has no field for, so they never reach `swiss_event_points` | a player entry `{"points": 5}` | the player's points are stored as its swiss event points | not executed | Rollbetter.ResultAsWritten, Rollbetter.PointsLost | Rollbetter.ResultOf |
| m3tacron/backend/scrapers/longshanks_scraper.py:769 | `self._parse_scenario` is called, but the `BaseScraper` imported at line 15 (m3tacron/backend/scrapers/base.py) has no such method, so a 2.5 round labelled with " - " raises AttributeError and the handler at line 887 ends match reading at that round, so no later round is read | the round label "Round 1 - Chance Engagement" | the scenario after " - " is read by a scenario parser like the one in backend/scrapers/base.py:101 | not executed | Longshanks.RoundScenarioAsWritten, Longshanks.RoundsReadAsWritten, Longshanks.ChanceEngagementAborts | Longshanks.RoundScenario, Longshanks.LabelScenario |
| m3tacron/backend/scrapers/listfortress_scraper.py:112-124 | the date is read with `self._parse_date`, which this scraper does not define; the exception handler then names `Format.UNKNOWN`, which `Format` lacks, so the call fails for every export | an export `{"id": 1, "name": "Open"}` | the date is read as the other scrapers read it, and the export gives a tournament of format OTHER | not executed | ListFortressScraper.TournamentDataAsWritten, ListFortressScraper.DateReaderMissing | ListFortressScraper.TournamentData |
| m3tacron/backend/card_analytics.py:55-66 | `format_selection.get(...)` is called before the list branch, so a list selection raises `AttributeError` | the selection `["xwa"]` | a list selection tests membership of the tournament's format | not executed | AnalyticsFilters.CardCheckAsWritten, AnalyticsFilters.CardListSelectionRaises | AnalyticsFilters.CheckFormatFilter, AnalyticsFilters.CardCheckAgrees |
| m3tacron/backend/analytics/ships.py:78-84 | `Faction` has no `xws` attribute, so every faction falls back to its lower-cased text without spaces and an alias stays an alias | a list of faction "rebel" | aliases resolve to the faction id, so "rebel" keys as "rebelalliance" | not executed | ShipAnalytics.ResolveFactionAsWritten, ShipAnalytics.AliasKeyLost | ShipAnalytics.ResolveFaction, ShipAnalytics.AliasKeyKept |
| m3tacron/backend/analytics/core.py:105-106 | `result.cut_wins` and `result.cut_losses` are added without a None check, so a player who missed the cut ends the aggregation with a `TypeError` | a result with 3 wins, 2 losses and no cut counts | a player without cut counts contributes its swiss record, 3 wins in 5 games | not executed | CardStats.OutcomeAsWritten, CardStats.CutlessResultRaises | CardStats.Outcome |
| m3tacron/backend/card_analytics.py:116-117 | the same two sums, before the mode branch, add `result.cut_wins` and `result.cut_losses` without a None check, so a row with a dict list and no cut counts raises `TypeError` in every mode | a result with 3 wins, 2 losses, no cut counts and the list `{"pilots": []}` | a player without cut counts contributes its swiss record | not executed | CardAnalytics.RowHitsAsWritten, CardAnalytics.CutlessRowAborts, CardAnalytics.CutlessListRaises | CardAnalytics.RowHits, CardAnalytics.AggregateCardStats |
| m3tacron/backend/format_detector.py:28-29 | the YASB builder and link are appended without `.lower()`, so an upper-case builder name hides "yasb" and the lorenzosanti branch is never reached | an export with builder "YASB 2.0" and a lorenzosanti link | the vendor text is lower-cased like the rest, and the export is 2.0 XLC | not executed | FormatDetector.DetectXwsAsWritten, FormatDetector.LorenzoMissedAsWritten | FormatDetector.DetectXws, FormatDetector.LorenzoFound |
| frontend/src/lib/factions.ts:20 | `FACTION_COLORS[key] ?? FACTION_COLORS.unknown` also finds the members every object inherits, so the fallback is skipped for them | the key "toString" | every key outside the table gets the grey of "unknown" | not executed | FactionColors.ColorAsWritten, FactionColors.InheritedNameIsNoColor | FactionColors.Color, FactionColors.ColorInPalette |
| frontend/src/components/Icons.tsx:14-17 | `FACTION_ICONS[faction] ?? ""` finds inherited members too, so an inherited name renders an icon whose class is a function's text | the faction "constructor" | only the seven table keys render an icon | not executed | Icons.FactionIconAsWritten, Icons.InheritedNameRendersIcon | Icons.FactionIcon, Icons.FactionIconSpec |
