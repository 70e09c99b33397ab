/** The stored entities (tournament, player result, match), the round types and the
    scenarios, and the match rows that scrapers hand to the standings computation. */
module Models {
  import opened Wrappers
  import opened Json
  import opened Formats

  datatype RoundType = SWISS | CUT | ELIMINATION

  /** The 2.5 scenarios, in declaration order. */
  datatype Scenario =
    | ANCIENT_KNOWLEDGE
    | ASSAULT_AT_THE_SATELLITE_ARRAY
    | CHANCE_ENGAGEMENT
    | SALVAGE_MISSION
    | SCRAMBLE_THE_TRANSMISSIONS
    | NO_SCENARIO
    | OTHER_UNKNOWN

  const AllScenarios: seq<Scenario> := [
    ANCIENT_KNOWLEDGE, ASSAULT_AT_THE_SATELLITE_ARRAY, CHANCE_ENGAGEMENT, SALVAGE_MISSION,
    SCRAMBLE_THE_TRANSMISSIONS, NO_SCENARIO, OTHER_UNKNOWN
  ]

  function ScenarioValue(s: Scenario): string {
    match s
    case ANCIENT_KNOWLEDGE => "ancient_knowledge"
    case ASSAULT_AT_THE_SATELLITE_ARRAY => "assault_at_the_satellite_array"
    case CHANCE_ENGAGEMENT => "chance_engagement"
    case SALVAGE_MISSION => "salvage_mission"
    case SCRAMBLE_THE_TRANSMISSIONS => "scramble_the_transmissions"
    case NO_SCENARIO => "no_scenario"
    case OTHER_UNKNOWN => "other_unknown"
  }

  /** A tournament; the location is kept as its display text. */
  datatype Tournament = Tournament(
    name: string,
    date: int,
    location: string,
    playerCount: int,
    url: string,
    platform: string,
    format: Option<Format>)

  /** A player's result. The swiss W/L counters default to the placeholder -1, draws to 0,
      and the remaining statistics to None. */
  datatype PlayerResult = PlayerResult(
    tournamentId: int,
    playerName: string,
    teamName: Option<string>,
    swissRank: int,
    swissWins: int,
    swissLosses: int,
    swissDraws: int,
    swissEventPoints: Option<int>,
    swissTieBreakerPoints: Option<int>,
    cutRank: Option<int>,
    cutWins: Option<int>,
    cutLosses: Option<int>,
    cutDraws: Option<int>,
    cutEventPoints: Option<int>,
    cutTieBreakerPoints: Option<int>,
    listJson: Json)

  /** `PlayerResult(tournament_id=…, player_name=…, team_name=…)` with every other field
      at its declared default. */
  function NewPlayerResult(tid: int, name: string, team: Option<string>): (p: PlayerResult)
    ensures p.playerName == name && p.tournamentId == tid && p.teamName == team
    ensures p.swissRank == -1 && p.swissWins == -1 && p.swissLosses == -1 && p.swissDraws == 0
    ensures p.swissEventPoints.None? && p.swissTieBreakerPoints.None? && p.cutRank.None?
  {
    PlayerResult(tid, name, team, -1, -1, -1, 0, None, None, None, None, None, None, None, None, JObj([]))
  }

  /** A result's wins: swiss plus cut, a missing cut count as 0. */
  function ResultWins(p: PlayerResult): int {
    p.swissWins + p.cutWins.GetOr(0)
  }

  /** A result's games: its wins plus its swiss and cut losses and draws, missing cut
      counts as 0. */
  function ResultGames(p: PlayerResult): int {
    ResultWins(p) + p.swissLosses + p.swissDraws + p.cutLosses.GetOr(0) + p.cutDraws.GetOr(0)
  }

  /** A stored match. A score of -1 means unreported; the scenario is stored as its text
      ("" for none). */
  datatype Match = Match(
    roundNumber: int,
    roundType: RoundType,
    scenario: string,
    player1Id: Option<int>,
    player2Id: Option<int>,
    player1Score: int,
    player2Score: int,
    winnerId: Option<int>,
    isBye: bool)

  /** A match as a scraper emits it before player ids exist: participants and winner are
      carried by name (`p1_name_temp`, `p2_name_temp`, `winner_name_temp`). A missing name
      and an empty one are both falsy and are both written "". */
  datatype MatchRow = MatchRow(
    roundNumber: int,
    roundType: RoundType,
    scenario: string,
    p1Name: string,
    p2Name: string,
    winnerName: string,
    player1Score: int,
    player2Score: int,
    isBye: bool)

  /** Which card data a request reads (the enum's own file is not part of this model). */
  datatype DataSource = XWA | LEGACY
}
