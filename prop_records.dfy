/**
 * The second phase of the player prop aggregation: one prop record per
 * distinct key, in the order keys were first seen, filled from the hit-rate
 * calculators for the last 5, 10, 20 and 30 games, the current season, the
 * head-to-head matchups and the hot streak; and the whole aggregation.
 */
module PropRecords {

  import opened Wrappers
  import opened Markets
  import opened BoxScores
  import opened OddsJson
  import opened NBAStats
  import opened PlayerProps
  import HitRateFacts

  /** Hits, hit rate and average over a window of recent games. */
  datatype WindowRate = WindowRate(hits: Option<nat>, hitRate: Option<real>, average: Option<real>)

  /** Games, hits, hit rate and average over the season or the head-to-head matchups. */
  datatype MatchupRate = MatchupRate(games: nat, hits: Option<nat>, hitRate: Option<real>, average: Option<real>)

  /** The columns of one stored player prop. */
  datatype PlayerPropRecord = PlayerPropRecord(
    id: PropId,
    eventId: string,
    playerId: int,
    opponentTeamId: int,
    market: string,
    line: real,
    alternate: bool,
    lastFiveGames: WindowRate,
    lastTenGames: WindowRate,
    lastTwentyGames: WindowRate,
    lastThirtyGames: WindowRate,
    season: MatchupRate,
    headToHead: MatchupRate,
    hotStreak: Option<nat>)

  /** hits / window, or None when the hits are unknown. */
  function WindowHitRate(hits: Option<nat>, window: nat): (r: Option<real>)
    requires window > 0
    ensures r.None? <==> hits.None?
    ensures r.Some? ==> r.value * window as real == hits.value as real
    ensures r.Some? && hits.value <= window ==> 0.0 <= r.value <= 1.0
  {
    if hits.Some? then Some(hits.value as real / window as real) else None
  }

  /** hits / games, or None when the hits are unknown; known hits come with at least one game. */
  function GamesHitRate(games: nat, hits: Option<nat>): (r: Option<real>)
    requires hits.Some? ==> games > 0
    ensures r.None? <==> hits.None?
    ensures r.Some? ==> r.value * games as real == hits.value as real
    ensures r.Some? && hits.value <= games ==> 0.0 <= r.value <= 1.0
  {
    if hits.Some? then Some(hits.value as real / games as real) else None
  }

  /** A rate is known exactly when its hits are, and is then a fraction between 0 and 1. */
  predicate WindowRateWellFormed(w: WindowRate) {
    (w.hitRate.None? <==> w.hits.None?) && (w.hitRate.Some? ==> 0.0 <= w.hitRate.value <= 1.0)
  }

  predicate MatchupRateWellFormed(m: MatchupRate) {
    (m.hitRate.None? <==> m.hits.None?) && (m.hitRate.Some? ==> 0.0 <= m.hitRate.value <= 1.0)
  }

  function WindowRateOf(s: WindowStats, window: nat): WindowRate
    requires window > 0
  {
    WindowRate(s.hits, WindowHitRate(s.hits, window), s.average)
  }

  function MatchupRateOf(s: FilteredStats): MatchupRate
    requires s.hits.Some? ==> s.games > 0
  {
    MatchupRate(s.games, s.hits, GamesHitRate(s.games, s.hits), s.average)
  }

  /** Season results: known hits come with at least one game and never exceed it. */
  lemma SeasonShape(table: seq<BoxScore>, season: string, playerId: int, market: MarketStats, line: real)
    requires ValidTable(table) && UsesColumns(market)
    ensures var s := Season(table, season, playerId, market, line);
      s.hits.Some? ==> 0 < s.games && s.hits.value <= s.games
  {
    HitRateFacts.SeasonInTableOrder(table, season, playerId, market, line);
    HitRateFacts.OverGamesShape(table, playerId, market, line, InSeason(season));
  }

  /** Head-to-head results: known hits come with at least one game and never exceed it. */
  lemma HeadToHeadShape(table: seq<BoxScore>, playerId: int, market: MarketStats, line: real, opponentTeamId: int)
    requires ValidTable(table) && UsesColumns(market)
    ensures var s := HeadToHead(table, playerId, market, line, opponentTeamId);
      s.hits.Some? ==> 0 < s.games && s.hits.value <= s.games
  {
    HitRateFacts.HeadToHeadInTableOrder(table, playerId, market, line, opponentTeamId);
    HitRateFacts.OverGamesShape(table, playerId, market, line, Against(opponentTeamId));
  }

  /** The record of one key, from the calculators over the table. */
  function PropRecord(table: seq<BoxScore>, season: string, key: PropKey, id: PropId): PlayerPropRecord
    requires ValidTable(table) && key.market in MarketStatsMapping
  {
    HitRateFacts.MappingUsesColumns();
    var market := MarketStatsMapping[key.market];
    SeasonShape(table, season, key.playerId, market, key.line);
    HeadToHeadShape(table, key.playerId, market, key.line, key.opponentTeamId);
    PlayerPropRecord(
      id, key.eventId, key.playerId, key.opponentTeamId, key.market, key.line, key.alternate,
      WindowRateOf(LastNGames(table, key.playerId, market, key.line, 5), 5),
      WindowRateOf(LastNGames(table, key.playerId, market, key.line, 10), 10),
      WindowRateOf(LastNGames(table, key.playerId, market, key.line, 20), 20),
      WindowRateOf(LastNGames(table, key.playerId, market, key.line, 30), 30),
      MatchupRateOf(Season(table, season, key.playerId, market, key.line)),
      MatchupRateOf(HeadToHead(table, key.playerId, market, key.line, key.opponentTeamId)),
      HotStreak(table, key.playerId, market, key.line))
  }

  /** A window's hit rate is known exactly when its hits are, and is a fraction between 0 and 1. */
  lemma WindowRateBounds(table: seq<BoxScore>, playerId: int, market: MarketStats, line: real, n: int)
    requires ValidTable(table) && UsesColumns(market) && n >= 1
    ensures WindowRateWellFormed(WindowRateOf(LastNGames(table, playerId, market, line, n), n))
  {
    HitRateFacts.LastNGamesShape(table, playerId, market, line, n);
  }

  /** A season or head-to-head rate is known exactly when its hits are, and is a fraction between 0 and 1. */
  lemma MatchupRateBounds(s: FilteredStats)
    requires s.hits.Some? ==> 0 < s.games && s.hits.value <= s.games
    ensures MatchupRateWellFormed(MatchupRateOf(s))
  {
  }

  /**
   * A record repeats its key and id, and each of its six rates is known
   * exactly when its hits are and is then a fraction between 0 and 1.
   */
  lemma PropRecordShape(table: seq<BoxScore>, season: string, key: PropKey, id: PropId)
    requires ValidTable(table) && key.market in MarketStatsMapping
    ensures var r := PropRecord(table, season, key, id);
      && r.id == id && r.eventId == key.eventId && r.playerId == key.playerId
      && r.opponentTeamId == key.opponentTeamId && r.market == key.market
      && r.line == key.line && r.alternate == key.alternate
      && WindowRateWellFormed(r.lastFiveGames) && WindowRateWellFormed(r.lastTenGames)
      && WindowRateWellFormed(r.lastTwentyGames) && WindowRateWellFormed(r.lastThirtyGames)
      && MatchupRateWellFormed(r.season) && MatchupRateWellFormed(r.headToHead)
  {
    HitRateFacts.MappingUsesColumns();
    var market := MarketStatsMapping[key.market];
    WindowRateBounds(table, key.playerId, market, key.line, 5);
    WindowRateBounds(table, key.playerId, market, key.line, 10);
    WindowRateBounds(table, key.playerId, market, key.line, 20);
    WindowRateBounds(table, key.playerId, market, key.line, 30);
    SeasonShape(table, season, key.playerId, market, key.line);
    HeadToHeadShape(table, key.playerId, market, key.line, key.opponentTeamId);
    MatchupRateBounds(Season(table, season, key.playerId, market, key.line));
    MatchupRateBounds(HeadToHead(table, key.playerId, market, key.line, key.opponentTeamId));
  }

  /** Fills one record by running the calculators. */
  method BuildRecord(stats: NBAStatsAPIService, key: PropKey, id: PropId) returns (r: PlayerPropRecord)
    requires ValidTable(stats.playerBoxScoresTraditional) && key.market in MarketStatsMapping
    ensures r == PropRecord(stats.playerBoxScoresTraditional, stats.currentSeason, key, id)
  {
    HitRateFacts.MappingUsesColumns();
    var market := MarketStatsMapping[key.market];
    var last5 := stats.CalculateLastNGamesHitRateStats(key.playerId, market, key.line, 5);
    var last10 := stats.CalculateLastNGamesHitRateStats(key.playerId, market, key.line, 10);
    var last20 := stats.CalculateLastNGamesHitRateStats(key.playerId, market, key.line, 20);
    var last30 := stats.CalculateLastNGamesHitRateStats(key.playerId, market, key.line, 30);
    var season := stats.CalculateSeasonHitRateStats(key.playerId, market, key.line);
    var h2h := stats.CalculateH2hHitRateStats(key.playerId, market, key.line, key.opponentTeamId);
    var hotStreak := stats.CalculateHotStreak(key.playerId, market, key.line);
    SeasonShape(stats.playerBoxScoresTraditional, stats.currentSeason, key.playerId, market, key.line);
    HeadToHeadShape(stats.playerBoxScoresTraditional, key.playerId, market, key.line, key.opponentTeamId);
    r := PlayerPropRecord(
      id, key.eventId, key.playerId, key.opponentTeamId, key.market, key.line, key.alternate,
      WindowRateOf(last5, 5), WindowRateOf(last10, 10), WindowRateOf(last20, 20), WindowRateOf(last30, 30),
      MatchupRateOf(season), MatchupRateOf(h2h),
      hotStreak);
  }

  /**
   * `_process_player_props`: the prop records, one per distinct key in the
   * order keys were first seen, the key at position i having id i; and the
   * odds records, one per accepted outcome, each carrying its key's id.
   */
  method ProcessPlayerProps(stats: NBAStatsAPIService, playerPropsJsonList: seq<seq<EventJson>>, lookups: Lookups)
    returns (playerProps: seq<PlayerPropRecord>, playerPropsOdds: seq<PlayerPropOdds>)
    requires ValidTable(stats.playerBoxScoresTraditional)
    requires ListsKnown(playerPropsJsonList, lookups)
    requires forall k | k in AcceptedKeys(ListOffers(playerPropsJsonList, lookups), lookups) :: k.market in MarketStatsMapping
    ensures var offers := ListOffers(playerPropsJsonList, lookups);
      var st := RunFrom(Init, offers, lookups);
      var keys := Dedup(AcceptedKeys(offers, lookups));
      && Covers(offers, lookups, st.propIds)
      && playerPropsOdds == OddsOf(offers, lookups, st.propIds)
      && (forall i | 0 <= i < |keys| :: keys[i] in st.propIds && st.propIds[keys[i]] == i)
      && |playerProps| == |keys|
      && (forall i | 0 <= i < |keys| :: keys[i].market in MarketStatsMapping &&
            playerProps[i] == PropRecord(stats.playerBoxScoresTraditional, stats.currentSeason, keys[i], i))
  {
    ghost var offers := ListOffers(playerPropsJsonList, lookups);
    var collected := CollectLists(playerPropsJsonList, lookups);
    RunConsistent(offers, lookups);
    RunOrder(offers, lookups);
    RunOdds(offers, lookups);
    playerProps := [];
    for i := 0 to |collected.keyOrder|
      invariant |playerProps| == i
      invariant forall j | 0 <= j < i ::
        collected.keyOrder[j].market in MarketStatsMapping && playerProps[j] == PropRecord(stats.playerBoxScoresTraditional, stats.currentSeason, collected.keyOrder[j], j)
    {
      var key := collected.keyOrder[i];
      var playerPropId := collected.propIds[key];
      assert key in AcceptedKeys(offers, lookups);
      var record := BuildRecord(stats, key, playerPropId);
      playerProps := playerProps + [record];
    }
    playerPropsOdds := collected.odds;
  }
}
