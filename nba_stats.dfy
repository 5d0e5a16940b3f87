/**
 * The NBA stats service's hit-rate calculators over its box-score frame.
 * Each calculator walks the selected games in date order, totals the market
 * for each game and counts the totals that clear the line; each is proved to
 * compute the corresponding function of module BoxScores.
 */
module NBAStats {

  import opened Wrappers
  import opened Markets
  import opened BoxScores
  import HitRateFacts

  /** Adds up the named stats of one row, in order. */
  method SumStats(row: BoxScore, stats: seq<string>) returns (total: real)
    requires forall s | 0 <= s < |stats| :: stats[s] in row.stats
    ensures total == StatSum(row, stats)
  {
    total := 0.0;
    for s := 0 to |stats|
      invariant total == StatSum(row, stats[..s])
    {
      assert stats[..s + 1][..s] == stats[..s];
      total := total + row.stats[stats[s]];
    }
    assert stats[..|stats|] == stats;
  }

  class NBAStatsAPIService {

    /** One row per player, game and period (period 0 = the full game). */
    var playerBoxScoresTraditional: seq<BoxScore>

    /** The season the season calculator looks at. */
    var currentSeason: string

    /** The service after its frame has been loaded with the given rows. */
    constructor(rows: seq<BoxScore>)
      ensures playerBoxScoresTraditional == rows
      ensures currentSeason == CurrentSeason
    {
      playerBoxScoresTraditional := rows;
      currentSeason := CurrentSeason;
    }

    /**
     * One pair's contribution to a game's total: the full-game pair adds the
     * game row's stats; another pair adds the stats of the first row of that
     * period of the same game, or nothing when the player has no such row.
     */
    method TotalForPair(playerId: int, game: BoxScore, pair: PeriodStats) returns (total: real)
      requires ValidTable(playerBoxScoresTraditional) && ValidRow(game) && KnownStats(pair.1)
      ensures total == PairTotal(playerBoxScoresTraditional, playerId, game, pair)
    {
      var table := playerBoxScoresTraditional;
      var period, stats := pair.0, pair.1;
      total := 0.0;
      if period == 0 {
        total := SumStats(game, stats);
      } else {
        var found := FirstPeriodRow(table, playerId, game.gameId, period);
        if found.Some? {
          total := SumStats(table[found.value], stats);
        }
      }
    }

    /** The market's total for one game: the sum of its pairs' contributions. */
    method TotalForGame(playerId: int, game: BoxScore, market: MarketStats) returns (total: real)
      requires ValidTable(playerBoxScoresTraditional) && ValidRow(game) && UsesColumns(market)
      ensures total == GameTotal(playerBoxScoresTraditional, playerId, game, market)
    {
      total := 0.0;
      for p := 0 to |market|
        invariant total == Sum(PairTotals(playerBoxScoresTraditional, playerId, game, market[..p]))
      {
        var contribution := TotalForPair(playerId, game, market[p]);
        assert market[..p + 1][..p] == market[..p];
        var contributions := PairTotals(playerBoxScoresTraditional, playerId, game, market[..p]);
        assert (contributions + [contribution])[..p] == contributions;
        total := total + contribution;
      }
      assert market[..|market|] == market;
    }

    /** Totals every game in order and counts the totals above the line. */
    method HitsOver(playerId: int, games: seq<BoxScore>, market: MarketStats, line: real)
      returns (hits: nat, totalsList: seq<real>)
      requires ValidTable(playerBoxScoresTraditional) && ValidTable(games) && UsesColumns(market)
      ensures totalsList == Totals(playerBoxScoresTraditional, playerId, games, market)
      ensures hits == CountAbove(totalsList, line)
    {
      hits, totalsList := 0, [];
      for i := 0 to |games|
        invariant totalsList == Totals(playerBoxScoresTraditional, playerId, games[..i], market)
        invariant hits == CountAbove(totalsList, line)
      {
        var total := TotalForGame(playerId, games[i], market);
        assert games[..i + 1][..i] == games[..i];
        assert (totalsList + [total])[..i] == totalsList;
        totalsList := totalsList + [total];
        if total > line {
          hits := hits + 1;
        }
      }
      assert games[..|games|] == games;
    }

    /**
     * Hits and average over the player's n most recent full games; unknown
     * when the player has fewer than n.
     */
    method CalculateLastNGamesHitRateStats(playerId: int, market: MarketStats, line: real, n: int)
      returns (r: WindowStats)
      requires ValidTable(playerBoxScoresTraditional) && UsesColumns(market) && n >= 1
      ensures r == LastNGames(playerBoxScoresTraditional, playerId, market, line, n)
    {
      var playerGames := Games(playerBoxScoresTraditional, playerId, AllGames);
      GamesAreValid(playerBoxScoresTraditional, playerId, AllGames);
      var window := if |playerGames| < n then playerGames else playerGames[..n];
      if |window| < n {
        return WindowStats(None, None);
      }
      var hits, totalsList := HitsOver(playerId, window, market, line);
      return WindowStats(Some(hits), Some(Mean(totalsList)));
    }

    /** Games, hits and average over the player's full games against the opponent. */
    method CalculateH2hHitRateStats(playerId: int, market: MarketStats, line: real, opponentTeamId: int)
      returns (r: FilteredStats)
      requires ValidTable(playerBoxScoresTraditional) && UsesColumns(market)
      ensures r == HeadToHead(playerBoxScoresTraditional, playerId, market, line, opponentTeamId)
    {
      var h2hGames := Games(playerBoxScoresTraditional, playerId, Against(opponentTeamId));
      GamesAreValid(playerBoxScoresTraditional, playerId, Against(opponentTeamId));
      if |h2hGames| == 0 {
        return FilteredStats(0, None, None);
      }
      var hits, totalsList := HitsOver(playerId, h2hGames, market, line);
      return FilteredStats(|h2hGames|, Some(hits), Some(Mean(totalsList)));
    }

    /** Games, hits and average over the player's full games of the current season. */
    method CalculateSeasonHitRateStats(playerId: int, market: MarketStats, line: real)
      returns (r: FilteredStats)
      requires ValidTable(playerBoxScoresTraditional) && UsesColumns(market)
      ensures r == Season(playerBoxScoresTraditional, currentSeason, playerId, market, line)
    {
      var seasonGames := Games(playerBoxScoresTraditional, playerId, InSeason(currentSeason));
      GamesAreValid(playerBoxScoresTraditional, playerId, InSeason(currentSeason));
      if |seasonGames| == 0 {
        return FilteredStats(0, None, None);
      }
      var hits, totalsList := HitsOver(playerId, seasonGames, market, line);
      return FilteredStats(|seasonGames|, Some(hits), Some(Mean(totalsList)));
    }

    /**
     * The number of consecutive games, from the most recent, whose total
     * clears the line; unknown when the player has no full games.
     */
    method CalculateHotStreak(playerId: int, market: MarketStats, line: real) returns (r: Option<nat>)
      requires ValidTable(playerBoxScoresTraditional) && UsesColumns(market)
      ensures r == HotStreak(playerBoxScoresTraditional, playerId, market, line)
    {
      var games := Games(playerBoxScoresTraditional, playerId, AllGames);
      GamesAreValid(playerBoxScoresTraditional, playerId, AllGames);
      if |games| == 0 {
        return None;
      }
      ghost var totals := Totals(playerBoxScoresTraditional, playerId, games, market);
      var hotStreak: nat := 0;
      while hotStreak < |games|
        invariant hotStreak <= |games|
        invariant forall j | 0 <= j < hotStreak :: IsHit(totals[j], line)
      {
        var total := TotalForGame(playerId, games[hotStreak], market);
        if total > line {
          hotStreak := hotStreak + 1;
        } else {
          break;
        }
      }
      HitRateFacts.LeadingAboveUnique(totals, line, hotStreak);
      return Some(hotStreak);
    }
  }
}
