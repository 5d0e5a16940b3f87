/**
 * Worked examples of the hit-rate calculators, over any box-score table whose
 * player's full games, most recent first, have the given market totals.
 */
module Scenarios {

  import opened Wrappers
  import opened Markets
  import opened BoxScores
  import HitRateFacts

  /** The totals of the five-game example: three clear 24, and they average 24.8. */
  lemma FiveTotals()
    ensures CountAbove([30.0, 28.0, 22.0, 19.0, 25.0], 24.0) == 3
    ensures Mean([30.0, 28.0, 22.0, 19.0, 25.0]) == 24.8
  {
    var t1, t2, t3, t4, t5 := [30.0], [30.0, 28.0], [30.0, 28.0, 22.0], [30.0, 28.0, 22.0, 19.0], [30.0, 28.0, 22.0, 19.0, 25.0];
    assert t1[..0] == [] && t2[..1] == t1 && t3[..2] == t2 && t4[..3] == t3 && t5[..4] == t4;
    assert Sum(t1) == 30.0 && CountAbove(t1, 24.0) == 1;
    assert Sum(t2) == 58.0 && CountAbove(t2, 24.0) == 2;
    assert Sum(t3) == 80.0 && CountAbove(t3, 24.0) == 2;
    assert Sum(t4) == 99.0 && CountAbove(t4, 24.0) == 2;
    assert Sum(t5) == 124.0 && CountAbove(t5, 24.0) == 3;
  }

  /** Five games totalling 30, 28, 22, 19 and 25 against a line of 24: three hits, average 24.8. */
  lemma LastFiveExample(table: seq<BoxScore>, playerId: int, market: MarketStats)
    requires ValidTable(table) && UsesColumns(market)
    requires ValidTable(Games(table, playerId, AllGames)) && |Games(table, playerId, AllGames)| == 5
    requires Totals(table, playerId, Games(table, playerId, AllGames), market) == [30.0, 28.0, 22.0, 19.0, 25.0]
    ensures LastNGames(table, playerId, market, 24.0, 5) == WindowStats(Some(3), Some(24.8))
  {
    var recent := Games(table, playerId, AllGames);
    assert recent[..5] == recent;
    FiveTotals();
  }

  /** Three games and a window of ten: hits and average are unknown. */
  lemma ShortHistoryExample(table: seq<BoxScore>, playerId: int, market: MarketStats, line: real)
    requires ValidTable(table) && UsesColumns(market)
    requires |Games(table, playerId, AllGames)| == 3
    ensures LastNGames(table, playerId, market, line, 10) == WindowStats(None, None)
  {
  }

  /** No game against the opponent: zero games and unknown hits and average. */
  lemma NoMatchupExample(table: seq<BoxScore>, playerId: int, market: MarketStats, line: real, opponentTeamId: int)
    requires ValidTable(table) && UsesColumns(market)
    requires forall row | row in table :: !Selects(Against(opponentTeamId), playerId, row)
    ensures HeadToHead(table, playerId, market, line, opponentTeamId) == FilteredStats(0, None, None)
  {
    HitRateFacts.HeadToHeadInTableOrder(table, playerId, market, line, opponentTeamId);
    HitRateFacts.OverGamesShape(table, playerId, market, line, Against(opponentTeamId));
  }

  /** Totals 31, 29, 27 and 18, most recent first, against 25: a streak of three, ended by the 18. */
  lemma HotStreakExample(table: seq<BoxScore>, playerId: int, market: MarketStats)
    requires ValidTable(table) && UsesColumns(market) && ValidTable(Games(table, playerId, AllGames))
    requires Totals(table, playerId, Games(table, playerId, AllGames), market) == [31.0, 29.0, 27.0, 18.0]
    ensures HotStreak(table, playerId, market, 25.0) == Some(3)
  {
    var totals := [31.0, 29.0, 27.0, 18.0];
    assert |Games(table, playerId, AllGames)| == 4;
    assert totals[1..] == [29.0, 27.0, 18.0];
    assert totals[1..][1..] == [27.0, 18.0];
    assert totals[1..][1..][1..] == [18.0];
  }
}
