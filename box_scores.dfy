/**
 * The in-memory box-score table the hit-rate calculators read
 * (player_box_scores_traditional) and the specification of what they compute:
 * the total of a market for one game, the hit test, and the four results
 * (rolling window, head-to-head, season, hot streak) as functions of the table.
 *
 * Stat values are reals (points are whole numbers, fantasy points are not);
 * averages are exact quotients. The game date is an abstract ordered key.
 */
module BoxScores {

  import opened Wrappers
  import opened Markets

  /** One row of the table: one player, one game, one period (0 = full game). */
  datatype BoxScore = BoxScore(
    playerId: int,
    teamId: int,
    opponentTeamId: int,
    seasonYear: string,
    gameId: string,
    gameDate: int,
    period: int,
    stats: map<string, real>)

  /** The numeric stat columns every row of the frame carries. */
  const StatColumns: set<string> := {
    "field_goals_made", "field_goals_attempted", "field_goal_percentage",
    "three_point_field_goals_made", "three_point_field_goals_attempted",
    "three_point_field_goal_percentage", "free_throws_made", "free_throws_attempted",
    "free_throw_percentage", "offensive_rebounds", "defensive_rebounds", "rebounds",
    "assists", "steals", "blocks", "block_attempts", "turnovers", "personal_fouls",
    "personal_fouls_drawn", "points", "plus_minus", "nba_fantasy_points"
  }

  /** The season the season calculator filters on. */
  const CurrentSeason: string := "2024-25"

  predicate ValidRow(row: BoxScore) {
    StatColumns <= row.stats.Keys
  }

  /** Every row has every stat column, as in a data frame built from uniform records. */
  predicate ValidTable(rows: seq<BoxScore>) {
    forall i | 0 <= i < |rows| :: ValidRow(rows[i])
  }

  /** Every name in the list is a stat column. */
  predicate KnownStats(names: seq<string>) {
    forall s | 0 <= s < |names| :: names[s] in StatColumns
  }

  /** Every stat a market names is a column of the table. */
  predicate UsesColumns(market: MarketStats) {
    forall p | 0 <= p < |market| :: KnownStats(market[p].1)
  }

  // ---------------------------------------------------------------------------
  // Sums over sequences of reals

  function Sum(xs: seq<real>): real {
    if |xs| == 0 then 0.0 else Sum(xs[..|xs| - 1]) + xs[|xs| - 1]
  }

  /** `statistics.mean`: the arithmetic mean of a non-empty list. */
  function Mean(xs: seq<real>): (r: real)
    requires |xs| > 0
    ensures r * |xs| as real == Sum(xs)
  {
    Sum(xs) / |xs| as real
  }

  /** A game hits the line when its total strictly exceeds it; a tie is a miss. */
  predicate IsHit(total: real, line: real) {
    total > line
  }

  /** How many of the totals hit the line. */
  function CountAbove(xs: seq<real>, line: real): (r: nat)
    ensures r <= |xs|
  {
    if |xs| == 0 then 0
    else CountAbove(xs[..|xs| - 1], line) + (if IsHit(xs[|xs| - 1], line) then 1 else 0)
  }

  /** The length of the run of hits at the front of the totals. */
  function LeadingAbove(xs: seq<real>, line: real): (r: nat)
    ensures r <= |xs|
    ensures forall i | 0 <= i < r :: IsHit(xs[i], line)
    ensures r < |xs| ==> !IsHit(xs[r], line)
  {
    if |xs| == 0 || !IsHit(xs[0], line) then 0 else 1 + LeadingAbove(xs[1..], line)
  }

  // ---------------------------------------------------------------------------
  // Total for one game

  /** The sum of the named stats of one row. */
  function StatSum(row: BoxScore, names: seq<string>): real
    requires forall s | 0 <= s < |names| :: names[s] in row.stats
  {
    if |names| == 0 then 0.0
    else StatSum(row, names[..|names| - 1]) + row.stats[names[|names| - 1]]
  }

  predicate IsPeriodRow(row: BoxScore, playerId: int, gameId: string, period: int) {
    row.playerId == playerId && row.gameId == gameId && row.period == period
  }

  /**
   * The position of the first row of the same player, game and period:
   * `.iloc[0]` of the filtered frame, or None when the frame is empty.
   */
  function FirstPeriodRow(table: seq<BoxScore>, playerId: int, gameId: string, period: int): (r: Option<nat>)
    ensures r.Some? ==> r.value < |table| && IsPeriodRow(table[r.value], playerId, gameId, period)
    ensures r.Some? ==> forall j | 0 <= j < r.value :: !IsPeriodRow(table[j], playerId, gameId, period)
    ensures r.None? <==> forall j | 0 <= j < |table| :: !IsPeriodRow(table[j], playerId, gameId, period)
  {
    FirstPeriodRowFrom(table, playerId, gameId, period, 0)
  }

  function FirstPeriodRowFrom(table: seq<BoxScore>, playerId: int, gameId: string, period: int, from: nat): (r: Option<nat>)
    requires from <= |table|
    ensures r.Some? ==> from <= r.value < |table| && IsPeriodRow(table[r.value], playerId, gameId, period)
    ensures r.Some? ==> forall j | from <= j < r.value :: !IsPeriodRow(table[j], playerId, gameId, period)
    ensures r.None? <==> forall j | from <= j < |table| :: !IsPeriodRow(table[j], playerId, gameId, period)
    decreases |table| - from
  {
    if from == |table| then None
    else if IsPeriodRow(table[from], playerId, gameId, period) then Some(from)
    else FirstPeriodRowFrom(table, playerId, gameId, period, from + 1)
  }

  /**
   * What one (period, stats) pair adds to a game's total: the game row's own
   * stats for period 0, otherwise the stats of the same game's row for that
   * period, or nothing when the player has no such row.
   */
  function PairTotal(table: seq<BoxScore>, playerId: int, game: BoxScore, pair: PeriodStats): real
    requires ValidTable(table) && ValidRow(game) && KnownStats(pair.1)
  {
    if pair.0 == 0 then StatSum(game, pair.1)
    else match FirstPeriodRow(table, playerId, game.gameId, pair.0)
      case None => 0.0
      case Some(i) => StatSum(table[i], pair.1)
  }

  /** The contribution of each pair of a market, in the market's order. */
  function PairTotals(table: seq<BoxScore>, playerId: int, game: BoxScore, market: MarketStats): (r: seq<real>)
    requires ValidTable(table) && ValidRow(game) && UsesColumns(market)
    ensures |r| == |market|
    ensures forall p | 0 <= p < |market| :: r[p] == PairTotal(table, playerId, game, market[p])
  {
    if |market| == 0 then []
    else PairTotals(table, playerId, game, market[..|market| - 1])
         + [PairTotal(table, playerId, game, market[|market| - 1])]
  }

  /** The market's total for one game: the sum of its pairs' contributions. */
  function GameTotal(table: seq<BoxScore>, playerId: int, game: BoxScore, market: MarketStats): real
    requires ValidTable(table) && ValidRow(game) && UsesColumns(market)
  {
    Sum(PairTotals(table, playerId, game, market))
  }

  /** The totals of a list of games, in order (`totals_list`). */
  function Totals(table: seq<BoxScore>, playerId: int, games: seq<BoxScore>, market: MarketStats): (r: seq<real>)
    requires ValidTable(table) && ValidTable(games) && UsesColumns(market)
    ensures |r| == |games|
    ensures forall i | 0 <= i < |games| :: r[i] == GameTotal(table, playerId, games[i], market)
  {
    if |games| == 0 then []
    else Totals(table, playerId, games[..|games| - 1], market)
         + [GameTotal(table, playerId, games[|games| - 1], market)]
  }

  // ---------------------------------------------------------------------------
  // Selecting and ordering the games

  /** Which full-game rows a calculator looks at, besides the player. */
  datatype Criterion = AllGames | Against(opponentTeamId: int) | InSeason(seasonYear: string)

  /** The boolean mask of a calculator: the player's period-0 rows meeting the criterion. */
  predicate Selects(c: Criterion, playerId: int, row: BoxScore) {
    && row.playerId == playerId
    && row.period == 0
    && match c
       case AllGames => true
       case Against(opponent) => row.opponentTeamId == opponent
       case InSeason(season) => row.seasonYear == season
  }

  /** The rows the mask keeps, in table order. */
  function Select(table: seq<BoxScore>, playerId: int, c: Criterion): (r: seq<BoxScore>)
    ensures |r| <= |table|
    ensures forall i | 0 <= i < |r| :: r[i] in table && Selects(c, playerId, r[i])
    ensures forall i | 0 <= i < |table| && Selects(c, playerId, table[i]) :: table[i] in r
  {
    if |table| == 0 then []
    else
      var rest := Select(table[1..], playerId, c);
      assert forall i | 1 <= i < |table| :: table[i] == table[1..][i - 1];
      if Selects(c, playerId, table[0]) then [table[0]] + rest else rest
  }

  /** The mask keeps each matching row as often as the table holds it, and no other row. */
  lemma {:induction false} SelectCounts(table: seq<BoxScore>, playerId: int, c: Criterion)
    ensures forall x ::
      multiset(Select(table, playerId, c))[x] == if Selects(c, playerId, x) then multiset(table)[x] else 0
  {
    if |table| > 0 {
      SelectCounts(table[1..], playerId, c);
      assert table == [table[0]] + table[1..];
    }
  }

  predicate SortedByDateDesc(rows: seq<BoxScore>) {
    forall i, j | 0 <= i < j < |rows| :: rows[i].gameDate >= rows[j].gameDate
  }

  function InsertByDate(x: BoxScore, rows: seq<BoxScore>): (r: seq<BoxScore>)
    requires SortedByDateDesc(rows)
    ensures SortedByDateDesc(r)
    ensures multiset(r) == multiset(rows) + multiset{x}
  {
    if |rows| == 0 || rows[0].gameDate <= x.gameDate then [x] + rows
    else
      var rest := InsertByDate(x, rows[1..]);
      InsertBehindHead(x, rows, rest);
      [rows[0]] + rest
  }

  /** A row older than the head goes behind it: the head stays in front of the sorted rest. */
  lemma InsertBehindHead(x: BoxScore, rows: seq<BoxScore>, rest: seq<BoxScore>)
    requires SortedByDateDesc(rows) && |rows| > 0 && rows[0].gameDate > x.gameDate
    requires SortedByDateDesc(rest) && multiset(rest) == multiset(rows[1..]) + multiset{x}
    ensures SortedByDateDesc([rows[0]] + rest)
    ensures multiset([rows[0]] + rest) == multiset(rows) + multiset{x}
  {
    assert rows == [rows[0]] + rows[1..];
    forall k | 0 <= k < |rest| ensures rest[k].gameDate <= rows[0].gameDate {
      assert rest[k] in multiset(rest);
      if rest[k] != x {
        assert rest[k] in multiset(rows[1..]);
        var m :| 0 <= m < |rows[1..]| && rows[1..][m] == rest[k];
        assert rows[m + 1] == rest[k];
      }
    }
    var r := [rows[0]] + rest;
    forall i, j | 0 <= i < j < |r| ensures r[i].gameDate >= r[j].gameDate {
      if i > 0 {
        assert r[i] == rest[i - 1] && r[j] == rest[j - 1];
      } else {
        assert r[j] == rest[j - 1];
      }
    }
  }

  /**
   * `sort_values(by="game_date", ascending=False)`: most recent first. Rows
   * with equal dates keep their table order.
   */
  function SortByDateDesc(rows: seq<BoxScore>): (r: seq<BoxScore>)
    ensures SortedByDateDesc(r)
    ensures multiset(r) == multiset(rows)
    ensures |r| == |rows|
  {
    if |rows| == 0 then []
    else
      assert rows == [rows[0]] + rows[1..];
      InsertByDate(rows[0], SortByDateDesc(rows[1..]))
  }

  // ---------------------------------------------------------------------------
  // The four results

  /** The result of the rolling-window calculator; None is Python's None. */
  datatype WindowStats = WindowStats(hits: Option<nat>, average: Option<real>)

  /** The result of the head-to-head and season calculators. */
  datatype FilteredStats = FilteredStats(games: nat, hits: Option<nat>, average: Option<real>)

  /** A calculator's frame: the rows its mask keeps, most recent first. */
  function Games(table: seq<BoxScore>, playerId: int, c: Criterion): seq<BoxScore> {
    SortByDateDesc(Select(table, playerId, c))
  }

  /** Rolling window: hits and mean over the n most recent games, unknown with fewer than n. */
  function LastNGames(table: seq<BoxScore>, playerId: int, market: MarketStats, line: real, n: int): WindowStats
    requires ValidTable(table) && UsesColumns(market) && n >= 1
  {
    var recent := Games(table, playerId, AllGames);
    GamesAreValid(table, playerId, AllGames);
    if |recent| < n then WindowStats(None, None)
    else
      var totals := Totals(table, playerId, recent[..n], market);
      WindowStats(Some(CountAbove(totals, line)), Some(Mean(totals)))
  }

  /** Hits and mean over every given game; unknown when there is none. */
  function OverGames(table: seq<BoxScore>, playerId: int, market: MarketStats, line: real, games: seq<BoxScore>): FilteredStats
    requires ValidTable(table) && ValidTable(games) && UsesColumns(market)
  {
    if |games| == 0 then FilteredStats(0, None, None)
    else
      var totals := Totals(table, playerId, games, market);
      FilteredStats(|games|, Some(CountAbove(totals, line)), Some(Mean(totals)))
  }

  /** Head-to-head: every full-game row of the player against the opponent. */
  function HeadToHead(table: seq<BoxScore>, playerId: int, market: MarketStats, line: real, opponentTeamId: int): FilteredStats
    requires ValidTable(table) && UsesColumns(market)
  {
    GamesAreValid(table, playerId, Against(opponentTeamId));
    OverGames(table, playerId, market, line, Games(table, playerId, Against(opponentTeamId)))
  }

  /** Season: every full-game row of the player in the given season. */
  function Season(table: seq<BoxScore>, season: string, playerId: int, market: MarketStats, line: real): FilteredStats
    requires ValidTable(table) && UsesColumns(market)
  {
    GamesAreValid(table, playerId, InSeason(season));
    OverGames(table, playerId, market, line, Games(table, playerId, InSeason(season)))
  }

  /** Hot streak: leading hits, most recent game first; unknown with no games. */
  function HotStreak(table: seq<BoxScore>, playerId: int, market: MarketStats, line: real): Option<nat>
    requires ValidTable(table) && UsesColumns(market)
  {
    var recent := Games(table, playerId, AllGames);
    GamesAreValid(table, playerId, AllGames);
    if |recent| == 0 then None
    else Some(LeadingAbove(Totals(table, playerId, recent, market), line))
  }

  // ---------------------------------------------------------------------------
  // Validity of the selected rows

  lemma SelectIsValid(table: seq<BoxScore>, playerId: int, c: Criterion)
    requires ValidTable(table)
    ensures ValidTable(Select(table, playerId, c))
  {
    var r := Select(table, playerId, c);
    forall i | 0 <= i < |r| ensures ValidRow(r[i]) {
      var j :| 0 <= j < |table| && table[j] == r[i];
    }
  }

  lemma PermutationIsValid(rows: seq<BoxScore>, perm: seq<BoxScore>)
    requires ValidTable(rows) && multiset(perm) == multiset(rows)
    ensures ValidTable(perm)
  {
    forall i | 0 <= i < |perm| ensures ValidRow(perm[i]) {
      assert perm[i] in multiset(rows);
      var j :| 0 <= j < |rows| && rows[j] == perm[i];
    }
  }

  lemma GamesAreValid(table: seq<BoxScore>, playerId: int, c: Criterion)
    requires ValidTable(table)
    ensures ValidTable(Games(table, playerId, c))
  {
    SelectIsValid(table, playerId, c);
    PermutationIsValid(Select(table, playerId, c), Games(table, playerId, c));
  }
}
