/**
 * What the hit-rate calculators promise, proved about their specification:
 * how a market's total is composed, that hits are strict and order-free,
 * and the shape of each calculator's result.
 */
module HitRateFacts {

  import opened Markets
  import opened BoxScores

  // ---------------------------------------------------------------------------
  // Sums and counts over concatenations and permutations

  lemma {:induction false} SumAppend(a: seq<real>, b: seq<real>)
    ensures Sum(a + b) == Sum(a) + Sum(b)
    decreases |b|
  {
    if |b| == 0 {
      assert a + b == a;
    } else {
      assert (a + b)[..|a + b| - 1] == a + b[..|b| - 1];
      SumAppend(a, b[..|b| - 1]);
    }
  }

  lemma {:induction false} CountAboveAppend(a: seq<real>, b: seq<real>, line: real)
    ensures CountAbove(a + b, line) == CountAbove(a, line) + CountAbove(b, line)
    decreases |b|
  {
    if |b| == 0 {
      assert a + b == a;
    } else {
      assert (a + b)[..|a + b| - 1] == a + b[..|b| - 1];
      CountAboveAppend(a, b[..|b| - 1], line);
    }
  }

  /** The last element of xs sits somewhere in any permutation ys; removing it there leaves a permutation of the rest. */
  lemma {:induction false} LastElementIn<T>(xs: seq<T>, ys: seq<T>) returns (j: nat)
    requires |xs| > 0 && multiset(xs) == multiset(ys)
    ensures j < |ys| && ys[j] == xs[|xs| - 1]
    ensures ys == ys[..j] + [ys[j]] + ys[j + 1..]
    ensures multiset(xs[..|xs| - 1]) == multiset(ys[..j] + ys[j + 1..])
  {
    var x := xs[|xs| - 1];
    assert xs == xs[..|xs| - 1] + [x];
    assert multiset(xs) == multiset(xs[..|xs| - 1]) + multiset{x};
    assert x in multiset(ys);
    j :| 0 <= j < |ys| && ys[j] == x;
    assert ys == ys[..j] + [x] + ys[j + 1..];
    calc {
      multiset(xs[..|xs| - 1]);
      multiset(xs) - multiset{x};
      multiset(ys) - multiset{x};
      { assert multiset(ys) == multiset(ys[..j]) + multiset(ys[j + 1..]) + multiset{x}; }
      multiset(ys[..j]) + multiset(ys[j + 1..]);
      multiset(ys[..j] + ys[j + 1..]);
    }
  }

  /** The mean does not depend on the order of the totals. */
  lemma {:induction false} SumPermutation(xs: seq<real>, ys: seq<real>)
    requires multiset(xs) == multiset(ys)
    ensures Sum(xs) == Sum(ys)
    decreases |xs|
  {
    if |xs| == 0 {
      assert |ys| == |multiset(ys)| == 0;
    } else {
      var x := xs[|xs| - 1];
      var front := xs[..|xs| - 1];
      assert xs == front + [x];
      var j := LastElementIn(xs, ys);
      var rest := ys[..j] + ys[j + 1..];
      SumPermutation(front, rest);
      SumAppend(ys[..j] + [x], ys[j + 1..]);
      SumAppend(ys[..j], [x]);
      SumAppend(ys[..j], ys[j + 1..]);
      assert Sum([x]) == Sum([]) + x;
    }
  }

  /** The hit count does not depend on the order of the totals. */
  lemma {:induction false} CountAbovePermutation(xs: seq<real>, ys: seq<real>, line: real)
    requires multiset(xs) == multiset(ys)
    ensures CountAbove(xs, line) == CountAbove(ys, line)
    decreases |xs|
  {
    if |xs| == 0 {
      assert |ys| == |multiset(ys)| == 0;
    } else {
      var x := xs[|xs| - 1];
      var front := xs[..|xs| - 1];
      assert xs == front + [x];
      var j := LastElementIn(xs, ys);
      var rest := ys[..j] + ys[j + 1..];
      CountAbovePermutation(front, rest, line);
      CountAboveAppend(ys[..j] + [x], ys[j + 1..], line);
      CountAboveAppend(ys[..j], [x], line);
      CountAboveAppend(ys[..j], ys[j + 1..], line);
      assert [x][..0] == [];
    }
  }

  lemma TotalsAppend(table: seq<BoxScore>, playerId: int, a: seq<BoxScore>, b: seq<BoxScore>, market: MarketStats)
    requires ValidTable(table) && ValidTable(a) && ValidTable(b) && UsesColumns(market)
    ensures ValidTable(a + b)
    ensures Totals(table, playerId, a + b, market) == Totals(table, playerId, a, market) + Totals(table, playerId, b, market)
  {
    assert forall i | 0 <= i < |a + b| :: (a + b)[i] == if i < |a| then a[i] else b[i - |a|];
  }

  lemma ValidParts(ys: seq<BoxScore>, j: nat)
    requires ValidTable(ys) && j < |ys|
    ensures ValidTable(ys[..j]) && ValidTable(ys[j + 1..]) && ValidTable([ys[j]]) && ValidRow(ys[j])
    ensures ValidTable(ys[..j] + ys[j + 1..])
  {
    assert forall i | 0 <= i < |ys[..j] + ys[j + 1..]| ::
      (ys[..j] + ys[j + 1..])[i] == if i < j then ys[i] else ys[i + 1];
  }

  /** Taking one game out of a list takes its total out of the list's totals. */
  lemma TotalsRemove(table: seq<BoxScore>, playerId: int, ys: seq<BoxScore>, j: nat, market: MarketStats)
    requires ValidTable(table) && ValidTable(ys) && UsesColumns(market) && j < |ys|
    ensures ValidTable(ys[..j] + ys[j + 1..]) && ValidRow(ys[j])
    ensures multiset(Totals(table, playerId, ys, market))
         == multiset(Totals(table, playerId, ys[..j] + ys[j + 1..], market))
            + multiset{GameTotal(table, playerId, ys[j], market)}
  {
    var left, right := ys[..j], ys[j + 1..];
    assert ys == left + [ys[j]] + right;
    ValidParts(ys, j);
    TotalsAppend(table, playerId, left + [ys[j]], right, market);
    TotalsAppend(table, playerId, left, [ys[j]], market);
    TotalsAppend(table, playerId, left, right, market);
  }

  /** Reordering the games reorders their totals. */
  lemma {:induction false} TotalsPermutation(table: seq<BoxScore>, playerId: int, xs: seq<BoxScore>, ys: seq<BoxScore>, market: MarketStats)
    requires ValidTable(table) && ValidTable(xs) && ValidTable(ys) && UsesColumns(market)
    requires multiset(xs) == multiset(ys)
    ensures multiset(Totals(table, playerId, xs, market)) == multiset(Totals(table, playerId, ys, market))
    decreases |xs|
  {
    if |xs| == 0 {
      assert |ys| == |multiset(ys)| == 0;
    } else {
      var front := xs[..|xs| - 1];
      var j := LastElementIn(xs, ys);
      TotalsRemove(table, playerId, ys, j, market);
      TotalsPermutation(table, playerId, front, ys[..j] + ys[j + 1..], market);
    }
  }

  /** Hits and mean over a set of games do not depend on the order the games are visited in. */
  lemma OverGamesOrderFree(table: seq<BoxScore>, playerId: int, market: MarketStats, line: real, xs: seq<BoxScore>, ys: seq<BoxScore>)
    requires ValidTable(table) && ValidTable(xs) && ValidTable(ys) && UsesColumns(market)
    requires multiset(xs) == multiset(ys)
    ensures OverGames(table, playerId, market, line, xs) == OverGames(table, playerId, market, line, ys)
  {
    assert |xs| == |multiset(xs)| == |multiset(ys)| == |ys|;
    if |xs| > 0 {
      var tx, ty := Totals(table, playerId, xs, market), Totals(table, playerId, ys, market);
      TotalsPermutation(table, playerId, xs, ys, market);
      SumPermutation(tx, ty);
      CountAbovePermutation(tx, ty, line);
    }
  }

  // ---------------------------------------------------------------------------
  // Hits are strict and are a count of positions

  /** A total equal to the line is not a hit. */
  lemma TieIsMiss(xs: seq<real>, line: real)
    ensures CountAbove(xs + [line], line) == CountAbove(xs, line)
  {
    assert (xs + [line])[..|xs|] == xs;
  }

  /** The positions whose total exceeds the line. */
  function HitPositions(xs: seq<real>, line: real): set<int> {
    set i | 0 <= i < |xs| && xs[i] > line
  }

  /** The hit count, defined independently: the number of positions whose total exceeds the line. */
  lemma {:induction false} CountAboveIsCardinality(xs: seq<real>, line: real)
    ensures CountAbove(xs, line) == |HitPositions(xs, line)|
    decreases |xs|
  {
    if |xs| == 0 {
      assert HitPositions(xs, line) == {};
    } else {
      var front := xs[..|xs| - 1];
      CountAboveIsCardinality(front, line);
      var before := HitPositions(front, line);
      var after := HitPositions(xs, line);
      if xs[|xs| - 1] > line {
        assert after == before + {|xs| - 1};
      } else {
        assert after == before;
      }
    }
  }

  // ---------------------------------------------------------------------------
  // A market's total for one game

  lemma {:induction false} StatSumAppend(row: BoxScore, a: seq<string>, b: seq<string>)
    requires forall s | 0 <= s < |a| :: a[s] in row.stats
    requires forall s | 0 <= s < |b| :: b[s] in row.stats
    ensures StatSum(row, a + b) == StatSum(row, a) + StatSum(row, b)
    decreases |b|
  {
    if |b| == 0 {
      assert a + b == a;
    } else {
      assert (a + b)[..|a + b| - 1] == a + b[..|b| - 1];
      StatSumAppend(row, a, b[..|b| - 1]);
    }
  }

  lemma PairTotalsAppend(table: seq<BoxScore>, playerId: int, game: BoxScore, m1: MarketStats, m2: MarketStats)
    requires ValidTable(table) && ValidRow(game) && UsesColumns(m1) && UsesColumns(m2)
    ensures UsesColumns(m1 + m2)
    ensures PairTotals(table, playerId, game, m1 + m2)
         == PairTotals(table, playerId, game, m1) + PairTotals(table, playerId, game, m2)
  {
    assert forall p | 0 <= p < |m1 + m2| :: (m1 + m2)[p] == if p < |m1| then m1[p] else m2[p - |m1|];
  }

  /** A market made of two lists of pairs totals the sum of their totals. */
  lemma GameTotalCombine(table: seq<BoxScore>, playerId: int, game: BoxScore, m1: MarketStats, m2: MarketStats)
    requires ValidTable(table) && ValidRow(game) && UsesColumns(m1) && UsesColumns(m2)
    ensures UsesColumns(m1 + m2)
    ensures GameTotal(table, playerId, game, m1 + m2)
         == GameTotal(table, playerId, game, m1) + GameTotal(table, playerId, game, m2)
  {
    PairTotalsAppend(table, playerId, game, m1, m2);
    SumAppend(PairTotals(table, playerId, game, m1), PairTotals(table, playerId, game, m2));
  }

  lemma ColumnsParts(m: MarketStats, j: nat)
    requires UsesColumns(m) && j < |m|
    ensures UsesColumns(m[..j]) && UsesColumns(m[j + 1..]) && UsesColumns([m[j]]) && KnownStats(m[j].1)
    ensures UsesColumns(m[..j] + m[j + 1..]) && UsesColumns(m[..|m| - 1])
  {
    assert forall p | 0 <= p < |m[..j] + m[j + 1..]| ::
      (m[..j] + m[j + 1..])[p] == if p < j then m[p] else m[p + 1];
  }

  /** Taking one pair out of a market takes its contribution out of the market's contributions. */
  lemma PairTotalsRemove(table: seq<BoxScore>, playerId: int, game: BoxScore, m: MarketStats, j: nat)
    requires ValidTable(table) && ValidRow(game) && UsesColumns(m) && j < |m|
    ensures UsesColumns(m[..j] + m[j + 1..]) && KnownStats(m[j].1)
    ensures multiset(PairTotals(table, playerId, game, m))
         == multiset(PairTotals(table, playerId, game, m[..j] + m[j + 1..]))
            + multiset{PairTotal(table, playerId, game, m[j])}
  {
    var left, right := m[..j], m[j + 1..];
    assert m == left + [m[j]] + right;
    ColumnsParts(m, j);
    PairTotalsAppend(table, playerId, game, left + [m[j]], right);
    PairTotalsAppend(table, playerId, game, left, [m[j]]);
    PairTotalsAppend(table, playerId, game, left, right);
  }

  /** Reordering a market's pairs reorders their contributions. */
  lemma {:induction false} PairTotalsPermutation(table: seq<BoxScore>, playerId: int, game: BoxScore, m1: MarketStats, m2: MarketStats)
    requires ValidTable(table) && ValidRow(game) && UsesColumns(m1) && UsesColumns(m2)
    requires multiset(m1) == multiset(m2)
    ensures multiset(PairTotals(table, playerId, game, m1)) == multiset(PairTotals(table, playerId, game, m2))
    decreases |m1|
  {
    if |m1| == 0 {
      assert |m2| == |multiset(m2)| == 0;
    } else {
      var front := m1[..|m1| - 1];
      var j := LastElementIn(m1, m2);
      ColumnsParts(m1, |m1| - 1);
      PairTotalsRemove(table, playerId, game, m1, |m1| - 1);
      PairTotalsRemove(table, playerId, game, m2, j);
      PairTotalsPermutation(table, playerId, game, front, m2[..j] + m2[j + 1..]);
    }
  }

  /** A market's total for a game does not depend on the order of its (period, stats) pairs. */
  lemma GameTotalPermutation(table: seq<BoxScore>, playerId: int, game: BoxScore, m1: MarketStats, m2: MarketStats)
    requires ValidTable(table) && ValidRow(game) && UsesColumns(m1) && UsesColumns(m2)
    requires multiset(m1) == multiset(m2)
    ensures GameTotal(table, playerId, game, m1) == GameTotal(table, playerId, game, m2)
  {
    PairTotalsPermutation(table, playerId, game, m1, m2);
    SumPermutation(PairTotals(table, playerId, game, m1), PairTotals(table, playerId, game, m2));
  }

  /** A market of one pair totals that pair's contribution. */
  lemma SinglePair(table: seq<BoxScore>, playerId: int, game: BoxScore, pair: PeriodStats)
    requires ValidTable(table) && ValidRow(game) && KnownStats(pair.1)
    ensures UsesColumns([pair])
    ensures GameTotal(table, playerId, game, [pair]) == PairTotal(table, playerId, game, pair)
  {
    var t := PairTotal(table, playerId, game, pair);
    assert PairTotals(table, playerId, game, [pair]) == [t];
    assert [t][..0] == [];
    assert Sum([t]) == Sum([]) + t;
  }

  /** A combined stat list on one period totals the sum of its parts (points + rebounds + assists). */
  lemma ComboTotal(table: seq<BoxScore>, playerId: int, game: BoxScore, period: int, a: seq<string>, b: seq<string>)
    requires ValidTable(table) && ValidRow(game) && KnownStats(a) && KnownStats(b)
    ensures KnownStats(a + b) && UsesColumns([(period, a)]) && UsesColumns([(period, b)])
    ensures UsesColumns([(period, a + b)])
    ensures GameTotal(table, playerId, game, [(period, a + b)])
         == GameTotal(table, playerId, game, [(period, a)]) + GameTotal(table, playerId, game, [(period, b)])
  {
    assert forall s | 0 <= s < |a + b| :: (a + b)[s] == if s < |a| then a[s] else b[s - |a|];
    SinglePair(table, playerId, game, (period, a + b));
    SinglePair(table, playerId, game, (period, a));
    SinglePair(table, playerId, game, (period, b));
    if period == 0 {
      StatSumAppend(game, a, b);
    } else {
      match FirstPeriodRow(table, playerId, game.gameId, period)
      case None =>
      case Some(i) => StatSumAppend(table[i], a, b);
    }
  }

  /** The points + rebounds + assists market totals the points, rebounds and assists markets of the same game. */
  lemma PointsReboundsAssistsTotal(table: seq<BoxScore>, playerId: int, game: BoxScore)
    requires ValidTable(table) && ValidRow(game)
    ensures "player_points_rebounds_assists" in MarketStatsMapping && UsesColumns(MarketStatsMapping["player_points_rebounds_assists"])
    ensures "player_points" in MarketStatsMapping && UsesColumns(MarketStatsMapping["player_points"])
    ensures "player_rebounds" in MarketStatsMapping && UsesColumns(MarketStatsMapping["player_rebounds"])
    ensures "player_assists" in MarketStatsMapping && UsesColumns(MarketStatsMapping["player_assists"])
    ensures GameTotal(table, playerId, game, MarketStatsMapping["player_points_rebounds_assists"])
         == GameTotal(table, playerId, game, MarketStatsMapping["player_points"])
            + GameTotal(table, playerId, game, MarketStatsMapping["player_rebounds"])
            + GameTotal(table, playerId, game, MarketStatsMapping["player_assists"])
  {
    var ra := ["rebounds"] + ["assists"];
    assert ["points", "rebounds", "assists"] == ["points"] + ra;
    assert MarketStatsMapping["player_points_rebounds_assists"] == [(0, ["points", "rebounds", "assists"])];
    assert MarketStatsMapping["player_points"] == [(0, ["points"])];
    assert MarketStatsMapping["player_rebounds"] == [(0, ["rebounds"])];
    assert MarketStatsMapping["player_assists"] == [(0, ["assists"])];
    ComboTotal(table, playerId, game, 0, ["points"], ra);
    ComboTotal(table, playerId, game, 0, ["rebounds"], ["assists"]);
  }

  /** A period for which the player has no row adds nothing to the total. */
  lemma MissingPeriodAddsNothing(table: seq<BoxScore>, playerId: int, game: BoxScore, market: MarketStats, pair: PeriodStats)
    requires ValidTable(table) && ValidRow(game) && UsesColumns(market) && KnownStats(pair.1)
    requires pair.0 != 0
    requires forall j | 0 <= j < |table| :: !IsPeriodRow(table[j], playerId, game.gameId, pair.0)
    ensures UsesColumns(market + [pair])
    ensures GameTotal(table, playerId, game, market + [pair]) == GameTotal(table, playerId, game, market)
  {
    SinglePair(table, playerId, game, pair);
    GameTotalCombine(table, playerId, game, market, [pair]);
  }

  /** The total of a full-game pair is the sum of the game row's own stats. */
  lemma FullGamePair(table: seq<BoxScore>, playerId: int, game: BoxScore, names: seq<string>)
    requires ValidTable(table) && ValidRow(game) && KnownStats(names)
    ensures UsesColumns([(0, names)])
    ensures GameTotal(table, playerId, game, [(0, names)]) == StatSum(game, names)
  {
    SinglePair(table, playerId, game, (0, names));
  }

  // ---------------------------------------------------------------------------
  // The calculators' results

  /** Head-to-head: visiting the games by date gives what visiting them in table order gives. */
  lemma HeadToHeadInTableOrder(table: seq<BoxScore>, playerId: int, market: MarketStats, line: real, opponentTeamId: int)
    requires ValidTable(table) && UsesColumns(market)
    ensures ValidTable(Select(table, playerId, Against(opponentTeamId)))
    ensures HeadToHead(table, playerId, market, line, opponentTeamId)
         == OverGames(table, playerId, market, line, Select(table, playerId, Against(opponentTeamId)))
  {
    var c := Against(opponentTeamId);
    SelectIsValid(table, playerId, c);
    GamesAreValid(table, playerId, c);
    OverGamesOrderFree(table, playerId, market, line, Games(table, playerId, c), Select(table, playerId, c));
  }

  /** Season: visiting the games by date gives what visiting them in table order gives. */
  lemma SeasonInTableOrder(table: seq<BoxScore>, season: string, playerId: int, market: MarketStats, line: real)
    requires ValidTable(table) && UsesColumns(market)
    ensures ValidTable(Select(table, playerId, InSeason(season)))
    ensures Season(table, season, playerId, market, line)
         == OverGames(table, playerId, market, line, Select(table, playerId, InSeason(season)))
  {
    var c := InSeason(season);
    SelectIsValid(table, playerId, c);
    GamesAreValid(table, playerId, c);
    OverGamesOrderFree(table, playerId, market, line, Games(table, playerId, c), Select(table, playerId, c));
  }

  /**
   * A filtered result counts the matching games; it is unknown exactly when
   * there are none; its hits never exceed its games and every counted game
   * matches the filter.
   */
  lemma OverGamesShape(table: seq<BoxScore>, playerId: int, market: MarketStats, line: real, c: Criterion)
    requires ValidTable(table) && UsesColumns(market)
    ensures ValidTable(Select(table, playerId, c))
    ensures var r := OverGames(table, playerId, market, line, Select(table, playerId, c));
      && r.games == |Select(table, playerId, c)|
      && (r.hits.None? <==> r.games == 0)
      && (r.average.None? <==> r.games == 0)
      && (r.games == 0 <==> forall i | 0 <= i < |table| :: !Selects(c, playerId, table[i]))
      && (r.hits.Some? ==> r.hits.value <= r.games)
  {
    SelectIsValid(table, playerId, c);
    var sel := Select(table, playerId, c);
    if |sel| > 0 {
      assert sel[0] in table;
    }
  }

  /** In a list sorted most recent first, a row more recent than one at position i comes before it. */
  lemma MoreRecentComesFirst(s: seq<BoxScore>, k: int, i: int)
    requires SortedByDateDesc(s) && 0 <= k < |s| && 0 <= i < |s| && s[k].gameDate > s[i].gameDate
    ensures k < i
  {
  }

  /** The first n rows of a list sorted most recent first hold every row more recent than one of them. */
  lemma WindowHoldsRecent(s: seq<BoxScore>, n: nat, g: BoxScore, w: BoxScore)
    requires SortedByDateDesc(s) && n <= |s| && g in s && w in s[..n] && g.gameDate > w.gameDate
    ensures g in s[..n]
  {
    var k :| 0 <= k < |s| && s[k] == g;
    var i :| 0 <= i < n && s[..n][i] == w;
    MoreRecentComesFirst(s, k, i);
    assert s[..n][k] == g;
  }

  lemma PrefixIsSubMultiset<T>(s: seq<T>, n: nat)
    requires n <= |s|
    ensures multiset(s[..n]) <= multiset(s)
  {
    assert s == s[..n] + s[n..];
  }

  /** The window is drawn from the rows. */
  lemma WindowFromRows(rows: seq<BoxScore>, n: nat)
    requires n <= |rows|
    ensures multiset(SortByDateDesc(rows)[..n]) <= multiset(rows)
  {
    PrefixIsSubMultiset(SortByDateDesc(rows), n);
  }

  /** The window holds every row more recent than one of its own. */
  lemma WindowIsMostRecent(rows: seq<BoxScore>, n: nat)
    requires n <= |rows|
    ensures var s := SortByDateDesc(rows);
      forall g, w | g in rows && w in s[..n] && g.gameDate > w.gameDate :: g in s[..n]
  {
    var s := SortByDateDesc(rows);
    forall g, w | g in rows && w in s[..n] && g.gameDate > w.gameDate
      ensures g in s[..n]
    {
      assert g in multiset(rows);
      WindowHoldsRecent(s, n, g, w);
    }
  }

  /**
   * Rolling window: unknown exactly when the player has fewer than n full
   * games; otherwise the hits are at most n, the average is the mean of n
   * totals, and the window holds the n most recent games: no game left out
   * is more recent than a game kept.
   */
  lemma LastNGamesShape(table: seq<BoxScore>, playerId: int, market: MarketStats, line: real, n: int)
    requires ValidTable(table) && UsesColumns(market) && n >= 1
    ensures var r := LastNGames(table, playerId, market, line, n);
      var all := Select(table, playerId, AllGames);
      && (r.hits.None? <==> |all| < n)
      && (r.average.None? <==> |all| < n)
      && (r.hits.Some? ==> r.hits.value <= n)
      && (|all| >= n ==>
           var window := Games(table, playerId, AllGames)[..n];
           && |window| == n
           && multiset(window) <= multiset(all)
           && (forall g, w | g in all && w in window && g.gameDate > w.gameDate :: g in window))
  {
    var all := Select(table, playerId, AllGames);
    if |all| >= n {
      WindowFromRows(all, n);
      WindowIsMostRecent(all, n);
    }
  }

  /** The run of leading hits is the one length h whose first h totals hit and whose next total, if any, misses. */
  lemma LeadingAboveUnique(xs: seq<real>, line: real, h: nat)
    requires h <= |xs|
    requires forall i | 0 <= i < h :: IsHit(xs[i], line)
    requires h < |xs| ==> !IsHit(xs[h], line)
    ensures LeadingAbove(xs, line) == h
  {
  }

  /**
   * Hot streak: unknown exactly when the player has no full games; otherwise
   * the count of consecutive hits starting from the most recent game, which
   * stops at the first miss.
   */
  lemma HotStreakShape(table: seq<BoxScore>, playerId: int, market: MarketStats, line: real)
    requires ValidTable(table) && UsesColumns(market)
    ensures ValidTable(Games(table, playerId, AllGames))
    ensures var r := HotStreak(table, playerId, market, line);
      var games := Games(table, playerId, AllGames);
      var totals := Totals(table, playerId, games, market);
      && (r.None? <==> |Select(table, playerId, AllGames)| == 0)
      && (r.Some? ==> r.value <= |games|)
      && (r.Some? ==> forall i | 0 <= i < r.value :: IsHit(totals[i], line))
      && (r.Some? && r.value < |games| ==> !IsHit(totals[r.value], line))
      && (r.Some? && |games| > 0 && !IsHit(totals[0], line) ==> r.value == 0)
      && (r.Some? && (forall i | 0 <= i < |games| :: IsHit(totals[i], line)) ==> r.value == |games|)
  {
    GamesAreValid(table, playerId, AllGames);
  }

  /** Every market of the definition table names only stat columns of the box-score table. */
  lemma MappingUsesColumns()
    ensures forall k | k in MarketStatsMapping :: UsesColumns(MarketStatsMapping[k])
  {
  }
}
