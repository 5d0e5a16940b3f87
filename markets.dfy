/**
 * The static market definition table (app/markets.py) and the list of player
 * prop markets requested from the odds provider.
 *
 * A market is an ordered list of (period, stat names) pairs; its total for a
 * game is the sum, over the pairs, of the named stats at that period.
 * Period 0 is the full game, 1 and 2 the first two quarters.
 */
module Markets {

  /** One (period, stat names) pair of a market definition. */
  type PeriodStats = (int, seq<string>)

  /** A market definition: the pairs whose stats are summed. */
  type MarketStats = seq<PeriodStats>

  /** MARKET_STATS_MAPPING: market key to its composition. */
  const MarketStatsMapping: map<string, MarketStats> := map[
    "player_points" := [(0, ["points"])],
    "player_points_q1" := [(1, ["points"])],
    "player_rebounds" := [(0, ["rebounds"])],
    "player_rebounds_q1" := [(1, ["rebounds"])],
    "player_assists" := [(0, ["assists"])],
    "player_assists_q1" := [(1, ["assists"])],
    "player_threes" := [(0, ["three_point_field_goals_made"])],
    "player_blocks" := [(0, ["blocks"])],
    "player_steals" := [(0, ["steals"])],
    "player_blocks_steals" := [(0, ["blocks", "steals"])],
    "player_turnovers" := [(0, ["turnovers"])],
    "player_points_rebounds_assists" := [(0, ["points", "rebounds", "assists"])],
    "player_points_rebounds" := [(0, ["points", "rebounds"])],
    "player_points_assists" := [(0, ["points", "assists"])],
    "player_rebounds_assists" := [(0, ["rebounds", "assists"])],
    "player_field_goals" := [(0, ["field_goals_made"])],
    "player_frees_made" := [(0, ["free_throws_made"])],
    "player_frees_attempts" := [(0, ["free_throws_attempted"])],
    "player_points_alternate" := [(0, ["points"])],
    "player_rebounds_alternate" := [(0, ["rebounds"])],
    "player_assists_alternate" := [(0, ["assists"])],
    "player_blocks_alternate" := [(0, ["blocks"])],
    "player_steals_alternate" := [(0, ["steals"])],
    "player_turnovers_alternate" := [(0, ["turnovers"])],
    "player_threes_alternate" := [(0, ["three_point_field_goals_made"])],
    "player_points_assists_alternate" := [(0, ["points", "assists"])],
    "player_points_rebounds_alternate" := [(0, ["points", "rebounds"])],
    "player_rebounds_assists_alternate" := [(0, ["rebounds", "assists"])],
    "player_points_rebounds_assists_alternate" := [(0, ["points", "rebounds", "assists"])],
    "1H Points" := [(1, ["points"]), (2, ["points"])],
    "1H Pts+Rebs+Asts" := [(1, ["points", "rebounds", "assists"]), (2, ["points", "rebounds", "assists"])],
    "1H Fantasy Score" := [(1, ["nba_fantasy_points"]), (2, ["nba_fantasy_points"])]
  ]

  /**
   * The player prop markets the odds client asks for, one entry per key of its
   * comma-separated PLAYER_PROP_MARKETS parameter.
   */
  const PlayerPropMarkets: seq<string> := [
    "player_points", "player_rebounds", "player_assists", "player_threes",
    "player_points_rebounds_assists", "player_points_rebounds", "player_points_assists",
    "player_rebounds_assists", "player_field_goals", "player_frees_made", "player_frees_attempts",
    "player_points_alternate", "player_rebounds_alternate", "player_assists_alternate",
    "player_threes_alternate", "player_points_assists_alternate", "player_points_rebounds_alternate",
    "player_rebounds_assists_alternate", "player_points_rebounds_assists_alternate"
  ]

  /** The first-quarter markets, keys ending in `_q1`. */
  const QuarterKeys: set<string> := {"player_points_q1", "player_rebounds_q1", "player_assists_q1"}

  /** The first-half markets, keys starting with `1H `. */
  const FirstHalfKeys: set<string> := {"1H Points", "1H Pts+Rebs+Asts", "1H Fantasy Score"}

  /** Each `_alternate` key paired with the key of its base market. */
  const AlternatePairs: seq<(string, string)> := [
    ("player_points_alternate", "player_points"),
    ("player_rebounds_alternate", "player_rebounds"),
    ("player_assists_alternate", "player_assists"),
    ("player_blocks_alternate", "player_blocks"),
    ("player_steals_alternate", "player_steals"),
    ("player_turnovers_alternate", "player_turnovers"),
    ("player_threes_alternate", "player_threes"),
    ("player_points_assists_alternate", "player_points_assists"),
    ("player_points_rebounds_alternate", "player_points_rebounds"),
    ("player_rebounds_assists_alternate", "player_rebounds_assists"),
    ("player_points_rebounds_assists_alternate", "player_points_rebounds_assists")
  ]

  const AlternateSuffix: string := "_alternate"
  const QuarterSuffix: string := "_q1"
  const FirstHalfPrefix: string := "1H "

  predicate EndsWith(s: string, suffix: string) {
    |suffix| <= |s| && s[|s| - |suffix|..] == suffix
  }

  predicate StartsWith(s: string, prefix: string) {
    |prefix| <= |s| && s[..|prefix|] == prefix
  }

  /** Every market has at least one pair, every pair names a stat, every period is 0, 1 or 2. */
  lemma MappingWellFormed()
    ensures forall k | k in MarketStatsMapping :: |MarketStatsMapping[k]| > 0
    ensures forall k, i | k in MarketStatsMapping && 0 <= i < |MarketStatsMapping[k]| ::
      |MarketStatsMapping[k][i].1| > 0 && 0 <= MarketStatsMapping[k][i].0 <= 2
  {
  }

  /** The `_q1` markets are a single pair at period 1. */
  lemma QuarterMarkets()
    ensures forall k | k in QuarterKeys ::
      k in MarketStatsMapping && EndsWith(k, QuarterSuffix)
      && |MarketStatsMapping[k]| == 1 && MarketStatsMapping[k][0].0 == 1
  {
    forall k | k in QuarterKeys
      ensures k in MarketStatsMapping && EndsWith(k, QuarterSuffix)
      ensures |MarketStatsMapping[k]| == 1 && MarketStatsMapping[k][0].0 == 1
    {
      if k == "player_points_q1" {
        assert MarketStatsMapping[k] == [(1, ["points"])];
      } else if k == "player_rebounds_q1" {
        assert MarketStatsMapping[k] == [(1, ["rebounds"])];
      } else {
        assert MarketStatsMapping[k] == [(1, ["assists"])];
      }
      assert k[|k| - 3..] == QuarterSuffix;
    }
  }

  /** Every other market outside the first-half ones is a single pair at period 0. */
  lemma FullGameMarkets()
    ensures forall k | k in MarketStatsMapping && k !in QuarterKeys && k !in FirstHalfKeys ::
      |MarketStatsMapping[k]| == 1 && MarketStatsMapping[k][0].0 == 0
  {
  }

  /** A first-half market sums periods 1 and 2 over one and the same stat list. */
  lemma FirstHalfMarkets()
    ensures forall k | k in FirstHalfKeys ::
      k in MarketStatsMapping && StartsWith(k, FirstHalfPrefix)
      && var m := MarketStatsMapping[k];
      |m| == 2 && m[0].0 == 1 && m[1].0 == 2 && m[0].1 == m[1].1
  {
  }

  /** An alternate key is its base key followed by `_alternate`. */
  lemma AlternateNames()
    ensures forall i | 0 <= i < |AlternatePairs| :: AlternatePairs[i].0 == AlternatePairs[i].1 + AlternateSuffix
  {
    AlternateNamesHead();
    AlternateNamesTail();
  }

  lemma AlternateNamesHead()
    ensures forall i | 0 <= i < 6 :: AlternatePairs[i].0 == AlternatePairs[i].1 + AlternateSuffix
  {
  }

  lemma AlternateNamesTail()
    ensures forall i | 6 <= i < |AlternatePairs| :: AlternatePairs[i].0 == AlternatePairs[i].1 + AlternateSuffix
  {
  }

  /** Every `*_alternate` market has exactly the composition of its base market. */
  lemma AlternateMarkets()
    ensures forall i | 0 <= i < |AlternatePairs| ::
      var (alt, base) := AlternatePairs[i];
      alt in MarketStatsMapping && base in MarketStatsMapping
      && MarketStatsMapping[alt] == MarketStatsMapping[base]
  {
    AlternateMarketsHead();
    AlternateMarketsTail();
  }

  lemma AlternateMarketsHead()
    ensures forall i | 0 <= i < 6 ::
      var (alt, base) := AlternatePairs[i];
      alt in MarketStatsMapping && base in MarketStatsMapping
      && MarketStatsMapping[alt] == MarketStatsMapping[base]
  {
  }

  lemma AlternateMarketsTail()
    ensures forall i | 6 <= i < |AlternatePairs| ::
      var (alt, base) := AlternatePairs[i];
      alt in MarketStatsMapping && base in MarketStatsMapping
      && MarketStatsMapping[alt] == MarketStatsMapping[base]
  {
  }

  /** The pairs list every `_alternate` market of the mapping, so the two lemmas above cover all of them. */
  lemma AlternateKeysListed()
    ensures forall k | k in MarketStatsMapping && EndsWith(k, AlternateSuffix) ::
      exists i | 0 <= i < |AlternatePairs| :: AlternatePairs[i].0 == k
  {
    forall k | k in MarketStatsMapping && EndsWith(k, AlternateSuffix)
      ensures exists i | 0 <= i < |AlternatePairs| :: AlternatePairs[i].0 == k
    {
      if k == AlternatePairs[0].0 {
        assert AlternatePairs[0].0 == k;
      } else if k == AlternatePairs[1].0 {
        assert AlternatePairs[1].0 == k;
      } else if k == AlternatePairs[2].0 {
        assert AlternatePairs[2].0 == k;
      } else if k == AlternatePairs[3].0 {
        assert AlternatePairs[3].0 == k;
      } else if k == AlternatePairs[4].0 {
        assert AlternatePairs[4].0 == k;
      } else if k == AlternatePairs[5].0 {
        assert AlternatePairs[5].0 == k;
      } else if k == AlternatePairs[6].0 {
        assert AlternatePairs[6].0 == k;
      } else if k == AlternatePairs[7].0 {
        assert AlternatePairs[7].0 == k;
      } else if k == AlternatePairs[8].0 {
        assert AlternatePairs[8].0 == k;
      } else if k == AlternatePairs[9].0 {
        assert AlternatePairs[9].0 == k;
      } else if k == AlternatePairs[10].0 {
        assert AlternatePairs[10].0 == k;
      } else {
        assert false;
      }
    }
  }

  /** Every market requested from the odds provider is a key of the mapping. */
  lemma RequestedMarketsAreMapped()
    ensures forall i | 0 <= i < |PlayerPropMarkets| :: PlayerPropMarkets[i] in MarketStatsMapping
  {
  }
}
