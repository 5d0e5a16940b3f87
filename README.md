# Hit-rate analytics of checkball-backend, in Dafny

This project models the analytics core of checkball-backend. The backend loads NBA box scores and odds-provider
data, then works out for each player prop how often the player's stat total has cleared the betting line. It models:

- **The market mapping** (`MARKET_STATS_MAPPING`). Each market maps to a list of (period, stat names) pairs. Period 0
  is the full game, periods 1 and 2 are quarters, and a first-half market adds quarters 1 and 2.
- **The four hit-rate calculators** of `NBAStatsAPIService`: last *n* games, head-to-head against an opponent,
  current season, and hot streak. They run over the service's in-memory box-score table
  (`player_box_scores_traditional`), where each row is one player, one game and one period. The game total for a
  market adds each pair's stats. Period 0 reads the game row itself. Any other period reads the first row of that
  period for the same game, and adds nothing when there is no such row. A game is a hit when its total is strictly
  above the line.
- **`_process_events`** of the odds service. It turns the provider's event JSON into event records and moneyline,
  spread and totals odds records.
- **`_process_player_props`** of the odds service. It turns the provider's player-prop JSON into one prop record
  per distinct key, filled by the calculators, and one odds record per accepted outcome. A key is (event, player,
  opponent, line, market, alternate).

The project is layered like the source:

- `BoxScores` holds the table and specifies each calculator as a function of the table.
- `NBAStats` holds the service class. Its methods keep the source's loops (the nested period and stat loops, the
  `break` of the hot streak) and are proved equal to those functions.
- `HitRateFacts` proves what the results mean.
- `OddsEvents` and `PlayerProps` keep the source's nested JSON loops as methods. Each level of the loop nest is a
  method, proved equal to a fold over the flattened JSON.
- `OddsEventsFacts`, the facts section of `PlayerProps`, and `PropRecords` prove what the folds produce.
- `Scenarios` holds worked examples.

Behaviour of the code worth knowing:

- **Comparison direction.** The calculators take no direction parameter; every one counts `total > line`. A prop
  key holds no outcome name, so "Over" and "Under" of one line share one prop record and give two odds records under
  its id. The model does the same (`PlayerProps.ResolveOpponent`, `PropRecords.ProcessPlayerProps`).
- **Sort order.** The head-to-head and season calculators sort by date before they iterate. The model sorts as well.
  It then proves that for those two calculators the order does not matter (`HitRateFacts.HeadToHeadInTableOrder`).

## Model

| member | source | states |
|---|---|---|
| Markets.MappingWellFormed | app/markets.py:3-41 | every market has at least one (period, stats) pair, every pair names at least one stat, and every period is 0, 1 or 2 |
| Markets.QuarterMarkets | app/markets.py:5-9 | the three `_q1` markets are one pair at period 1 |
| Markets.FullGameMarkets | app/markets.py:4-34 | every market other than the `_q1` and first-half ones is one full-game (period 0) pair |
| Markets.FirstHalfMarkets | app/markets.py:35-40 | each "1H" market adds periods 1 and 2 over the same stat list |
| Markets.AlternateNames | app/markets.py:22-34 | each listed `_alternate` key is its base key followed by `_alternate`; `AlternateKeysListed` shows the list holds every such key of the mapping |
| Markets.AlternateMarkets | app/markets.py:4-34 | each listed `_alternate` market has exactly the composition of its base market; by `AlternateKeysListed` that is every `_alternate` market |
| Markets.AlternateKeysListed | app/markets.py:22-34 | every key of the mapping that ends in `_alternate` is one of the listed alternate/base pairs |
| Markets.RequestedMarketsAreMapped | app/api_clients/the_odds_api_client.py:17 | every player-prop market requested from the odds provider is a key of the mapping, so the mapping lookup in `_process_player_props` cannot fail for them |
| BoxScores.FirstPeriodRow | app/services/nba_stats_api_service.py:1156-1166 | the index of the first row of that player, game and period; no row before it matches; None exactly when no row matches |
| BoxScores.CountAbove | app/services/nba_stats_api_service.py:1174-1175 | the number of totals strictly above the line, never more than the number of totals; `CountAboveIsCardinality` and `TieIsMiss` state what it counts |
| BoxScores.Mean | app/services/nba_stats_api_service.py:1177 | `mean(totals_list)`: the mean times the number of totals is their sum |
| BoxScores.LeadingAbove | app/services/nba_stats_api_service.py:1347-1378 | the length r of the run of hits at the front: the first r totals hit, and the next one, if any, misses |
| BoxScores.Select | app/services/nba_stats_api_service.py:1129-1132 | the mask keeps exactly the table's rows of that player at period 0 meeting the criterion (opponent or season) |
| BoxScores.SelectCounts | app/services/nba_stats_api_service.py:1201-1207 | the mask keeps each matching row exactly as often as the table holds it, and no other row |
| BoxScores.PairTotal | app/services/nba_stats_api_service.py:1150-1166 | specification of one pair's contribution to a game total, which `TotalForPair` computes; `FullGamePair` and `MissingPeriodAddsNothing` state its cases |
| BoxScores.GameTotal | app/services/nba_stats_api_service.py:1146-1166 | specification of a market's total for one game, which `TotalForGame` computes; `GameTotalCombine`, `GameTotalPermutation` and `ComboTotal` state how it is composed |
| BoxScores.LastNGames | app/services/nba_stats_api_service.py:1129-1177 | specification of the rolling-window result, which `CalculateLastNGamesHitRateStats` computes and `LastNGamesShape` describes |
| BoxScores.OverGames | app/services/nba_stats_api_service.py:1214-1247 | specification of games, hits and average over a list of games, described by `OverGamesShape` and `OverGamesOrderFree` |
| BoxScores.HeadToHead | app/services/nba_stats_api_service.py:1200-1247 | specification of the head-to-head result, which `CalculateH2hHitRateStats` computes and `HeadToHeadInTableOrder` describes |
| BoxScores.Season | app/services/nba_stats_api_service.py:1268-1317 | specification of the current-season result, which `CalculateSeasonHitRateStats` computes and `SeasonInTableOrder` describes |
| BoxScores.HotStreak | app/services/nba_stats_api_service.py:1337-1380 | specification of the hot streak, which `CalculateHotStreak` computes and `HotStreakShape` describes |
| BoxScores.SortByDateDesc | app/services/nba_stats_api_service.py:1135-1137 | `sort_values(by="game_date", ascending=False)`: dates never increase along the result, which is a permutation of the input |
| BoxScores.Games | app/services/nba_stats_api_service.py:1129-1137 | specification of the mask followed by the date sort, shared by the four calculators; `Select`, `SelectCounts` and `SortByDateDesc` state what it keeps and in what order |
| HitRateFacts.TieIsMiss | app/services/nba_stats_api_service.py:1174-1175 | a total equal to the line adds no hit |
| HitRateFacts.CountAboveIsCardinality | app/services/nba_stats_api_service.py:1143-1175 | the hit count is the number of games whose total is strictly above the line |
| HitRateFacts.OverGamesOrderFree | app/services/nba_stats_api_service.py:1214-1247 | hits and average over a list of games do not depend on the order the games are visited in |
| HitRateFacts.GameTotalCombine | app/services/nba_stats_api_service.py:1150-1166 | the total of a market made of two lists of pairs is the sum of their totals |
| HitRateFacts.GameTotalPermutation | app/services/nba_stats_api_service.py:1150-1166 | a market's total for a game does not depend on the order of its (period, stats) pairs |
| HitRateFacts.ComboTotal | app/markets.py:13-18 | a combined stat list (points + rebounds + assists, and so on) totals the sum of its parts |
| HitRateFacts.PointsReboundsAssistsTotal | app/markets.py:4-15 | the points + rebounds + assists market's total for a game is the points, rebounds and assists markets' totals added |
| HitRateFacts.MissingPeriodAddsNothing | app/services/nba_stats_api_service.py:1156-1166 | a quarter pair whose period row is missing adds nothing to the total |
| HitRateFacts.FullGamePair | app/services/nba_stats_api_service.py:1152-1154 | a period-0 pair totals the stats of the game row itself |
| HitRateFacts.HeadToHeadInTableOrder | app/services/nba_stats_api_service.py:1201-1208 | head-to-head over the date-sorted games equals head-to-head over the games in table order |
| HitRateFacts.SeasonInTableOrder | app/services/nba_stats_api_service.py:1269-1273 | season over the date-sorted games equals season over the games in table order |
| HitRateFacts.OverGamesShape | app/services/nba_stats_api_service.py:1210-1247 | games is the number of rows the mask keeps; hits and average are None exactly when it keeps none; hits never exceed games |
| HitRateFacts.LastNGamesShape | app/services/nba_stats_api_service.py:1129-1177 | None exactly when the player has fewer than n full games; otherwise the window is n of the player's games, and every game more recent than one in the window is in it; hits never exceed n |
| HitRateFacts.LeadingAboveUnique | app/services/nba_stats_api_service.py:1347-1378 | the streak is the one length whose totals all hit and whose next total misses |
| HitRateFacts.HotStreakShape | app/services/nba_stats_api_service.py:1320-1380 | None exactly when the player has no full games; the streak counts the leading hits, most recent first, stops at the first miss, is 0 when the latest game misses and counts every game when all hit |
| HitRateFacts.MappingUsesColumns | app/services/nba_stats_api_service.py:1004-1025 | every stat any market names is a column of the box-score table |
| NBAStats.SumStats | app/services/nba_stats_api_service.py:1152-1154 | the stat loop adds the named stats of one row |
| NBAStats.NBAStatsAPIService.constructor | app/services/nba_stats_api_service.py:191 | the service holds the loaded table and the current season "2024-25" |
| NBAStats.NBAStatsAPIService.TotalForPair | app/services/nba_stats_api_service.py:1150-1166 | one pair's contribution to a game total, as specified by `PairTotal` |
| NBAStats.NBAStatsAPIService.TotalForGame | app/services/nba_stats_api_service.py:1146-1166 | the loop over the market's pairs computes the game total |
| NBAStats.NBAStatsAPIService.HitsOver | app/services/nba_stats_api_service.py:1143-1175 | the loop over the games builds `totals_list` and counts the totals above the line |
| NBAStats.NBAStatsAPIService.CalculateLastNGamesHitRateStats | app/services/nba_stats_api_service.py:1113-1177 | computes the rolling-window result, whose meaning `LastNGamesShape` states |
| NBAStats.NBAStatsAPIService.CalculateH2hHitRateStats | app/services/nba_stats_api_service.py:1180-1247 | computes the head-to-head result, whose meaning `OverGamesShape` and `HeadToHeadInTableOrder` state |
| NBAStats.NBAStatsAPIService.CalculateSeasonHitRateStats | app/services/nba_stats_api_service.py:1250-1317 | computes the current-season result, whose meaning `OverGamesShape` and `SeasonInTableOrder` state |
| NBAStats.NBAStatsAPIService.CalculateHotStreak | app/services/nba_stats_api_service.py:1320-1380 | the loop with `break` computes the leading run of hits, whose meaning `HotStreakShape` states |
| OddsJson.LastNamed | app/services/the_odds_api_service.py:373-382 | the index of the last outcome with that name, since a later match overwrites the field; None exactly when no outcome has it |
| OddsEvents.AwayIndex | app/services/the_odds_api_service.py:376-382 | the away side is matched only when its name differs from the home team's, because the home test comes first and `continue`s; it is then the last outcome with the away name, and nothing is matched exactly when the names are equal or no outcome has the away name |
| OddsEvents.Moneyline | app/services/the_odds_api_service.py:368-384 | specification of the moneyline record, which `BuildMoneyline` builds and `MoneylineFields` describes |
| OddsEvents.Spread | app/services/the_odds_api_service.py:388-407 | specification of the spread record, which `BuildSpread` builds and `SpreadFields` describes |
| OddsEvents.Totals | app/services/the_odds_api_service.py:411-428 | specification of the totals record, which `BuildTotals` builds and `TotalsFields` describes |
| OddsEvents.EventRecord | app/services/the_odds_api_service.py:351-357 | specification of the event record: its id, start time, formatted start time and the two teams' ids; `EventsRecords` shows one per input event, in order |
| OddsEvents.MarketBatch | app/services/the_odds_api_service.py:367-429 | specification of one market's records: one moneyline, spread or totals record for "h2h", "spreads" or "totals", none otherwise, which `AddMarkets` builds and `MarketsRecords` counts |
| OddsEvents.BuildMoneyline | app/services/the_odds_api_service.py:368-385 | the outcome loop builds the moneyline record `MoneylineFields` describes |
| OddsEvents.BuildSpread | app/services/the_odds_api_service.py:388-408 | the outcome loop builds the spread record `SpreadFields` describes |
| OddsEvents.BuildTotals | app/services/the_odds_api_service.py:411-429 | the outcome loop builds the totals record `TotalsFields` describes |
| OddsEvents.AddMarkets | app/services/the_odds_api_service.py:364-429 | the market loop appends one record per "h2h", "spreads" or "totals" market and skips any other key |
| OddsEvents.AddBookmakers | app/services/the_odds_api_service.py:361-429 | the bookmaker loop appends every bookmaker's market records in order |
| OddsEvents.ProcessEvents | app/services/the_odds_api_service.py:325-436 | the four lists `_process_events` returns, proved equal to the fold `EventsBatch`, which `EventsRecords` describes |
| OddsEventsFacts.MoneylineFields | app/services/the_odds_api_service.py:368-384 | each side's odds are set exactly when some outcome names that side (the away side only when it differs from home), and are then the price of the last such outcome |
| OddsEventsFacts.SpreadFields | app/services/the_odds_api_service.py:388-407 | each side's line and odds are set together, exactly when some outcome names that side (the away side only when it differs from home), and both come from the last such outcome |
| OddsEventsFacts.TotalsFields | app/services/the_odds_api_service.py:411-428 | the line is the first outcome's point; Over and Under odds are set exactly when such an outcome exists, and are then the price of the last one |
| OddsEventsFacts.MarketsRecords | app/services/the_odds_api_service.py:364-429 | a bookmaker's markets give no event records, and exactly one odds record per market of each known key |
| OddsEventsFacts.BookmakersRecords | app/services/the_odds_api_service.py:361-429 | an event's bookmakers give no event records, and exactly one odds record per market of each known key |
| OddsEventsFacts.EventsRecords | app/services/the_odds_api_service.py:341-436 | one event record per input event, in order, and as many moneyline, spread and totals records as there are markets with that key |
| PlayerProps.HasInfix | app/services/the_odds_api_service.py:488 | `"alternate" in market_key`: true exactly when the word occurs somewhere in the key |
| PlayerProps.Resolve | app/services/the_odds_api_service.py:464-489 | specification of how one outcome becomes a key or is skipped, described by `ResolveOpponent` and `AlternateFlag` |
| PlayerProps.Step | app/services/the_odds_api_service.py:491-503 | specification of one collection step, which `CollectOutcomes` runs and `StepConsistent` describes |
| PlayerProps.CollectOutcomes | app/services/the_odds_api_service.py:458-503 | the outcome loop is one collection step per outcome |
| PlayerProps.CollectMarkets | app/services/the_odds_api_service.py:455-503 | the market loop runs the outcome loop for each market in order |
| PlayerProps.CollectBookmakers | app/services/the_odds_api_service.py:452-503 | the bookmaker loop runs the market loop for each bookmaker in order |
| PlayerProps.CollectEvents | app/services/the_odds_api_service.py:445-503 | the event loop looks up each event's teams and runs the bookmaker loop |
| PlayerProps.CollectLists | app/services/the_odds_api_service.py:441-503 | the whole first phase is the collection fold over every outcome, starting from the empty dictionary |
| PlayerProps.Dedup | app/services/the_odds_api_service.py:491-492 | the same keys as the input, without repeats; `DedupFirstSeen` states their order |
| PlayerProps.DedupFirstSeen | app/services/the_odds_api_service.py:491-492 | the distinct keys come in the order of their first occurrences: each key is seen before every occurrence of any later key |
| PlayerProps.StepConsistent | app/services/the_odds_api_service.py:491-503 | one step keeps the dictionary consistent: key i in insertion order has id i, and every odds record refers to an issued id |
| PlayerProps.RunConsistent | app/services/the_odds_api_service.py:441-503 | the first phase leaves the dictionary consistent |
| PlayerProps.RunOrder | app/services/the_odds_api_service.py:491-492 | the dictionary's insertion order is the accepted keys without repeats, and a key has an id exactly when some outcome resolved to it |
| PlayerProps.OddsOfExtend | app/services/the_odds_api_service.py:491-494 | ids once issued never change, so later keys do not alter earlier odds records |
| PlayerProps.RunOdds | app/services/the_odds_api_service.py:494-503 | one odds record per accepted outcome, in order, with its key's final id, bookmaker, outcome name and price |
| PlayerProps.DistinctKeysDistinctIds | app/services/the_odds_api_service.py:491-492 | distinct keys get distinct ids |
| PlayerProps.AlternateFlag | app/services/the_odds_api_service.py:482-489 | a key keeps its market and flags it alternate exactly when the market key contains "alternate" |
| PlayerProps.ResolveOpponent | app/services/the_odds_api_service.py:464-480 | an outcome is kept exactly when the name search gives one player whose team plays in the event; the opponent is then the other side |
| PropRecords.WindowHitRate | app/services/the_odds_api_service.py:571-590 | the window hit rate is known exactly when the hits are, times the window gives the hits, and lies in [0, 1] when the hits fit the window |
| PropRecords.GamesHitRate | app/services/the_odds_api_service.py:591-601 | the season or head-to-head hit rate is known exactly when the hits are, times the games gives the hits, and lies in [0, 1] when hits do not exceed games |
| PropRecords.WindowRateOf | app/services/the_odds_api_service.py:571-590 | specification of a window's hits, hit rate and average; `WindowRateBounds` states that its rate is well formed |
| PropRecords.MatchupRateOf | app/services/the_odds_api_service.py:591-601 | specification of season or head-to-head games, hits, hit rate and average; `MatchupRateBounds` states that its rate is well formed |
| PropRecords.SeasonShape | app/services/the_odds_api_service.py:593-595 | when season hits are known there is at least one season game, so `season_hits / season_games` is defined and at most 1 |
| PropRecords.HeadToHeadShape | app/services/the_odds_api_service.py:599-601 | when head-to-head hits are known there is at least one matchup, so the division is defined and at most 1 |
| PropRecords.PropRecord | app/services/the_odds_api_service.py:563-604 | specification of one key's record, which `BuildRecord` fills and `PropRecordShape` describes |
| PropRecords.WindowRateBounds | app/services/the_odds_api_service.py:571-590 | each window's hit rate is known exactly when its hits are, and is between 0 and 1 |
| PropRecords.MatchupRateBounds | app/services/the_odds_api_service.py:591-601 | a season or head-to-head rate whose hits come with games and never exceed them is known exactly when its hits are, and lies between 0 and 1 |
| PropRecords.PropRecordShape | app/services/the_odds_api_service.py:562-604 | a record repeats its key and id, and each of its six hit rates is known exactly when its hits are and lies between 0 and 1 |
| PropRecords.BuildRecord | app/services/the_odds_api_service.py:508-607 | the seven calculator calls fill the record of one key |
| PropRecords.ProcessPlayerProps | app/services/the_odds_api_service.py:439-612 | one prop record per distinct key, in first-seen order, the i-th having id i; one odds record per accepted outcome, carrying its key's id |
| Scenarios.LastFiveExample | app/services/nba_stats_api_service.py:1113-1177 | totals 30, 28, 22, 19, 25 against 24 over the last five games: 3 hits, average 24.8 |
| Scenarios.ShortHistoryExample | app/services/nba_stats_api_service.py:1139-1141 | three games and a window of ten: hits and average unknown |
| Scenarios.NoMatchupExample | app/services/nba_stats_api_service.py:1210-1212 | no game against the opponent: 0 games, hits and average unknown |
| Scenarios.HotStreakExample | app/services/nba_stats_api_service.py:1347-1378 | totals 31, 29, 27, 18 against 25, most recent first: a streak of 3 |

## Left out

- Database access is not part of this model: loading the box-score table, the ORM models and the bulk inserts. The
  table is the class field `playerBoxScoresTraditional`.
- The HTTP clients of the NBA stats and odds providers are not part of this model. Their JSON arrives as datatypes
  (`OddsJson`).
- Lookups into code outside the core are parameters: `get_team_id`, `get_player_ids` (including its
  fuzzy name matching), `get_player_team_id`, the event query for an event's teams, `strptime` and
  `_format_event_time`.
- Prop ids from `uuid.uuid4().hex` are modelled as a counter: the i-th new key gets id i. Only their freshness
  matters, and `PlayerProps.DistinctKeysDistinctIds` states it.
- Stats, lines and averages are exact reals. Float rounding and NaN are not modelled. `statistics.mean` is the exact
  quotient.
- The game date is an abstract integer key. The `"%m/%d/%Y"` string the table stores is not modelled, nor whether
  pandas compares it as a string. Games with equal dates keep their table order in the model, whereas pandas'
  default sort leaves tie order unspecified.
- BoxScores.LastNGames, NBAStats.NBAStatsAPIService.CalculateLastNGamesHitRateStats: require n >= 1. With n = 0 the
  source calls `mean([])`, which raises. The only callers pass 5, 10, 20 and 30.
- BoxScores.LastNGames, BoxScores.HeadToHead, BoxScores.Season, BoxScores.HotStreak, PropRecords.ProcessPlayerProps:
  an empty load builds a frame with no columns, on which the source's first `player_id` mask raises `KeyError`. The
  model treats it as a table with no matching games (None, or zero games). An unknown stat name also raises
  `KeyError` in the source; the model excludes it by `requires UsesColumns`, which every mapped market meets
  (`HitRateFacts.MappingUsesColumns`).
- OddsEvents.ProcessEvents: requires every "totals" market to have an outcome. The source reads
  `market["outcomes"][0]` and raises on an empty list.
- PlayerProps.CollectEvents, PropRecords.ProcessPlayerProps: require every event to be known to the event lookup.
  The source reads `event.home_team_id` on the query result and raises when there is none.
- PropRecords.ProcessPlayerProps: requires every accepted key's market to be in the mapping. The source indexes
  `MARKET_STATS_MAPPING[market_key]` and raises otherwise (`Markets.RequestedMarketsAreMapped` shows that the
  requested markets are in it).
- A missing JSON field raises `KeyError` in the source. The model's JSON datatypes always carry every field, so
  `point` is always present.
- The `print("Problem")` of the branch where the player's team is neither side of the event is dropped. The model
  only skips the outcome, as the source does next.
- The calculators' duplicated loop nests are factored into `TotalForGame`/`TotalForPair`/`SumStats` and `HitsOver`,
  and the odds loops into one method per nesting level. Order and values are unchanged.
- The stored prop record is a nested datatype (`WindowRate`, `MatchupRate`) instead of the flat dictionary of ORM
  columns. It holds the same values.
- The season type and playoff round chosen when box scores are downloaded are not modelled. The calculators see
  only the loaded table.
- The prizepicks service is not part of this model. It owns the "1H" market names, which are modelled as mapping
  entries only. It also calls the calculators with an extra "Over"/"Under" argument that the calculators in the
  core do not take.
