/**
 * What splitting the event JSON promises: one event record per input event,
 * one odds record per "h2h", "spreads" or "totals" market and none for other
 * keys, and each record's fields taken from the outcomes the way the loop
 * takes them (the last outcome named after a side wins).
 */
module OddsEventsFacts {

  import opened OddsJson
  import opened OddsEvents

  // ---------------------------------------------------------------------------
  // Record fields

  /**
   * Moneyline: a side's odds are set exactly when some outcome names that side
   * (for the away side, only when its name differs from the home team's), and
   * they are the price of the last such outcome.
   */
  lemma MoneylineFields(eventId: string, bookmakerKey: string, home: string, away: string, outcomes: seq<OutcomeJson>)
    ensures var r := Moneyline(eventId, bookmakerKey, home, away, outcomes);
      && r.eventId == eventId && r.bookmakerKey == bookmakerKey
      && (r.homeTeamOdds.Some? <==> exists i | 0 <= i < |outcomes| :: outcomes[i].name == home)
      && (r.homeTeamOdds.Some? ==> exists i | 0 <= i < |outcomes| ::
            && outcomes[i].name == home && r.homeTeamOdds.value == outcomes[i].price
            && forall j | i < j < |outcomes| :: outcomes[j].name != home)
      && (r.awayTeamOdds.Some? <==> away != home && exists i | 0 <= i < |outcomes| :: outcomes[i].name == away)
      && (r.awayTeamOdds.Some? ==> exists i | 0 <= i < |outcomes| ::
            && outcomes[i].name == away && r.awayTeamOdds.value == outcomes[i].price
            && forall j | i < j < |outcomes| :: outcomes[j].name != away)
  {
    var h := LastNamed(outcomes, home);
    var a := AwayIndex(outcomes, home, away);
    if h.Some? {
      assert outcomes[h.value].name == home;
    }
    if a.Some? {
      assert outcomes[a.value].name == away;
    }
  }

  /** Spread: each side's line and odds come from the same outcome, the last one naming that side. */
  lemma SpreadFields(eventId: string, bookmakerKey: string, home: string, away: string, outcomes: seq<OutcomeJson>)
    ensures var r := Spread(eventId, bookmakerKey, home, away, outcomes);
      && r.eventId == eventId && r.bookmakerKey == bookmakerKey
      && (r.homeTeamLine.Some? <==> r.homeTeamOdds.Some?)
      && (r.awayTeamLine.Some? <==> r.awayTeamOdds.Some?)
      && (r.homeTeamOdds.Some? <==> exists i | 0 <= i < |outcomes| :: outcomes[i].name == home)
      && (r.homeTeamOdds.Some? ==> exists i | 0 <= i < |outcomes| ::
            && outcomes[i].name == home
            && r.homeTeamOdds.value == outcomes[i].price && r.homeTeamLine.value == outcomes[i].point
            && forall j | i < j < |outcomes| :: outcomes[j].name != home)
      && (r.awayTeamOdds.Some? <==> away != home && exists i | 0 <= i < |outcomes| :: outcomes[i].name == away)
      && (r.awayTeamOdds.Some? ==> exists i | 0 <= i < |outcomes| ::
            && outcomes[i].name == away
            && r.awayTeamOdds.value == outcomes[i].price && r.awayTeamLine.value == outcomes[i].point
            && forall j | i < j < |outcomes| :: outcomes[j].name != away)
  {
    var h := LastNamed(outcomes, home);
    var a := AwayIndex(outcomes, home, away);
    if h.Some? {
      assert outcomes[h.value].name == home;
    }
    if a.Some? {
      assert outcomes[a.value].name == away;
    }
  }

  /** Totals: the line is the first outcome's point; "Over" and "Under" take the price of the last outcome so named. */
  lemma TotalsFields(eventId: string, bookmakerKey: string, outcomes: seq<OutcomeJson>)
    requires |outcomes| > 0
    ensures var r := Totals(eventId, bookmakerKey, outcomes);
      && r.eventId == eventId && r.bookmakerKey == bookmakerKey
      && r.line == outcomes[0].point
      && (r.overOdds.Some? <==> exists i | 0 <= i < |outcomes| :: outcomes[i].name == OverName)
      && (r.overOdds.Some? ==> exists i | 0 <= i < |outcomes| ::
            && outcomes[i].name == OverName && r.overOdds.value == outcomes[i].price
            && forall j | i < j < |outcomes| :: outcomes[j].name != OverName)
      && (r.underOdds.Some? <==> exists i | 0 <= i < |outcomes| :: outcomes[i].name == UnderName)
      && (r.underOdds.Some? ==> exists i | 0 <= i < |outcomes| ::
            && outcomes[i].name == UnderName && r.underOdds.value == outcomes[i].price
            && forall j | i < j < |outcomes| :: outcomes[j].name != UnderName)
  {
    var o := LastNamed(outcomes, OverName);
    var u := LastNamed(outcomes, UnderName);
    if o.Some? {
      assert outcomes[o.value].name == OverName;
    }
    if u.Some? {
      assert outcomes[u.value].name == UnderName;
    }
  }

  // ---------------------------------------------------------------------------
  // How many records of each kind

  /** How many of the markets carry the key. */
  function MarketsWithKey(markets: seq<MarketJson>, key: string): nat {
    if |markets| == 0 then 0
    else MarketsWithKey(markets[..|markets| - 1], key) + (if markets[|markets| - 1].key == key then 1 else 0)
  }

  function BookmakersWithKey(bookmakers: seq<BookmakerJson>, key: string): nat {
    if |bookmakers| == 0 then 0
    else BookmakersWithKey(bookmakers[..|bookmakers| - 1], key) + MarketsWithKey(bookmakers[|bookmakers| - 1].markets, key)
  }

  /** How many bookmaker markets of all the events carry the key. */
  function EventsWithKey(events: seq<EventJson>, key: string): nat {
    if |events| == 0 then 0
    else EventsWithKey(events[..|events| - 1], key) + BookmakersWithKey(events[|events| - 1].bookmakers, key)
  }

  /** The number of records a batch holds for a market key; other keys have no records. */
  function RecordsForKey(b: Batch, key: string): nat {
    if key == MoneylineKey then |b.moneylines|
    else if key == SpreadsKey then |b.spreads|
    else if key == TotalsKey then |b.totals|
    else 0
  }

  predicate KnownKey(key: string) {
    key == MoneylineKey || key == SpreadsKey || key == TotalsKey
  }

  lemma {:induction false} MarketsRecords(e: EventJson, bookmakerKey: string, markets: seq<MarketJson>, key: string)
    requires MarketsPriced(markets) && KnownKey(key)
    ensures MarketsBatch(e, bookmakerKey, markets).events == []
    ensures RecordsForKey(MarketsBatch(e, bookmakerKey, markets), key) == MarketsWithKey(markets, key)
    decreases |markets|
  {
    if |markets| > 0 {
      assert markets[..|markets| - 1] <= markets;
      MarketsRecords(e, bookmakerKey, markets[..|markets| - 1], key);
    }
  }

  lemma {:induction false} BookmakersRecords(e: EventJson, bookmakers: seq<BookmakerJson>, key: string)
    requires BookmakersPriced(bookmakers) && KnownKey(key)
    ensures BookmakersBatch(e, bookmakers).events == []
    ensures RecordsForKey(BookmakersBatch(e, bookmakers), key) == BookmakersWithKey(bookmakers, key)
    decreases |bookmakers|
  {
    if |bookmakers| > 0 {
      var b := bookmakers[|bookmakers| - 1];
      assert bookmakers[..|bookmakers| - 1] <= bookmakers;
      assert b in bookmakers;
      BookmakersRecords(e, bookmakers[..|bookmakers| - 1], key);
      MarketsRecords(e, b.key, b.markets, key);
    }
  }

  /**
   * `_process_events` emits exactly one event record per input event, in
   * order, and for each of "h2h", "spreads" and "totals" exactly as many odds
   * records as there are bookmaker markets with that key.
   */
  lemma {:induction false} EventsRecords(events: seq<EventJson>, teamId: string -> int, parseTime: string -> int, formatTime: int -> string, key: string)
    requires EventsPriced(events) && KnownKey(key)
    ensures var b := EventsBatch(events, teamId, parseTime, formatTime);
      && |b.events| == |events|
      && (forall i | 0 <= i < |events| :: b.events[i] == EventRecord(events[i], teamId, parseTime, formatTime))
      && RecordsForKey(b, key) == EventsWithKey(events, key)
    decreases |events|
  {
    if |events| > 0 {
      var e := events[|events| - 1];
      assert events[..|events| - 1] <= events;
      assert e in events;
      EventsRecords(events[..|events| - 1], teamId, parseTime, formatTime, key);
      BookmakersRecords(e, e.bookmakers, key);
    }
  }
}
