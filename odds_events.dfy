/**
 * Splitting the provider's event JSON into the records the odds service
 * stores: one event per input event, and per bookmaker market one moneyline
 * ("h2h"), spread ("spreads") or totals ("totals") record; markets with any
 * other key are ignored.
 *
 * Team lookup by name, parsing of the commence time and its display
 * formatting are calls into code outside this model and are parameters.
 */
module OddsEvents {

  import opened Wrappers
  import opened OddsJson

  const MoneylineKey: string := "h2h"
  const SpreadsKey: string := "spreads"
  const TotalsKey: string := "totals"
  const OverName: string := "Over"
  const UnderName: string := "Under"

  datatype Event = Event(id: string, startTime: int, formattedStartTime: string, homeTeamId: int, awayTeamId: int)

  /** A field the loop never set is None (the key is absent from the Python dict). */
  datatype MoneylineOdds = MoneylineOdds(
    eventId: string, bookmakerKey: string, homeTeamOdds: Option<int>, awayTeamOdds: Option<int>)

  datatype SpreadOdds = SpreadOdds(
    eventId: string, bookmakerKey: string,
    homeTeamLine: Option<real>, homeTeamOdds: Option<int>,
    awayTeamLine: Option<real>, awayTeamOdds: Option<int>)

  datatype TotalsOdds = TotalsOdds(
    eventId: string, bookmakerKey: string, line: real, overOdds: Option<int>, underOdds: Option<int>)

  // ---------------------------------------------------------------------------
  // One market's record

  function PriceAt(outcomes: seq<OutcomeJson>, i: Option<nat>): Option<int>
    requires i.Some? ==> i.value < |outcomes|
  {
    match i
    case None => None
    case Some(k) => Some(outcomes[k].price)
  }

  function PointAt(outcomes: seq<OutcomeJson>, i: Option<nat>): Option<real>
    requires i.Some? ==> i.value < |outcomes|
  {
    match i
    case None => None
    case Some(k) => Some(outcomes[k].point)
  }

  /**
   * The outcome that fills the away fields: the last one named after the away
   * team, unless that name is also the home team's, whose test comes first.
   */
  function AwayIndex(outcomes: seq<OutcomeJson>, home: string, away: string): (r: Option<nat>)
    ensures r.Some? ==> r.value < |outcomes| && away != home && outcomes[r.value].name == away
    ensures r.Some? ==> forall j | r.value < j < |outcomes| :: outcomes[j].name != away
    ensures r.None? <==> (away == home || forall j | 0 <= j < |outcomes| :: outcomes[j].name != away)
  {
    if away == home then None else LastNamed(outcomes, away)
  }

  function Moneyline(eventId: string, bookmakerKey: string, home: string, away: string, outcomes: seq<OutcomeJson>): MoneylineOdds {
    MoneylineOdds(eventId, bookmakerKey,
      PriceAt(outcomes, LastNamed(outcomes, home)),
      PriceAt(outcomes, AwayIndex(outcomes, home, away)))
  }

  function Spread(eventId: string, bookmakerKey: string, home: string, away: string, outcomes: seq<OutcomeJson>): SpreadOdds {
    var h, a := LastNamed(outcomes, home), AwayIndex(outcomes, home, away);
    SpreadOdds(eventId, bookmakerKey, PointAt(outcomes, h), PriceAt(outcomes, h), PointAt(outcomes, a), PriceAt(outcomes, a))
  }

  /** The line is the first outcome's point; indexing an empty list fails. */
  function Totals(eventId: string, bookmakerKey: string, outcomes: seq<OutcomeJson>): TotalsOdds
    requires |outcomes| > 0
  {
    TotalsOdds(eventId, bookmakerKey, outcomes[0].point,
      PriceAt(outcomes, LastNamed(outcomes, OverName)),
      PriceAt(outcomes, LastNamed(outcomes, UnderName)))
  }

  method BuildMoneyline(eventId: string, bookmakerKey: string, home: string, away: string, outcomes: seq<OutcomeJson>)
    returns (odds: MoneylineOdds)
    ensures odds == Moneyline(eventId, bookmakerKey, home, away, outcomes)
  {
    odds := MoneylineOdds(eventId, bookmakerKey, None, None);
    for i := 0 to |outcomes|
      invariant odds == Moneyline(eventId, bookmakerKey, home, away, outcomes[..i])
    {
      assert outcomes[..i + 1][..i] == outcomes[..i];
      var price := outcomes[i].price;
      if outcomes[i].name == home {
        odds := odds.(homeTeamOdds := Some(price));
        continue;
      }
      if outcomes[i].name == away {
        odds := odds.(awayTeamOdds := Some(price));
        continue;
      }
    }
    assert outcomes[..|outcomes|] == outcomes;
  }

  method BuildSpread(eventId: string, bookmakerKey: string, home: string, away: string, outcomes: seq<OutcomeJson>)
    returns (odds: SpreadOdds)
    ensures odds == Spread(eventId, bookmakerKey, home, away, outcomes)
  {
    odds := SpreadOdds(eventId, bookmakerKey, None, None, None, None);
    for i := 0 to |outcomes|
      invariant odds == Spread(eventId, bookmakerKey, home, away, outcomes[..i])
    {
      assert outcomes[..i + 1][..i] == outcomes[..i];
      var price, point := outcomes[i].price, outcomes[i].point;
      if outcomes[i].name == home {
        odds := odds.(homeTeamLine := Some(point), homeTeamOdds := Some(price));
        continue;
      }
      if outcomes[i].name == away {
        odds := odds.(awayTeamLine := Some(point), awayTeamOdds := Some(price));
        continue;
      }
    }
    assert outcomes[..|outcomes|] == outcomes;
  }

  method BuildTotals(eventId: string, bookmakerKey: string, outcomes: seq<OutcomeJson>)
    returns (odds: TotalsOdds)
    requires |outcomes| > 0
    ensures odds == Totals(eventId, bookmakerKey, outcomes)
  {
    odds := TotalsOdds(eventId, bookmakerKey, outcomes[0].point, None, None);
    for i := 0 to |outcomes|
      invariant odds.eventId == eventId && odds.bookmakerKey == bookmakerKey && odds.line == outcomes[0].point
      invariant odds.overOdds == PriceAt(outcomes, LastNamed(outcomes[..i], OverName))
      invariant odds.underOdds == PriceAt(outcomes, LastNamed(outcomes[..i], UnderName))
    {
      assert outcomes[..i + 1][..i] == outcomes[..i];
      var price := outcomes[i].price;
      if outcomes[i].name == OverName {
        odds := odds.(overOdds := Some(price));
        continue;
      }
      if outcomes[i].name == UnderName {
        odds := odds.(underOdds := Some(price));
        continue;
      }
    }
    assert outcomes[..|outcomes|] == outcomes;
  }

  // ---------------------------------------------------------------------------
  // The four output lists

  /** The four lists `_process_events` returns. */
  datatype Batch = Batch(
    events: seq<Event>,
    moneylines: seq<MoneylineOdds>,
    spreads: seq<SpreadOdds>,
    totals: seq<TotalsOdds>)

  const Empty: Batch := Batch([], [], [], [])

  function Join(a: Batch, b: Batch): Batch {
    Batch(a.events + b.events, a.moneylines + b.moneylines, a.spreads + b.spreads, a.totals + b.totals)
  }

  lemma JoinAssociative(a: Batch, b: Batch, c: Batch)
    ensures Join(Join(a, b), c) == Join(a, Join(b, c))
  {
  }

  /** A totals market must carry an outcome, or reading its line fails. */
  predicate TotalsPriced(m: MarketJson) {
    m.key == TotalsKey ==> |m.outcomes| > 0
  }

  predicate MarketsPriced(markets: seq<MarketJson>) {
    forall m | m in markets :: TotalsPriced(m)
  }

  predicate BookmakersPriced(bookmakers: seq<BookmakerJson>) {
    forall b | b in bookmakers :: MarketsPriced(b.markets)
  }

  predicate EventsPriced(events: seq<EventJson>) {
    forall e | e in events :: BookmakersPriced(e.bookmakers)
  }

  /** The record one market of one bookmaker yields, by its key. */
  function MarketBatch(e: EventJson, bookmakerKey: string, m: MarketJson): Batch
    requires TotalsPriced(m)
  {
    if m.key == MoneylineKey then
      Batch([], [Moneyline(e.id, bookmakerKey, e.homeTeam, e.awayTeam, m.outcomes)], [], [])
    else if m.key == SpreadsKey then
      Batch([], [], [Spread(e.id, bookmakerKey, e.homeTeam, e.awayTeam, m.outcomes)], [])
    else if m.key == TotalsKey then
      Batch([], [], [], [Totals(e.id, bookmakerKey, m.outcomes)])
    else Empty
  }

  function MarketsBatch(e: EventJson, bookmakerKey: string, markets: seq<MarketJson>): Batch
    requires MarketsPriced(markets)
  {
    if |markets| == 0 then Empty
    else Join(MarketsBatch(e, bookmakerKey, markets[..|markets| - 1]),
              MarketBatch(e, bookmakerKey, markets[|markets| - 1]))
  }

  function BookmakersBatch(e: EventJson, bookmakers: seq<BookmakerJson>): Batch
    requires BookmakersPriced(bookmakers)
  {
    if |bookmakers| == 0 then Empty
    else
      var b := bookmakers[|bookmakers| - 1];
      Join(BookmakersBatch(e, bookmakers[..|bookmakers| - 1]), MarketsBatch(e, b.key, b.markets))
  }

  function EventRecord(e: EventJson, teamId: string -> int, parseTime: string -> int, formatTime: int -> string): Event {
    var startTime := parseTime(e.commenceTime);
    Event(e.id, startTime, formatTime(startTime), teamId(e.homeTeam), teamId(e.awayTeam))
  }

  /** Everything the event list yields, in input order. */
  function EventsBatch(events: seq<EventJson>, teamId: string -> int, parseTime: string -> int, formatTime: int -> string): Batch
    requires EventsPriced(events)
  {
    if |events| == 0 then Empty
    else
      var e := events[|events| - 1];
      Join(EventsBatch(events[..|events| - 1], teamId, parseTime, formatTime),
           Join(Batch([EventRecord(e, teamId, parseTime, formatTime)], [], [], []), BookmakersBatch(e, e.bookmakers)))
  }

  /** The records of one bookmaker's markets, appended to the lists so far. */
  method AddMarkets(acc: Batch, e: EventJson, bookmakerKey: string, markets: seq<MarketJson>) returns (out: Batch)
    requires MarketsPriced(markets)
    ensures out == Join(acc, MarketsBatch(e, bookmakerKey, markets))
  {
    out := acc;
    for m := 0 to |markets|
      invariant out == Join(acc, MarketsBatch(e, bookmakerKey, markets[..m]))
    {
      var market := markets[m];
      assert markets[..m + 1][..m] == markets[..m];
      assert market in markets;
      JoinAssociative(acc, MarketsBatch(e, bookmakerKey, markets[..m]), MarketBatch(e, bookmakerKey, market));
      if market.key == MoneylineKey {
        var odds := BuildMoneyline(e.id, bookmakerKey, e.homeTeam, e.awayTeam, market.outcomes);
        out := out.(moneylines := out.moneylines + [odds]);
        continue;
      }
      if market.key == SpreadsKey {
        var odds := BuildSpread(e.id, bookmakerKey, e.homeTeam, e.awayTeam, market.outcomes);
        out := out.(spreads := out.spreads + [odds]);
        continue;
      }
      if market.key == TotalsKey {
        var odds := BuildTotals(e.id, bookmakerKey, market.outcomes);
        out := out.(totals := out.totals + [odds]);
        continue;
      }
    }
    assert markets[..|markets|] == markets;
  }

  /** The records of one event's bookmakers, appended to the lists so far. */
  method AddBookmakers(acc: Batch, e: EventJson) returns (out: Batch)
    requires BookmakersPriced(e.bookmakers)
    ensures out == Join(acc, BookmakersBatch(e, e.bookmakers))
  {
    out := acc;
    for b := 0 to |e.bookmakers|
      invariant out == Join(acc, BookmakersBatch(e, e.bookmakers[..b]))
    {
      var bookmaker := e.bookmakers[b];
      assert e.bookmakers[..b + 1][..b] == e.bookmakers[..b];
      assert bookmaker in e.bookmakers;
      JoinAssociative(acc, BookmakersBatch(e, e.bookmakers[..b]), MarketsBatch(e, bookmaker.key, bookmaker.markets));
      out := AddMarkets(out, e, bookmaker.key, bookmaker.markets);
    }
    assert e.bookmakers[..|e.bookmakers|] == e.bookmakers;
  }

  /** `_process_events`: the event, moneyline, spread and totals records of the input events. */
  method ProcessEvents(eventsJson: seq<EventJson>, teamId: string -> int, parseTime: string -> int, formatTime: int -> string)
    returns (eventsList: seq<Event>, moneylineOddsList: seq<MoneylineOdds>,
             spreadOddsList: seq<SpreadOdds>, totalsOddsList: seq<TotalsOdds>)
    requires EventsPriced(eventsJson)
    ensures Batch(eventsList, moneylineOddsList, spreadOddsList, totalsOddsList)
         == EventsBatch(eventsJson, teamId, parseTime, formatTime)
  {
    var acc := Empty;
    for i := 0 to |eventsJson|
      invariant acc == EventsBatch(eventsJson[..i], teamId, parseTime, formatTime)
    {
      var eventJson := eventsJson[i];
      assert eventsJson[..i + 1][..i] == eventsJson[..i];
      assert eventJson in eventsJson;
      var startTime := parseTime(eventJson.commenceTime);
      var event := Event(eventJson.id, startTime, formatTime(startTime),
                         teamId(eventJson.homeTeam), teamId(eventJson.awayTeam));
      var eventBatch := Batch([event], [], [], []);
      JoinAssociative(acc, eventBatch, BookmakersBatch(eventJson, eventJson.bookmakers));
      acc := acc.(events := acc.events + [event]);
      assert acc == Join(EventsBatch(eventsJson[..i], teamId, parseTime, formatTime), eventBatch);
      acc := AddBookmakers(acc, eventJson);
    }
    assert eventsJson[..|eventsJson|] == eventsJson;
    eventsList, moneylineOddsList, spreadOddsList, totalsOddsList := acc.events, acc.moneylines, acc.spreads, acc.totals;
  }
}
