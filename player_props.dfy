/**
 * The odds service's player prop aggregation (`_process_player_props`).
 *
 * Every bookmaker outcome of every event, across the provider's response
 * lists, is resolved to a prop key (event, player, opponent, line, market,
 * alternate). Each distinct key gets one prop id, and every resolved outcome
 * yields one odds record carrying its key's id. Then one prop record per key,
 * in the order keys were first seen, is filled from the hit-rate calculators.
 *
 * The event table, the fuzzy player-name search and the player-to-team lookup
 * are database calls and are given as lookups. The random prop id is modelled
 * as a counter: the k-th new key gets id k, which is what the code relies on
 * (a fresh id per new key).
 */
module PlayerProps {

  import opened Wrappers
  import opened OddsJson

  /** The key `player_props_dict` is indexed by. */
  datatype PropKey = PropKey(
    eventId: string,
    playerId: int,
    opponentTeamId: int,
    line: real,
    market: string,
    alternate: bool)

  /** Stands in for the uuid hex a new key receives. */
  type PropId = nat

  datatype PlayerPropOdds = PlayerPropOdds(playerPropId: PropId, bookmakerKey: string, outcome: string, odds: int)

  /** The database lookups the aggregation makes. */
  datatype Lookups = Lookups(
    eventTeams: map<string, (int, int)>,   // event id to (home team id, away team id)
    playerIds: string -> seq<int>,         // name search: the ids whose name matches
    playerTeamId: int -> int)              // a player's team

  const AlternateWord: string := "alternate"

  /** `sub` occurs in `s` at position i. */
  predicate InfixAt(s: string, sub: string, i: int) {
    0 <= i && i + |sub| <= |s| && s[i..i + |sub|] == sub
  }

  /** Python's `sub in s` on strings. */
  ghost predicate Contains(s: string, sub: string) {
    exists i :: InfixAt(s, sub, i)
  }

  function HasInfix(s: string, sub: string): (r: bool)
    ensures r <==> Contains(s, sub)
    decreases |s|
  {
    if |s| < |sub| then false
    else if s[..|sub|] == sub then
      assert InfixAt(s, sub, 0);
      true
    else
      InfixOfTail(s, sub);
      HasInfix(s[1..], sub)
  }

  lemma InfixOfTail(s: string, sub: string)
    requires |s| >= |sub| && s[..|sub|] != sub
    ensures Contains(s, sub) <==> Contains(s[1..], sub)
  {
    if Contains(s, sub) {
      var i :| InfixAt(s, sub, i);
      assert i != 0;
      assert s[1..][i - 1..i - 1 + |sub|] == s[i..i + |sub|];
      assert InfixAt(s[1..], sub, i - 1);
    }
    if Contains(s[1..], sub) {
      var i :| InfixAt(s[1..], sub, i);
      assert s[1..][i..i + |sub|] == s[i + 1..i + 1 + |sub|];
      assert InfixAt(s, sub, i + 1);
    }
  }

  // ---------------------------------------------------------------------------
  // Outcomes in the order the loops visit them

  /** One outcome together with the event, bookmaker and market it sits in. */
  datatype Offer = Offer(
    eventId: string,
    homeTeamId: int,
    awayTeamId: int,
    bookmakerKey: string,
    marketKey: string,
    outcome: OutcomeJson)

  function OutcomeOffers(eventId: string, home: int, away: int, bookmakerKey: string, marketKey: string, outcomes: seq<OutcomeJson>): seq<Offer> {
    if |outcomes| == 0 then []
    else OutcomeOffers(eventId, home, away, bookmakerKey, marketKey, outcomes[..|outcomes| - 1])
         + [Offer(eventId, home, away, bookmakerKey, marketKey, outcomes[|outcomes| - 1])]
  }

  function MarketOffers(eventId: string, home: int, away: int, bookmakerKey: string, markets: seq<MarketJson>): seq<Offer> {
    if |markets| == 0 then []
    else
      var m := markets[|markets| - 1];
      MarketOffers(eventId, home, away, bookmakerKey, markets[..|markets| - 1])
      + OutcomeOffers(eventId, home, away, bookmakerKey, m.key, m.outcomes)
  }

  function BookmakerOffers(eventId: string, home: int, away: int, bookmakers: seq<BookmakerJson>): seq<Offer> {
    if |bookmakers| == 0 then []
    else
      var b := bookmakers[|bookmakers| - 1];
      BookmakerOffers(eventId, home, away, bookmakers[..|bookmakers| - 1])
      + MarketOffers(eventId, home, away, b.key, b.markets)
  }

  /** Every event must be in the event table, or reading its teams fails. */
  predicate EventsKnown(events: seq<EventJson>, lookups: Lookups) {
    forall e | e in events :: e.id in lookups.eventTeams
  }

  predicate ListsKnown(lists: seq<seq<EventJson>>, lookups: Lookups) {
    forall l | l in lists :: EventsKnown(l, lookups)
  }

  function EventOffers(events: seq<EventJson>, lookups: Lookups): seq<Offer>
    requires EventsKnown(events, lookups)
  {
    if |events| == 0 then []
    else
      var e := events[|events| - 1];
      var teams := lookups.eventTeams[e.id];
      EventOffers(events[..|events| - 1], lookups) + BookmakerOffers(e.id, teams.0, teams.1, e.bookmakers)
  }

  /** All outcomes of all response lists, in visiting order. */
  function ListOffers(lists: seq<seq<EventJson>>, lookups: Lookups): seq<Offer>
    requires ListsKnown(lists, lookups)
  {
    if |lists| == 0 then []
    else
      assert lists[|lists| - 1] in lists;
      ListOffers(lists[..|lists| - 1], lookups) + EventOffers(lists[|lists| - 1], lookups)
  }

  // ---------------------------------------------------------------------------
  // Resolving an outcome to a prop key

  /**
   * The key of an outcome, or None when it is skipped: the name search must
   * give exactly one player, and that player's team must be the event's home
   * team (the opponent is then the away team) or its away team (the opponent
   * is then the home team).
   */
  function Resolve(offer: Offer, lookups: Lookups): Option<PropKey> {
    var ids := lookups.playerIds(offer.outcome.description);
    if |ids| != 1 then None
    else
      var team := lookups.playerTeamId(ids[0]);
      var opponent :=
        if team == offer.homeTeamId then Some(offer.awayTeamId)
        else if team == offer.awayTeamId then Some(offer.homeTeamId)
        else None;
      match opponent
      case None => None
      case Some(o) =>
        Some(PropKey(offer.eventId, ids[0], o, offer.outcome.point, offer.marketKey,
                     HasInfix(offer.marketKey, AlternateWord)))
  }

  /** The keys of the resolved outcomes, in order, repeats included. */
  function AcceptedKeys(offers: seq<Offer>, lookups: Lookups): seq<PropKey> {
    if |offers| == 0 then []
    else
      var front := AcceptedKeys(offers[..|offers| - 1], lookups);
      match Resolve(offers[|offers| - 1], lookups)
      case None => front
      case Some(k) => front + [k]
  }

  // ---------------------------------------------------------------------------
  // Collecting keys, ids and odds

  /**
   * The aggregation's state: `player_props_dict` as a map and its insertion
   * order, and the odds records so far.
   */
  datatype Collected = Collected(propIds: map<PropKey, PropId>, keyOrder: seq<PropKey>, odds: seq<PlayerPropOdds>)

  const Init: Collected := Collected(map[], [], [])

  /** What one outcome does to the state. */
  function Step(st: Collected, offer: Offer, lookups: Lookups): Collected {
    match Resolve(offer, lookups)
    case None => st
    case Some(k) =>
      var st' := if k in st.propIds then st
                 else st.(propIds := st.propIds[k := |st.keyOrder|], keyOrder := st.keyOrder + [k]);
      st'.(odds := st'.odds + [PlayerPropOdds(st'.propIds[k], offer.bookmakerKey, offer.outcome.name, offer.outcome.price)])
  }

  function RunFrom(st: Collected, offers: seq<Offer>, lookups: Lookups): Collected {
    if |offers| == 0 then st
    else Step(RunFrom(st, offers[..|offers| - 1], lookups), offers[|offers| - 1], lookups)
  }

  lemma {:induction false} RunAppend(st: Collected, a: seq<Offer>, b: seq<Offer>, lookups: Lookups)
    ensures RunFrom(st, a + b, lookups) == RunFrom(RunFrom(st, a, lookups), b, lookups)
    decreases |b|
  {
    if |b| == 0 {
      assert a + b == a;
    } else {
      assert (a + b)[..|a + b| - 1] == a + b[..|b| - 1];
      RunAppend(st, a, b[..|b| - 1], lookups);
    }
  }

  method CollectOutcomes(st: Collected, eventId: string, home: int, away: int, bookmakerKey: string,
                         marketKey: string, outcomes: seq<OutcomeJson>, lookups: Lookups)
    returns (out: Collected)
    ensures out == RunFrom(st, OutcomeOffers(eventId, home, away, bookmakerKey, marketKey, outcomes), lookups)
  {
    out := st;
    for i := 0 to |outcomes|
      invariant out == RunFrom(st, OutcomeOffers(eventId, home, away, bookmakerKey, marketKey, outcomes[..i]), lookups)
    {
      ghost var done := OutcomeOffers(eventId, home, away, bookmakerKey, marketKey, outcomes[..i]);
      ghost var offer := Offer(eventId, home, away, bookmakerKey, marketKey, outcomes[i]);
      assert outcomes[..i + 1][..i] == outcomes[..i];
      assert (done + [offer])[..|done|] == done;
      var description, name, point, price := outcomes[i].description, outcomes[i].name, outcomes[i].point, outcomes[i].price;
      ghost var before := out;
      var playerIds := lookups.playerIds(description);
      if |playerIds| != 1 {
        assert Resolve(offer, lookups).None?;
        continue;
      }
      var playerId := playerIds[0];
      var playerTeamId := lookups.playerTeamId(playerId);
      var opponentTeamId;
      if playerTeamId == home {
        opponentTeamId := away;
      } else if playerTeamId == away {
        opponentTeamId := home;
      } else {
        assert Resolve(offer, lookups).None?;
        continue;
      }
      var key := PropKey(eventId, playerId, opponentTeamId, point, marketKey, HasInfix(marketKey, AlternateWord));
      assert Resolve(offer, lookups) == Some(key);
      if key !in out.propIds {
        out := out.(propIds := out.propIds[key := |out.keyOrder|], keyOrder := out.keyOrder + [key]);
      }
      var playerPropId := out.propIds[key];
      out := out.(odds := out.odds + [PlayerPropOdds(playerPropId, bookmakerKey, name, price)]);
      assert out == Step(before, offer, lookups);
    }
    assert outcomes[..|outcomes|] == outcomes;
  }

  method CollectMarkets(st: Collected, eventId: string, home: int, away: int, bookmakerKey: string,
                        markets: seq<MarketJson>, lookups: Lookups)
    returns (out: Collected)
    ensures out == RunFrom(st, MarketOffers(eventId, home, away, bookmakerKey, markets), lookups)
  {
    out := st;
    for m := 0 to |markets|
      invariant out == RunFrom(st, MarketOffers(eventId, home, away, bookmakerKey, markets[..m]), lookups)
    {
      var market := markets[m];
      assert markets[..m + 1][..m] == markets[..m];
      RunAppend(st, MarketOffers(eventId, home, away, bookmakerKey, markets[..m]),
                OutcomeOffers(eventId, home, away, bookmakerKey, market.key, market.outcomes), lookups);
      out := CollectOutcomes(out, eventId, home, away, bookmakerKey, market.key, market.outcomes, lookups);
    }
    assert markets[..|markets|] == markets;
  }

  method CollectBookmakers(st: Collected, eventId: string, home: int, away: int,
                           bookmakers: seq<BookmakerJson>, lookups: Lookups)
    returns (out: Collected)
    ensures out == RunFrom(st, BookmakerOffers(eventId, home, away, bookmakers), lookups)
  {
    out := st;
    for b := 0 to |bookmakers|
      invariant out == RunFrom(st, BookmakerOffers(eventId, home, away, bookmakers[..b]), lookups)
    {
      var bookmaker := bookmakers[b];
      assert bookmakers[..b + 1][..b] == bookmakers[..b];
      RunAppend(st, BookmakerOffers(eventId, home, away, bookmakers[..b]),
                MarketOffers(eventId, home, away, bookmaker.key, bookmaker.markets), lookups);
      out := CollectMarkets(out, eventId, home, away, bookmaker.key, bookmaker.markets, lookups);
    }
    assert bookmakers[..|bookmakers|] == bookmakers;
  }

  method CollectEvents(st: Collected, events: seq<EventJson>, lookups: Lookups)
    returns (out: Collected)
    requires EventsKnown(events, lookups)
    ensures out == RunFrom(st, EventOffers(events, lookups), lookups)
  {
    out := st;
    for i := 0 to |events|
      invariant out == RunFrom(st, EventOffers(events[..i], lookups), lookups)
    {
      var eventJson := events[i];
      assert events[..i + 1][..i] == events[..i];
      assert eventJson in events;
      var teams := lookups.eventTeams[eventJson.id];
      var homeTeamId, awayTeamId := teams.0, teams.1;
      RunAppend(st, EventOffers(events[..i], lookups),
                BookmakerOffers(eventJson.id, homeTeamId, awayTeamId, eventJson.bookmakers), lookups);
      out := CollectBookmakers(out, eventJson.id, homeTeamId, awayTeamId, eventJson.bookmakers, lookups);
    }
    assert events[..|events|] == events;
  }

  /** The first phase: every outcome of every response list. */
  method CollectLists(lists: seq<seq<EventJson>>, lookups: Lookups) returns (out: Collected)
    requires ListsKnown(lists, lookups)
    ensures out == RunFrom(Init, ListOffers(lists, lookups), lookups)
  {
    out := Init;
    for l := 0 to |lists|
      invariant out == RunFrom(Init, ListOffers(lists[..l], lookups), lookups)
    {
      assert lists[..l + 1][..l] == lists[..l];
      assert lists[l] in lists;
      RunAppend(Init, ListOffers(lists[..l], lookups), EventOffers(lists[l], lookups), lookups);
      out := CollectEvents(out, lists[l], lookups);
    }
    assert lists[..|lists|] == lists;
  }

  // ---------------------------------------------------------------------------
  // What the collection promises

  /** The distinct elements of a sequence, each at its first occurrence. */
  function Dedup(xs: seq<PropKey>): (r: seq<PropKey>)
    ensures forall x :: x in r <==> x in xs
    ensures forall i, j | 0 <= i < j < |r| :: r[i] != r[j]
  {
    if |xs| == 0 then []
    else
      var front := Dedup(xs[..|xs| - 1]);
      var x := xs[|xs| - 1];
      assert xs == xs[..|xs| - 1] + [x];
      if x in front then front else front + [x]
  }

  /** u occurs in xs before every occurrence of v. */
  ghost predicate SeenBefore(xs: seq<PropKey>, u: PropKey, v: PropKey) {
    forall b | 0 <= b < |xs| && xs[b] == v :: exists a | 0 <= a < b :: xs[a] == u
  }

  /** The distinct elements come in the order of their first occurrences. */
  lemma {:induction false} DedupFirstSeen(xs: seq<PropKey>)
    ensures forall i, j | 0 <= i < j < |Dedup(xs)| :: SeenBefore(xs, Dedup(xs)[i], Dedup(xs)[j])
  {
    if |xs| > 0 {
      var n := |xs| - 1;
      var front, x := xs[..n], xs[n];
      DedupFirstSeen(front);
      var f, r := Dedup(front), Dedup(xs);
      assert xs == front + [x];
      forall i, j | 0 <= i < j < |r| ensures SeenBefore(xs, r[i], r[j]) {
        assert i < |f| && r[i] == f[i];
        assert r[i] in front;
        var first :| 0 <= first < n && front[first] == r[i];
        forall b | 0 <= b < |xs| && xs[b] == r[j] ensures exists a | 0 <= a < b :: xs[a] == r[i] {
          if b == n {
            assert xs[first] == r[i];
          } else {
            assert front[b] == r[j];
            assert r[j] in f;
            assert j < |f| && r[j] == f[j];
            assert SeenBefore(front, f[i], f[j]);
            assert 0 <= b < |front| && front[b] == f[j];
            var a :| 0 <= a < b && front[a] == r[i];
            assert xs[a] == r[i];
          }
        }
      }
    }
  }

  /**
   * The dictionary and its order agree: the key at position i has id i, every
   * key with an id is in the order, and every odds record refers to an id
   * handed out.
   */
  ghost predicate Consistent(st: Collected) {
    && (forall i | 0 <= i < |st.keyOrder| :: st.keyOrder[i] in st.propIds && st.propIds[st.keyOrder[i]] == i)
    && (forall k | k in st.propIds :: k in st.keyOrder)
    && (forall i | 0 <= i < |st.odds| :: st.odds[i].playerPropId < |st.keyOrder|)
  }

  lemma StepConsistent(st: Collected, offer: Offer, lookups: Lookups)
    requires Consistent(st)
    ensures Consistent(Step(st, offer, lookups))
  {
    match Resolve(offer, lookups)
    case None =>
    case Some(k) =>
      if k !in st.propIds {
        var st' := Step(st, offer, lookups);
        forall i | 0 <= i < |st'.keyOrder|
          ensures st'.keyOrder[i] in st'.propIds && st'.propIds[st'.keyOrder[i]] == i
        {
          if i < |st.keyOrder| {
            assert st'.keyOrder[i] == st.keyOrder[i] != k;
          }
        }
      }
  }

  /** A run from the empty state keeps the dictionary and its order consistent. */
  lemma {:induction false} RunConsistent(offers: seq<Offer>, lookups: Lookups)
    ensures Consistent(RunFrom(Init, offers, lookups))
    decreases |offers|
  {
    if |offers| > 0 {
      RunConsistent(offers[..|offers| - 1], lookups);
      StepConsistent(RunFrom(Init, offers[..|offers| - 1], lookups), offers[|offers| - 1], lookups);
    }
  }

  /**
   * The keys get their ids in the order they are first seen: the dictionary's
   * order is the accepted keys without repeats, and a key is in the dictionary
   * exactly when some outcome resolved to it.
   */
  lemma {:induction false} RunOrder(offers: seq<Offer>, lookups: Lookups)
    ensures var st := RunFrom(Init, offers, lookups);
      && st.keyOrder == Dedup(AcceptedKeys(offers, lookups))
      && forall k :: k in st.propIds <==> k in AcceptedKeys(offers, lookups)
    decreases |offers|
  {
    if |offers| > 0 {
      var front := offers[..|offers| - 1];
      RunOrder(front, lookups);
      RunConsistent(front, lookups);
      var keys := AcceptedKeys(front, lookups);
      match Resolve(offers[|offers| - 1], lookups)
      case None =>
      case Some(k) =>
        assert AcceptedKeys(offers, lookups) == keys + [k];
        assert (keys + [k])[..|keys|] == keys;
    }
  }

  /** Every accepted outcome's key has an id in the map. */
  ghost predicate Covers(offers: seq<Offer>, lookups: Lookups, ids: map<PropKey, PropId>) {
    forall i | 0 <= i < |offers| :: Resolve(offers[i], lookups).Some? ==> Resolve(offers[i], lookups).value in ids
  }

  /** The odds records of the accepted outcomes, each carrying its key's id in the map. */
  ghost function OddsOf(offers: seq<Offer>, lookups: Lookups, ids: map<PropKey, PropId>): seq<PlayerPropOdds>
    requires Covers(offers, lookups, ids)
  {
    if |offers| == 0 then []
    else
      var o := offers[|offers| - 1];
      assert forall i | 0 <= i < |offers| - 1 :: offers[..|offers| - 1][i] == offers[i];
      OddsOf(offers[..|offers| - 1], lookups, ids)
      + match Resolve(o, lookups)
        case None => []
        case Some(k) => [PlayerPropOdds(ids[k], o.bookmakerKey, o.outcome.name, o.outcome.price)]
  }

  /** Ids once handed out never change, so the odds records do not depend on later additions to the map. */
  lemma {:induction false} OddsOfExtend(offers: seq<Offer>, lookups: Lookups, ids: map<PropKey, PropId>, more: map<PropKey, PropId>)
    requires Covers(offers, lookups, ids)
    requires forall k | k in ids :: k in more && more[k] == ids[k]
    ensures Covers(offers, lookups, more)
    ensures OddsOf(offers, lookups, more) == OddsOf(offers, lookups, ids)
    decreases |offers|
  {
    if |offers| > 0 {
      var front := offers[..|offers| - 1];
      assert forall i | 0 <= i < |front| :: front[i] == offers[i];
      OddsOfExtend(front, lookups, ids, more);
    }
  }

  /**
   * One odds record per accepted outcome, in order, carrying the id its key has
   * in the final dictionary.
   */
  lemma {:induction false} RunOdds(offers: seq<Offer>, lookups: Lookups)
    ensures var st := RunFrom(Init, offers, lookups);
      Covers(offers, lookups, st.propIds) && st.odds == OddsOf(offers, lookups, st.propIds)
    decreases |offers|
  {
    if |offers| > 0 {
      var front := offers[..|offers| - 1];
      var o := offers[|offers| - 1];
      var st := RunFrom(Init, front, lookups);
      var st' := RunFrom(Init, offers, lookups);
      RunOdds(front, lookups);
      assert forall i | 0 <= i < |front| :: front[i] == offers[i];
      OddsOfExtend(front, lookups, st.propIds, st'.propIds);
    }
  }

  /** Distinct keys get distinct ids. */
  lemma DistinctKeysDistinctIds(st: Collected, k1: PropKey, k2: PropKey)
    requires Consistent(st) && k1 in st.propIds && k2 in st.propIds && k1 != k2
    ensures st.propIds[k1] != st.propIds[k2]
  {
    var i :| 0 <= i < |st.keyOrder| && st.keyOrder[i] == k1;
    var j :| 0 <= j < |st.keyOrder| && st.keyOrder[j] == k2;
  }

  /** The alternate flag of a key says whether its market's name contains "alternate". */
  lemma AlternateFlag(offer: Offer, lookups: Lookups)
    requires Resolve(offer, lookups).Some?
    ensures var k := Resolve(offer, lookups).value;
      && k.market == offer.marketKey
      && (k.alternate <==> Contains(offer.marketKey, AlternateWord))
  {
  }

  /**
   * An outcome is kept exactly when the name search gives one player whose team
   * plays in the event; the opponent is then the other side of the event.
   */
  lemma ResolveOpponent(offer: Offer, lookups: Lookups)
    ensures var ids := lookups.playerIds(offer.outcome.description);
      && (Resolve(offer, lookups).Some? <==>
            |ids| == 1 && lookups.playerTeamId(ids[0]) in {offer.homeTeamId, offer.awayTeamId})
      && (Resolve(offer, lookups).Some? ==>
            var k := Resolve(offer, lookups).value;
            var team := lookups.playerTeamId(ids[0]);
            && k.playerId == ids[0] && k.eventId == offer.eventId && k.line == offer.outcome.point
            && (team == offer.homeTeamId ==> k.opponentTeamId == offer.awayTeamId)
            && (team != offer.homeTeamId ==> k.opponentTeamId == offer.homeTeamId))
  {
  }
}
