/**
 * The shape of the odds provider's event JSON, as the odds service reads it:
 * events hold bookmakers, bookmakers hold markets, markets hold outcomes.
 * Prices are American odds (integers); points are lines and spreads.
 */
module OddsJson {

  import opened Wrappers

  /** One priced outcome. Player props name the player in `description`. */
  datatype OutcomeJson = OutcomeJson(name: string, description: string, price: int, point: real)

  datatype MarketJson = MarketJson(key: string, outcomes: seq<OutcomeJson>)

  datatype BookmakerJson = BookmakerJson(key: string, markets: seq<MarketJson>)

  datatype EventJson = EventJson(
    id: string,
    homeTeam: string,
    awayTeam: string,
    commenceTime: string,
    bookmakers: seq<BookmakerJson>)

  /**
   * The position of the last outcome with the given name: the outcome whose
   * price a field keeps when the loop overwrites it on every match.
   */
  function LastNamed(outcomes: seq<OutcomeJson>, name: string): (r: Option<nat>)
    ensures r.Some? ==> r.value < |outcomes| && outcomes[r.value].name == name
    ensures r.Some? ==> forall j | r.value < j < |outcomes| :: outcomes[j].name != name
    ensures r.None? <==> forall j | 0 <= j < |outcomes| :: outcomes[j].name != name
  {
    if |outcomes| == 0 then None
    else if outcomes[|outcomes| - 1].name == name then Some(|outcomes| - 1)
    else LastNamed(outcomes[..|outcomes| - 1], name)
  }
}
