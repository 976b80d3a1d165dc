/** The per-token decision of `check_valid_ticket`. The answer of the
    booking-check endpoint is reduced to its two fields; the decision is
    returned as an action instead of being carried out, so that the
    re-entry of the whole pass and the fresh collection pass stay outside
    this module. */
module Validation {
  import opened Json
  import opened Fares

  /** The two fields task.py reads from the check endpoint's answer. */
  datatype CheckResponse = CheckResponse(flightsChecked: Value, flightsInvalid: Value)

  /** The booking-check endpoint, as a function of the booking token. */
  type CheckApi = Token -> CheckResponse

  datatype Action =
    | MarkInvalid(flightsInvalid: Value)  // append a marker to the route, rewrite the cache
    | Revalidate                          // not all flights confirmed: re-run the whole pass
    | Refresh                             // "price change": new collection pass, new cache
    | NoAction                            // none of the three branches taken

  /** The `if` / `elif` / `elif` chain. `price_change` is read from the
      `flights_checked` field, so the third test repeats the negation of the
      second: whenever the flights are confirmed and none is invalid, the
      price counts as changed. */
  function Decide(response: CheckResponse): (a: Action)
    ensures a == MarkInvalid(response.flightsInvalid) <==> Truthy(response.flightsInvalid)
    ensures a == Revalidate <==> !Truthy(response.flightsInvalid) && !Truthy(response.flightsChecked)
    ensures a == Refresh <==> !Truthy(response.flightsInvalid) && Truthy(response.flightsChecked)
    ensures a != NoAction
  {
    var flightsChecked := response.flightsChecked;
    var flightsInvalid := response.flightsInvalid;
    var priceChange := response.flightsChecked;
    if Truthy(flightsInvalid) then MarkInvalid(flightsInvalid)
    else if !Truthy(flightsChecked) then Revalidate
    else if Truthy(priceChange) then Refresh
    else NoAction
  }

  /** The first position in `refs` whose decision is not a refresh, or
      `|refs|`: the pass refreshes for every token before it and stops
      there. */
  function FirstStop(refs: seq<BookingRef>, check: CheckApi): (stop: nat)
    ensures stop <= |refs|
    ensures forall j :: 0 <= j < stop ==> Decide(check(refs[j].token)) == Refresh
    ensures stop < |refs| ==> Decide(check(refs[stop].token)) != Refresh
  {
    if refs == [] then 0
    else if Decide(check(refs[0].token)) != Refresh then 0
    else 1 + FirstStop(refs[1..], check)
  }
}
