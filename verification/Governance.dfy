/** GovernanceModule: the route list, the one-route-per-flight-id index, the
    retirement markers and the term limits. */
module Governance {
  import opened Results
  import opened Types

  // Amounts enter the module as 128-bit signed integers.
  const I128_LIMIT: int := 0x8000_0000_0000_0000_0000_0000_0000_0000
  type I128 = x: int | -I128_LIMIT <= x < I128_LIMIT

  datatype Pair = Pair(origin: Symbol, dest: Symbol)
  datatype RouteKey = RouteKey(id: Symbol, pair: Pair)
  datatype RouteTerms = RouteTerms(premium: Option<I128>, payoff: Option<I128>, delayHours: Option<nat>, approved: bool)
  datatype Retired = Retired(pair: Pair, until: nat)
  datatype RouteStatus = Active(terms: Terms) | Disabled | Unknown
  datatype Update<T> = Keep | Set(value: T) | UseDefault

  datatype GovState = GovState(
    routes: map<RouteKey, RouteTerms>,
    index: map<Symbol, Pair>,
    retired: map<Symbol, Retired>,
    defaultPremium: I128, defaultPayoff: I128, defaultDelayHours: nat,
    maxPayoff: I128, maxPayoffRatio: I128)

  function SaturatingMul(a: I128, b: I128): I128 {
    var p := a * b;
    if p >= I128_LIMIT then I128_LIMIT - 1 else if p < -I128_LIMIT then -I128_LIMIT else p
  }

  function OrElse<T>(o: Option<T>, default: T): T {
    match o case Some(v) => v case None => default
  }

  function ResolveTerms(g: GovState, t: RouteTerms): Terms {
    Terms(OrElse(t.premium, g.defaultPremium), OrElse(t.payoff, g.defaultPayoff), OrElse(t.delayHours, g.defaultDelayHours))
  }

  // Bucket snapshots come back here as plain integers; the contract's are 128-bit.
  predicate Representable(t: Terms) {
    -I128_LIMIT <= t.premium < I128_LIMIT && -I128_LIMIT <= t.payoff < I128_LIMIT
  }

  function AssertTermsValid(g: GovState, premium: I128, payoff: I128, delayHours: nat): Result<()> {
    var _ :- Need(premium > 0, PremiumMustBePositive);
    var _ :- Need(payoff > 0, PayoffMustBePositive);
    var _ :- Need(payoff > premium, PayoffMustExceedPremium);
    var _ :- Need(delayHours != 0, DelayHoursMustBePositive);
    var _ :- Need(g.maxPayoff > 0 ==> payoff <= g.maxPayoff, PayoffExceedsCap);
    Need(payoff <= SaturatingMul(premium, g.maxPayoffRatio), PayoffExceedsPremiumRatio)
  }

  function AssertRouteTermsValid(g: GovState, t: RouteTerms): Result<()> {
    var r := ResolveTerms(g, t);
    AssertTermsValid(g, r.premium, r.payoff, r.delayHours)
  }

  predicate TermsValid(g: GovState, t: Terms) {
    Representable(t)
    && t.premium > 0 && t.payoff > 0 && t.payoff > t.premium && t.delayHours > 0
    && (g.maxPayoff == 0 || t.payoff <= g.maxPayoff)
    && t.payoff <= SaturatingMul(t.premium, g.maxPayoffRatio)
  }

  // Recreates the index entry of a route that outlived it.
  function ReadRouteStatus(g: GovState, r: RouteKey): (GovState, RouteStatus) {
    if r !in g.routes then (g, Unknown)
    else if r.id in g.index && g.index[r.id] != r.pair then (g, Unknown)
    else
      var healed := g.(index := g.index[r.id := r.pair]);
      if !g.routes[r].approved then (healed, Disabled)
      else
        var t := ResolveTerms(g, g.routes[r]);
        (healed, if TermsValid(g, t) then RouteStatus.Active(t) else Disabled)
  }

  function WhitelistRoute(g: GovState, now: nat, r: RouteKey, premium: Option<I128>, payoff: Option<I128>, delayHours: Option<nat>)
    : Result<GovState>
  {
    var _ :- Need(r.id in g.index ==> g.index[r.id] == r.pair, FlightIdAlreadyMapped);
    var _ :- Need(r.id in g.retired && now < g.retired[r.id].until ==> g.retired[r.id].pair == r.pair, FlightIdRetired);
    if r in g.routes then
      var t := g.routes[r];
      var _ :- Need(t.approved && t.premium == premium && t.payoff == payoff && t.delayHours == delayHours, RouteAlreadyListed);
      var _ :- AssertRouteTermsValid(g, t);
      Ok(g.(index := g.index[r.id := r.pair]))
    else
      var t := RouteTerms(premium, payoff, delayHours, true);
      var _ :- AssertRouteTermsValid(g, t);
      Ok(g.(routes := g.routes[r := t], index := g.index[r.id := r.pair]))
  }

  function DisableRoute(g: GovState, r: RouteKey): Result<GovState> {
    var _ :- Need(r in g.routes, RouteNotFound);
    var _ :- Need(g.routes[r].approved, RouteAlreadyDisabled);
    Ok(g.(routes := g.routes[r := g.routes[r].(approved := false)]))
  }

  function EnableRoute(g: GovState, r: RouteKey): Result<GovState> {
    var _ :- Need(r in g.routes, RouteNotFound);
    var _ :- Need(!g.routes[r].approved, RouteAlreadyActive);
    var t := g.routes[r].(approved := true);
    var _ :- AssertRouteTermsValid(g, t);
    var _ :- Need(r.id in g.index ==> g.index[r.id] == r.pair, FlightIdAlreadyMapped);
    Ok(g.(routes := g.routes[r := t], index := g.index[r.id := r.pair]))
  }

  // A route that owns its flight id leaves a retirement marker behind.
  function RemoveRoute(g: GovState, now: nat, r: RouteKey): Result<GovState> {
    var _ :- Need(r in g.routes, RouteNotFound);
    var _ :- Need(!g.routes[r].approved, RouteMustBeDisabledBeforeRemoval);
    var removed := g.(routes := g.routes - {r});
    if r.id in g.index && g.index[r.id] != r.pair then Ok(removed)
    else
      Ok(removed.(index := g.index - {r.id},
                  retired := g.retired[r.id := Retired(r.pair, now + FLIGHT_ID_RETIREMENT)]))
  }

  // The ledger drops the index entry of a flight id, for instance because its time-to-live ran out.
  function LapseIndex(g: GovState, id: Symbol): Result<GovState> {
    var _ :- Need(id in g.index, NotApplicable);
    Ok(g.(index := g.index - {id}))
  }

  function ApplyUpdate<T>(u: Update<T>, current: Option<T>): Option<T> {
    match u case Keep => current case Set(v) => Some(v) case UseDefault => None
  }

  function UpdateRouteTerms(g: GovState, r: RouteKey, premium: Update<I128>, payoff: Update<I128>, delayHours: Update<nat>)
    : Result<GovState>
  {
    var _ :- Need(r in g.routes, RouteNotFound);
    var _ :- Need(r.id in g.index ==> g.index[r.id] == r.pair, FlightIdAlreadyMapped);
    var t0 := g.routes[r];
    var t := RouteTerms(ApplyUpdate(premium, t0.premium), ApplyUpdate(payoff, t0.payoff),
                        ApplyUpdate(delayHours, t0.delayHours), t0.approved);
    var _ :- AssertRouteTermsValid(g, t);
    Ok(g.(routes := g.routes[r := t], index := g.index[r.id := r.pair]))
  }

  function SetDefaults(g: GovState, premium: I128, payoff: I128, delayHours: nat): Result<GovState> {
    var _ :- AssertTermsValid(g, premium, payoff, delayHours);
    Ok(g.(defaultPremium := premium, defaultPayoff := payoff, defaultDelayHours := delayHours))
  }

  function SetTermLimits(g: GovState, maxPayoff: I128, maxPayoffRatio: I128): Result<GovState> {
    var _ :- Need(maxPayoff >= 0 && maxPayoffRatio >= 2, InvalidTermLimits);
    Ok(g.(maxPayoff := maxPayoff, maxPayoffRatio := maxPayoffRatio))
  }
}
