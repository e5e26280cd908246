/** GovernanceModule as a contract: routes, the flight-id index and retirement markers. */
module GovernanceContract {
  import opened Results
  import opened Types
  import opened Governance

  // The saturating product of the ratio rule is as good as the exact one.
  lemma ProductDecides(premium: int, payoff: int, ratio: I128)
    ensures -I128_LIMIT <= premium < I128_LIMIT && -I128_LIMIT <= payoff < I128_LIMIT && payoff > 0
        ==> (payoff <= SaturatingMul(premium, ratio) <==> payoff <= premium * ratio)
  {
  }

  lemma TermsIgnoreIndex(g: GovState, index: map<Symbol, Pair>, t: RouteTerms)
    ensures AssertRouteTermsValid(g.(index := index), t) == AssertRouteTermsValid(g, t)
  {
  }

  class GovernanceModule {
    var routes: map<RouteKey, RouteTerms>
    var index: map<Symbol, Pair>
    var retired: map<Symbol, Retired>
    var defaultPremium: I128
    var defaultPayoff: I128
    var defaultDelayHours: nat
    var maxPayoff: I128
    var maxPayoffRatio: I128

    ghost function State(): GovState reads this {
      GovState(routes, index, retired, defaultPremium, defaultPayoff, defaultDelayHours, maxPayoff, maxPayoffRatio)
    }

    constructor (limits: GovState)
      ensures State() == limits.(routes := map[], index := map[], retired := map[])
    {
      routes, index, retired := map[], map[], map[];
      defaultPremium, defaultPayoff := limits.defaultPremium, limits.defaultPayoff;
      defaultDelayHours := limits.defaultDelayHours;
      maxPayoff, maxPayoffRatio := limits.maxPayoff, limits.maxPayoffRatio;
    }

    method CheckTerms(premium: I128, payoff: I128, delayHours: nat) returns (r: Result<()>)
      ensures r == AssertTermsValid(State(), premium, payoff, delayHours)
    {
      if premium <= 0 { return Err(PremiumMustBePositive); }
      if payoff <= 0 { return Err(PayoffMustBePositive); }
      if payoff <= premium { return Err(PayoffMustExceedPremium); }
      if delayHours == 0 { return Err(DelayHoursMustBePositive); }
      if maxPayoff > 0 && payoff > maxPayoff { return Err(PayoffExceedsCap); }
      if payoff > SaturatingMul(premium, maxPayoffRatio) { return Err(PayoffExceedsPremiumRatio); }
      r := Ok(());
    }

    // A route without its own terms sells at the defaults.
    method Resolve(t: RouteTerms) returns (resolved: Terms)
      ensures resolved == ResolveTerms(State(), t)
    {
      resolved := Terms(OrElse(t.premium, defaultPremium), OrElse(t.payoff, defaultPayoff), OrElse(t.delayHours, defaultDelayHours));
    }

    method CheckRouteTerms(t: RouteTerms) returns (r: Result<()>)
      ensures r == AssertRouteTermsValid(State(), t)
    {
      var resolved := Resolve(t);
      r := CheckTerms(resolved.premium, resolved.payoff, resolved.delayHours);
    }

    // A read that may write: an index entry the ledger lost is recreated.
    method ReadStatus(r: RouteKey) returns (status: RouteStatus)
      modifies this
      ensures (State(), status) == ReadRouteStatus(old(State()), r)
    {
      if r !in routes { return Unknown; }
      var t := routes[r];
      if r.id in index {
        if index[r.id] != r.pair { return Unknown; }
        assert index[r.id := r.pair] == index;
      } else {
        index := index[r.id := r.pair];
      }
      if !t.approved { return Disabled; }
      var resolved := Resolve(t);
      var valid := CheckTermsValid(resolved);
      status := if valid then RouteStatus.Active(resolved) else Disabled;
    }

    method CheckTermsValid(t: Terms) returns (valid: bool)
      ensures valid == TermsValid(State(), t)
      ensures valid <==> Representable(t) && 0 < t.premium < t.payoff && t.delayHours > 0
                         && (maxPayoff != 0 ==> t.payoff <= maxPayoff) && t.payoff <= t.premium * maxPayoffRatio
    {
      ProductDecides(t.premium, t.payoff, maxPayoffRatio);
      valid := Representable(t)
        && t.premium > 0 && t.payoff > 0 && t.payoff > t.premium && t.delayHours > 0
        && (maxPayoff == 0 || t.payoff <= maxPayoff)
        && t.payoff <= SaturatingMul(t.premium, maxPayoffRatio);
    }

    method WhitelistRoute(now: nat, route: RouteKey, premium: Option<I128>, payoff: Option<I128>, delayHours: Option<nat>)
      returns (r: Result<()>)
      modifies this
      ensures Agrees(r, Governance.WhitelistRoute(old(State()), now, route, premium, payoff, delayHours), State())
    {
      hide AssertRouteTermsValid;
      if route.id in index && index[route.id] != route.pair { return Err(FlightIdAlreadyMapped); }
      if route.id in retired {
        var marker := retired[route.id];
        if now < marker.until && marker.pair != route.pair { return Err(FlightIdRetired); }
      }
      if route in routes {
        var existing := routes[route];
        if !(existing.approved && existing.premium == premium && existing.payoff == payoff && existing.delayHours == delayHours) {
          return Err(RouteAlreadyListed);
        }
        var _ :- CheckRouteTerms(existing);
        index := index[route.id := route.pair];
        return Ok(());
      }
      var terms := RouteTerms(premium, payoff, delayHours, true);
      var _ :- CheckRouteTerms(terms);
      routes := routes[route := terms];
      index := index[route.id := route.pair];
      r := Ok(());
    }

    method DisableRoute(route: RouteKey) returns (r: Result<()>)
      modifies this
      ensures Agrees(r, Governance.DisableRoute(old(State()), route), State())
    {
      if route !in routes { return Err(RouteNotFound); }
      var terms := routes[route];
      if !terms.approved { return Err(RouteAlreadyDisabled); }
      routes := routes[route := terms.(approved := false)];
      r := Ok(());
    }

    method EnableRoute(route: RouteKey) returns (r: Result<()>)
      modifies this
      ensures Agrees(r, Governance.EnableRoute(old(State()), route), State())
    {
      if route !in routes { return Err(RouteNotFound); }
      var terms := routes[route];
      if terms.approved { return Err(RouteAlreadyActive); }
      hide AssertRouteTermsValid;
      terms := terms.(approved := true);
      var _ :- CheckRouteTerms(terms);
      if route.id in index && index[route.id] != route.pair { return Err(FlightIdAlreadyMapped); }
      routes := routes[route := terms];
      index := index[route.id := route.pair];
      r := Ok(());
    }

    method RemoveRoute(now: nat, route: RouteKey) returns (r: Result<()>)
      modifies this
      ensures Agrees(r, Governance.RemoveRoute(old(State()), now, route), State())
    {
      if route !in routes { return Err(RouteNotFound); }
      if routes[route].approved { return Err(RouteMustBeDisabledBeforeRemoval); }
      routes := routes - {route};
      var owns := route.id in index ==> index[route.id] == route.pair;
      if owns {
        index := index - {route.id};
        retired := retired[route.id := Retired(route.pair, now + FLIGHT_ID_RETIREMENT)];
      }
      r := Ok(());
    }

    method UpdateRouteTerms(route: RouteKey, premium: Update<I128>, payoff: Update<I128>, delayHours: Update<nat>)
      returns (r: Result<()>)
      modifies this
      ensures Agrees(r, Governance.UpdateRouteTerms(old(State()), route, premium, payoff, delayHours), State())
    {
      hide AssertRouteTermsValid;
      if route !in routes { return Err(RouteNotFound); }
      var terms := routes[route];
      ghost var g := State();
      if route.id in index {
        if index[route.id] != route.pair { return Err(FlightIdAlreadyMapped); }
        assert index[route.id := route.pair] == index;
      } else {
        index := index[route.id := route.pair];
      }
      terms := terms.(premium := ApplyUpdate(premium, terms.premium));
      terms := terms.(payoff := ApplyUpdate(payoff, terms.payoff));
      terms := terms.(delayHours := ApplyUpdate(delayHours, terms.delayHours));
      TermsIgnoreIndex(g, index, terms);
      var _ :- CheckRouteTerms(terms);
      routes := routes[route := terms];
      r := Ok(());
    }

    method SetDefaults(premium: I128, payoff: I128, delayHours: nat) returns (r: Result<()>)
      modifies this
      ensures Agrees(r, Governance.SetDefaults(old(State()), premium, payoff, delayHours), State())
    {
      var _ :- CheckTerms(premium, payoff, delayHours);
      defaultPremium, defaultPayoff, defaultDelayHours := premium, payoff, delayHours;
      r := Ok(());
    }

    method SetTermLimits(cap: I128, ratio: I128) returns (r: Result<()>)
      modifies this
      ensures Agrees(r, Governance.SetTermLimits(old(State()), cap, ratio), State())
    {
      if cap < 0 || ratio < 2 { return Err(InvalidTermLimits); }
      maxPayoff, maxPayoffRatio := cap, ratio;
      r := Ok(());
    }
  }
}
