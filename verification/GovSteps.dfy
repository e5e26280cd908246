/** Route lifecycle: one owner per flight id, and the id stays with the pair it was
    sold under until every policy of that sale has aged out. */
module GovSteps {
  import opened Results
  import opened Types
  import opened Governance
  import opened World
  import opened Invariant

  // The owner's check before listing a route.
  predicate Guarded(g: GovState, op: GovOp) {
    op.Whitelist? ==> NoRival(g, op.route)
  }

  /** An accepted listing keeps one route per flight id if and only if no other stored
      route carries the id. The contract's own check of the index is weaker once an index
      entry has lapsed. */
  lemma ListingSafeExactly(g: GovState, now: nat, r: RouteKey, premium: Option<I128>, payoff: Option<I128>, delayHours: Option<nat>)
    requires RightWherePresent(g) && WhitelistRoute(g, now, r, premium, payoff, delayHours).Ok?
    ensures RightWherePresent(WhitelistRoute(g, now, r, premium, payoff, delayHours).value) <==> NoRival(g, r)
  {
    var g' := WhitelistRoute(g, now, r, premium, payoff, delayHours).value;
    hide AssertRouteTermsValid;
    assert r in g'.routes && g.routes.Keys <= g'.routes.Keys;
  }

  /** While the index entry is there, the contract's own check is that guard. */
  lemma IndexImpliesGuard(g: GovState, now: nat, r: RouteKey, premium: Option<I128>, payoff: Option<I128>, delayHours: Option<nat>)
    requires RightWherePresent(g) && r.id in g.index
    requires WhitelistRoute(g, now, r, premium, payoff, delayHours).Ok?
    ensures NoRival(g, r)
  {
  }

  lemma GovKeepsIndex(g: GovState, now: nat, op: GovOp, g': GovState)
    requires RightWherePresent(g) && Guarded(g, op) && GovStep(g, now, op) == Ok(g')
    ensures RightWherePresent(g')
  {
    hide AssertRouteTermsValid, RightWherePresent, NoRival;
    match op {
      case Whitelist(r, _, _, _) =>
        WhitelistShape(g, now, op, g');
        OneMoreRoute(g, g', r);
      case Disable(r) => SameRoutes(g, g', r);
      case Enable(r) => SameRoutes(g, g', r);
      case Remove(r) => FewerRoutes(g, g', r);
      case QueryStatus(r) => SameRoutes(g, g', r);
      case UpdateTerms(r, _, _, _) => SameRoutes(g, g', r);
      case SetDefaults(_, _, _) => SameIndex(g, g');
      case SetTermLimits(_, _) => SameIndex(g, g');
    }
  }

  lemma WhitelistShape(g: GovState, now: nat, op: GovOp, g': GovState)
    requires op.Whitelist? && GovStep(g, now, op) == Ok(g')
    ensures g'.routes.Keys == g.routes.Keys + {op.route} && g'.index == g.index[op.route.id := op.route.pair]
  {
    hide AssertRouteTermsValid;
  }

  lemma OneMoreRoute(g: GovState, g': GovState, r: RouteKey)
    requires RightWherePresent(g) && NoRival(g, r)
    requires g'.routes.Keys == g.routes.Keys + {r} && g'.index == g.index[r.id := r.pair]
    ensures RightWherePresent(g')
  {
    assert forall s :: s in g'.routes <==> s in g.routes || s == r;
  }

  lemma SameRoutes(g: GovState, g': GovState, r: RouteKey)
    requires RightWherePresent(g) && g'.routes.Keys == g.routes.Keys
    requires g'.index == g.index || (r in g.routes && g'.index == g.index[r.id := r.pair])
    ensures RightWherePresent(g')
  {
    assert forall s :: s in g'.routes <==> s in g.routes;
  }

  lemma FewerRoutes(g: GovState, g': GovState, r: RouteKey)
    requires RightWherePresent(g) && g'.routes == g.routes - {r}
    requires g'.index == g.index || g'.index == g.index - {r.id}
    ensures RightWherePresent(g')
  {
  }

  lemma SameIndex(g: GovState, g': GovState)
    requires RightWherePresent(g) && g'.routes == g.routes && g'.index == g.index
    ensures RightWherePresent(g')
  {
  }

  lemma GovKeepsReservation(g: GovState, now: nat, op: GovOp, g': GovState, x: Sale)
    requires RightWherePresent(g) && Guarded(g, op) && GovStep(g, now, op) == Ok(g')
    requires Reserved(g, now, x) && x.time <= now
    ensures Reserved(g', now, x)
  {
    hide AssertRouteTermsValid;
    var sold := RouteKey(x.key.id, x.pair);
    if op.Whitelist? {
      WhitelistKeepsReservation(g, now, op, g', x);
    } else if op.Remove? {
      assert op.route.id == x.key.id && sold in g.routes ==> op.route == sold;
    }
  }

  lemma WhitelistKeepsReservation(g: GovState, now: nat, op: GovOp, g': GovState, x: Sale)
    requires op.Whitelist? && NoRival(g, op.route) && GovStep(g, now, op) == Ok(g')
    requires Reserved(g, now, x)
    ensures Reserved(g', now, x)
  {
    hide AssertRouteTermsValid;
    WhitelistShape(g, now, op, g');
    assert forall s :: s in g'.routes <==> s in g.routes || s == op.route;
  }

  /** A lapsed index entry takes neither the one route per flight id ... */
  lemma LapseKeepsIndex(g: GovState, id: Symbol)
    requires RightWherePresent(g) && LapseIndex(g, id).Ok?
    ensures RightWherePresent(LapseIndex(g, id).value)
  {
  }

  /** ... nor a reservation away. */
  lemma LapseKeepsReservation(g: GovState, now: nat, id: Symbol, x: Sale)
    requires Reserved(g, now, x) && LapseIndex(g, id).Ok?
    ensures Reserved(LapseIndex(g, id).value, now, x)
  {
  }

  /** As long as a sale has not aged out, its flight id reads as active only under the pair
      it was sold under. */
  lemma ActiveMeansSoldPair(g: GovState, now: nat, x: Sale, r: RouteKey)
    requires RightWherePresent(g) && Reserved(g, now, x) && now < x.time + FLIGHT_ID_RETIREMENT
    requires r.id == x.key.id && ReadRouteStatus(g, r).1.Active?
    ensures r.pair == x.pair
  {
  }

  /** Reading a route's status writes nothing but the index entry that lapsed, and answers
      Unknown exactly for routes that are not stored. */
  lemma StatusReadOnlyHeals(g: GovState, r: RouteKey)
    requires RightWherePresent(g)
    ensures ReadRouteStatus(g, r).0
         == if r in g.routes && r.id !in g.index then g.(index := g.index[r.id := r.pair]) else g
    ensures ReadRouteStatus(g, r).1.Unknown? <==> r !in g.routes
    ensures RightWherePresent(ReadRouteStatus(g, r).0)
  {
  }

  /** A route that is advertised as purchasable carries terms that its own
      registration in the pool and the current limits both accept. */
  lemma AdvertisedTermsAdmissible(g: GovState, r: RouteKey)
    requires ReadRouteStatus(g, r).1.Active?
    ensures var t := ReadRouteStatus(g, r).1.terms;
            0 < t.premium < t.payoff && t.delayHours > 0 && TermsValid(g, t)
            && (g.maxPayoff > 0 ==> t.payoff <= g.maxPayoff)
            && (g.maxPayoffRatio >= 2 ==> t.payoff <= t.premium * g.maxPayoffRatio)
  {
    var t := ReadRouteStatus(g, r).1.terms;
    if g.maxPayoffRatio >= 2 {
      SaturationHidesNothing(t.premium, t.payoff, g.maxPayoffRatio);
    }
  }

  /** The panicking and the reading form of the term rules accept the same terms. */
  lemma AssertionMatchesPredicate(g: GovState, premium: I128, payoff: I128, delayHours: nat)
    requires g.maxPayoff >= 0
    ensures AssertTermsValid(g, premium, payoff, delayHours).Ok? <==> TermsValid(g, Terms(premium, payoff, delayHours))
  {
  }

  /** Saturating the product of premium and ratio never changes the comparison with a
      128-bit payoff. */
  lemma SaturationHidesNothing(premium: I128, payoff: I128, ratio: I128)
    requires premium > 0 && payoff > 0
    ensures payoff <= SaturatingMul(premium, ratio) <==> payoff <= premium * ratio
  {
    if ratio > 0 {
      Positive(premium, ratio);
    } else {
      Positive(premium, 1 - ratio);
      assert premium * (1 - ratio) == premium - premium * ratio;
    }
  }

  lemma Positive(a: int, b: int)
    requires a > 0 && b > 0
    ensures a * b > 0
  {
  }

  // --- the calls, route by route ---

  // Terms that may be sold: the limits written out.
  predicate Within(g: GovState, t: Terms) {
    && 0 < t.premium < t.payoff < I128_LIMIT && t.delayHours > 0
    && (g.maxPayoff != 0 ==> t.payoff <= g.maxPayoff) && t.payoff <= t.premium * g.maxPayoffRatio
  }

  // The terms of a route: its own where it has any, the defaults elsewhere.
  function TermsOfRoute(g: GovState, t: RouteTerms): Terms {
    Terms(if t.premium.Some? then t.premium.value else g.defaultPremium,
          if t.payoff.Some? then t.payoff.value else g.defaultPayoff,
          if t.delayHours.Some? then t.delayHours.value else g.defaultDelayHours)
  }

  // A stored route owns its flight id unless the index names another pair.
  predicate Owns(g: GovState, r: RouteKey) {
    r in g.routes && (r.id in g.index ==> g.index[r.id] == r.pair)
  }

  lemma ValidMeansWithin(g: GovState, t: Terms)
    ensures TermsValid(g, t) <==> Within(g, t)
  {
    if 0 < t.premium < t.payoff < I128_LIMIT {
      SaturationHidesNothing(t.premium, t.payoff, g.maxPayoffRatio);
    }
  }

  lemma AssertedMeansWithin(g: GovState, t: RouteTerms)
    requires g.maxPayoff >= 0
    ensures AssertRouteTermsValid(g, t).Ok? <==> Within(g, TermsOfRoute(g, t))
  {
    var own := TermsOfRoute(g, t);
    AssertionMatchesPredicate(g, own.premium, own.payoff, own.delayHours);
    ValidMeansWithin(g, own);
    hide AssertTermsValid, TermsValid, Within;
    assert ResolveTerms(g, t) == own;
  }

  /** A route reads as active, with its own terms or the defaults, exactly when it owns its id,
      is approved and its terms are within the limits; as disabled when it only owns its id. */
  lemma StatusExactly(g: GovState, r: RouteKey)
    ensures ReadRouteStatus(g, r).1
         == if !Owns(g, r) then Unknown
            else if g.routes[r].approved && Within(g, TermsOfRoute(g, g.routes[r]))
            then RouteStatus.Active(TermsOfRoute(g, g.routes[r])) else Disabled
  {
    if r in g.routes {
      ValidMeansWithin(g, TermsOfRoute(g, g.routes[r]));
    }
    hide TermsValid, Within;
  }

  // The entry of `r` is `t`, every other route as it was.
  ghost predicate OneRoute(routes: map<RouteKey, RouteTerms>, routes': map<RouteKey, RouteTerms>, r: RouteKey, t: RouteTerms) {
    && r in routes' && routes'[r] == t
    && (forall s :: s != r ==> (s in routes' <==> s in routes) && (s in routes ==> routes'[s] == routes[s]))
  }

  ghost predicate OneId<T(!new)>(m: map<Symbol, T>, m': map<Symbol, T>, id: Symbol, value: Option<T>) {
    && (if value.Some? then id in m' && m'[id] == value.value else id !in m')
    && (forall j :: j != id ==> (j in m' <==> j in m) && (j in m ==> m'[j] == m[j]))
  }

  /** Listing is accepted exactly when neither the index nor a live retirement gives the id to
      another pair, the terms are within the limits, and a route already there is approved with
      the same terms. It is then stored as given, approved, and owns its id. */
  lemma ListingExactly(g: GovState, now: nat, r: RouteKey, premium: Option<I128>, payoff: Option<I128>, delayHours: Option<nat>)
    requires g.maxPayoff >= 0
    ensures var res := WhitelistRoute(g, now, r, premium, payoff, delayHours); var t := RouteTerms(premium, payoff, delayHours, true);
            && (res.Ok? <==>
                  && (r.id in g.index ==> g.index[r.id] == r.pair)
                  && (r.id in g.retired && now < g.retired[r.id].until ==> g.retired[r.id].pair == r.pair)
                  && Within(g, TermsOfRoute(g, t)) && (r in g.routes ==> g.routes[r] == t))
            && (res.Ok? ==> var g' := res.value;
                  && OneRoute(g.routes, g'.routes, r, t) && OneId(g.index, g'.index, r.id, Some(r.pair))
                  && g' == g.(routes := g'.routes, index := g'.index))
  {
    AssertedMeansWithin(g, RouteTerms(premium, payoff, delayHours, true));
    hide AssertRouteTermsValid, Within, TermsOfRoute;
    assert r in g.routes ==> g.routes[r] == g.routes[r].(premium := g.routes[r].premium);
  }

  /** Disabling takes the approval of an approved route, enabling gives it back to a route that
      may be sold and owns its id. */
  lemma ApprovalExactly(g: GovState, r: RouteKey)
    requires g.maxPayoff >= 0
    ensures var res := DisableRoute(g, r);
            && (res.Ok? <==> r in g.routes && g.routes[r].approved)
            && (res.Ok? ==>
                  && OneRoute(g.routes, res.value.routes, r, g.routes[r].(approved := false))
                  && res.value == g.(routes := res.value.routes))
    ensures var res := EnableRoute(g, r);
            && (res.Ok? <==> Owns(g, r) && !g.routes[r].approved && Within(g, TermsOfRoute(g, g.routes[r])))
            && (res.Ok? ==>
                  && OneRoute(g.routes, res.value.routes, r, g.routes[r].(approved := true))
                  && OneId(g.index, res.value.index, r.id, Some(r.pair))
                  && res.value == g.(routes := res.value.routes, index := res.value.index))
  {
    if r in g.routes {
      AssertedMeansWithin(g, g.routes[r].(approved := true));
      assert TermsOfRoute(g, g.routes[r].(approved := true)) == TermsOfRoute(g, g.routes[r]);
    }
    hide AssertRouteTermsValid, Within, TermsOfRoute;
  }

  /** Only a disabled route is removed. If it owned its id, the id is free and retired for 160
      days. */
  lemma RemovalExactly(g: GovState, now: nat, r: RouteKey)
    ensures var res := RemoveRoute(g, now, r);
            && (res.Ok? <==> r in g.routes && !g.routes[r].approved)
            && (res.Ok? ==> var g' := res.value;
                  && (forall s :: s in g'.routes <==> s in g.routes && s != r)
                  && (forall s :: s in g'.routes ==> g'.routes[s] == g.routes[s])
                  && (Owns(g, r) ==>
                        && OneId(g.index, g'.index, r.id, None)
                        && OneId(g.retired, g'.retired, r.id, Some(Retired(r.pair, now + Days(160)))))
                  && (!Owns(g, r) ==> g'.index == g.index && g'.retired == g.retired)
                  && g' == g.(routes := g'.routes, index := g'.index, retired := g'.retired))
  {
  }

  // An update keeps a field, sets it, or hands it over to the default.
  predicate Updated<T(==)>(u: Update<T>, before: Option<T>, after: Option<T>) {
    || (u.Keep? && after == before) || (u.Set? && after == Some(u.value)) || (u.UseDefault? && after == None)
  }

  /** An update reaches the fields it names and no others, and only if the outcome may be sold. */
  lemma UpdateExactly(g: GovState, r: RouteKey, premium: Update<I128>, payoff: Update<I128>, delayHours: Update<nat>, t: RouteTerms)
    requires g.maxPayoff >= 0 && r in g.routes && t.approved == g.routes[r].approved
    requires Updated(premium, g.routes[r].premium, t.premium) && Updated(payoff, g.routes[r].payoff, t.payoff)
    requires Updated(delayHours, g.routes[r].delayHours, t.delayHours)
    ensures var res := UpdateRouteTerms(g, r, premium, payoff, delayHours);
            && (res.Ok? <==> Owns(g, r) && Within(g, TermsOfRoute(g, t)))
            && (res.Ok? ==>
                  && OneRoute(g.routes, res.value.routes, r, t) && OneId(g.index, res.value.index, r.id, Some(r.pair))
                  && res.value == g.(routes := res.value.routes, index := res.value.index))
  {
    AssertedMeansWithin(g, t);
    hide AssertRouteTermsValid, Within, TermsOfRoute;
  }

  /** Defaults must be terms that may be sold, and limits not negative and at least twofold;
      both are stored as given. */
  lemma SettingsExactly(g: GovState, premium: I128, payoff: I128, delayHours: nat)
    requires g.maxPayoff >= 0
    ensures var res := Governance.SetDefaults(g, premium, payoff, delayHours);
            && (res.Ok? <==> Within(g, Terms(premium, payoff, delayHours)))
            && (res.Ok? ==> res.value == g.(defaultPremium := premium, defaultPayoff := payoff, defaultDelayHours := delayHours))
    ensures forall cap: I128, ratio: I128 ::
              var res := Governance.SetTermLimits(g, cap, ratio);
              (res.Ok? <==> cap >= 0 && ratio >= 2) && (res.Ok? ==> res.value == g.(maxPayoff := cap, maxPayoffRatio := ratio))
  {
    AssertionMatchesPredicate(g, premium, payoff, delayHours);
    ValidMeansWithin(g, Terms(premium, payoff, delayHours));
    hide AssertTermsValid, Within, TermsValid;
  }
}
