/** What travelers, underwriters and operators can rely on in every reachable state. */
module Guarantees {
  import opened Results
  import opened Types
  import opened Token
  import opened MapSums
  import Approvals
  import Governance
  import Oracle
  import Pool
  import Vault
  import opened Controller
  import opened World
  import opened Invariant
  import opened BucketSums
  import opened RowSteps
  import opened SweepSteps
  import opened SettleSteps
  import opened BuySteps
  import opened GovSteps
  import opened EntryPoints
  import opened Runs
  import opened Changes
  import opened History
  import opened Reserve

  /** No bucket mixes physical routes, even when index entries lapse: whoever bought the same
      flight id and date bought it under the same origin and destination. */
  lemma OneRoutePerBucket(w: World, x: Sale, y: Sale)
    requires Reachable(w) && x in w.log.sales && y in w.log.sales && x.key == y.key
    ensures x.pair == y.pair
  {
    hide Reachable, Total;
    ReachableInv(w);
  }

  /** A flight id names at most one stored route. */
  lemma OneRoutePerFlightId(w: World, r: Governance.RouteKey, s: Governance.RouteKey)
    requires Reachable(w) && r in w.chain.gov.routes && s in w.chain.gov.routes && r.id == s.id
    ensures r == s
  {
    hide Reachable, Total;
    ReachableInv(w);
  }

  /** However late settlement runs, a claim deadline never outlives the 180 days for which
      a purchase stays provable. */
  lemma DeadlineWithinProof(w: World, x: Sale)
    requires Reachable(w) && x in w.log.sales
    ensures x.key in w.chain.pool.configs
    ensures var c := w.chain.pool.configs[x.key];
            Pool.Paying(c.status) ==>
              c.claimExpiry <= x.key.date + MAX_CLAIM_DEADLINE_AFTER_DATE <= x.time + BUYER_PROOF_TTL
  {
    hide Reachable, Total;
    ReachableInv(w);
    assert SaleOk(w, x) && PoolKeyOk(w.chain.pool, w.now, x.key);
  }

  /** Over any run a traveler receives nothing or exactly the payoff for one flight, and
      the payoff only as a buyer of a bucket whose claims opened. */
  lemma PaidNothingOrPayoff(w: World, k: Key, a: Address)
    requires Reachable(w)
    ensures var paid := PaidTo(w.log.payments, k, a);
            || paid == 0
            || (k in w.chain.pool.configs && Pool.Paying(w.chain.pool.configs[k].status)
                && a in Pool.At(w.chain.pool.buyers, k) && paid == w.chain.pool.configs[k].payoff)
  {
    hide Reachable, Total;
    ReachableInv(w);
    assert PoolKeyOk(w.chain.pool, w.now, k);
  }

  /** The stored counts are the sizes of the stored sets: buyers always, claims until the
      sweep marks the whole bucket as claimed. */
  lemma CountsMatchSets(w: World, k: Key)
    requires Reachable(w) && k in w.chain.pool.configs
    ensures var p := w.chain.pool; var c := p.configs[k];
            && c.buyerCount == |Pool.At(p.buyers, k)| >= 1
            && Pool.At(p.claimed, k) <= Pool.At(p.buyers, k)
            && (c.claimedCount == |Pool.At(p.claimed, k)| || (c.claimedCount == c.buyerCount && w.now >= c.claimExpiry))
  {
    hide Reachable, Total;
    ReachableInv(w);
    assert PoolKeyOk(w.chain.pool, w.now, k);
  }

  /** Claims open only after a recorded cancellation, or a recorded landing at least the
      locked number of hours late; any other settlement is an arrival in time, a void past
      its timeout, or an evicted flight. */
  lemma SettlementMatchesOutcome(w: World, k: Key)
    requires Reachable(w) && k in w.chain.pool.configs
    ensures match w.chain.pool.configs[k].status
            case Open => true
            case SettledDelayed => LandedLate(w, k)
            case SettledCancelled => WasCancelled(w, k)
            case SettledOnTime => k in w.log.evicted || LandedInTime(w, k) || TimedOut(w, k)
  {
    hide Reachable, Total;
    ReachableInv(w);
    assert FlightOk(w, k);
  }

  /** The settlement barrier is up exactly while some listed flight's outcome is public and
      its money unsettled. */
  lemma BarrierExact(w: World)
    requires Reachable(w)
    ensures w.chain.oracle.pending > 0 <==> exists k :: Listed(w, k) && PublicUnsettled(RowOf(w, k).status)
  {
    hide Reachable, Total;
    ReachableInv(w);
    forall k | Listed(w, k) && PublicUnsettled(RowOf(w, k).status) ensures w.chain.oracle.pending > 0 {
      assert k in PublicFlights(w);
    }
    if w.chain.oracle.pending > 0 {
      var k :| k in PublicFlights(w);
      assert Listed(w, k) && PublicUnsettled(RowOf(w, k).status);
    }
  }

  /** A tombstone, the row of a cancelled flight nobody bought, is never listed, so it is
      never counted and never settled. */
  lemma TombstonesUnlisted(w: World, k: Key)
    requires Reachable(w) && k in w.chain.oracle.rows && k !in w.chain.pool.configs
    ensures !Listed(w, k) && w.chain.oracle.rows[k].status.Cancelled? && k !in PublicFlights(w)
  {
    hide Reachable, Total;
    ReachableInv(w);
    assert FlightOk(w, k);
  }

  /** Outside eviction, the oracle row of a sold flight is settled exactly when its bucket
      is closed, and an unsettled one is listed in both contracts. */
  lemma OracleAndPoolAgree(w: World, k: Key)
    requires Reachable(w) && k in w.chain.pool.configs && k !in w.log.evicted
    ensures RowOf(w, k).status.Settled? <==> !w.chain.pool.configs[k].status.Open?
    ensures !RowOf(w, k).status.Settled? ==> Listed(w, k) && k in w.chain.pool.active
  {
    hide Reachable, Total;
    ReachableInv(w);
    assert FlightOk(w, k) && PoolKeyOk(w.chain.pool, w.now, k);
  }

  /** Settling a listed, classified flight cannot hit a missing-config, not-active,
      not-funded or underflow exit: it closes the bucket and settles the row. */
  lemma ClassifiedFlightSettles(w: World, k: Key)
    requires Reachable(w) && Listed(w, k) && k in w.chain.oracle.rows && Classified(w.chain.oracle.rows[k].status)
    ensures k in w.chain.pool.configs && w.chain.pool.configs[k].status.Open?
    ensures var r := Controller.SettleFlight(w.chain, w.now, k);
            && r.Ok? && r.value.1
            && k in r.value.0.pool.configs && r.value.0.pool.configs[k].status == ClosedAs(w.chain.oracle.rows[k].status)
            && k in r.value.0.oracle.rows && r.value.0.oracle.rows[k].status.Settled?
            && k !in r.value.0.pool.active
  {
    hide Reachable, Total, SettleOne;
    ReachableInv(w);
    assert FlightOk(w, k) && PoolKeyOk(w.chain.pool, w.now, k);
    var expiry := w.now + w.chain.ctrl.claimWindow;
    SettleOneKeeps(w, k, expiry);
    assert PoolKeyOk(On(w, SettleOne(w.chain, w.now, k, expiry).value.0).chain.pool, w.now, k);
  }

  /** A keeper that asks for a listed flight with a row never aborts. It writes a verdict if and
      only if the flight was cancelled, has landed, or has had no outcome for 14 days since its
      estimate, or its date when there is none; the verdict is a delay exactly when the arrival
      is the locked number of hours after the estimate, and a void counts as a new outcome. */
  lemma ClassificationExact(w: World, k: Key)
    requires Reachable(w) && Listed(w, k) && k in w.chain.oracle.rows
    ensures k in w.chain.pool.configs
    ensures var r := Controller.ClassifyFlight(w.chain, w.now, k); var d := w.chain.oracle.rows[k];
            var void := (d.status.Active? && w.now >= d.eta + Days(14)) || (d.status.NotInitiated? && w.now >= k.date + Days(14));
            && r.Ok? && (r.value.1 <==> d.status.Cancelled? || d.status.Landed? || void)
            && (!r.value.1 ==> r.value.0 == w.chain)
            && (r.value.1 ==>
                  && OneRow(w.chain.oracle.rows, r.value.0.oracle.rows, k, d.(
                       status := if d.status.Cancelled? then ToBeSettledCancelled
                                 else if d.status.Landed? && d.ata >= d.eta + Hours(w.chain.pool.configs[k].delayHours)
                                 then ToBeSettledDelayed else ToBeSettledOnTime))
                  && r.value.0 == w.chain.(oracle := w.chain.oracle.(
                       rows := r.value.0.oracle.rows, pending := w.chain.oracle.pending + (if void then 1 else 0))))
  {
    hide Reachable, Total, ClassifyOne;
    ReachableInv(w);
    hide Inv;
    ClassifyOneKeeps(w, k);
  }

  // What settling a bucket of `n` policies changes: premiums become the vault's income, or the
  // vault tops the pool up to the payoffs and claims open until the deadline.
  ghost predicate SettledBucket(w: World, c': Chain, k: Key, n: nat)
    requires k in w.chain.pool.configs && k in w.chain.oracle.rows
  {
    var c, cfg, row := w.chain, w.chain.pool.configs[k], w.chain.oracle.rows[k];
    var pays := !row.status.ToBeSettledOnTime?;
    var topUp, income := if pays then (cfg.payoff - cfg.premium) * n else 0, if pays then 0 else cfg.premium * n;
    && BalanceOf(c'.balances, PoolAddress) == BalanceOf(c.balances, PoolAddress) + topUp - income
    && BalanceOf(c'.balances, VaultAddress) == BalanceOf(c.balances, VaultAddress) - topUp + income
    && (forall a: Address :: a.User? ==> BalanceOf(c'.balances, a) == BalanceOf(c.balances, a))
    && c'.vault == c.vault.(tma := c.vault.tma - topUp + income, locked := c.vault.locked - cfg.payoff * n)
    && OneBucket(c.pool, c'.pool, k, cfg.(
         status := if row.status.ToBeSettledDelayed? then SettledDelayed else if pays then SettledCancelled else SettledOnTime,
         claimExpiry := if pays then Min(w.now + c.ctrl.claimWindow, k.date + Days(90)) else cfg.claimExpiry))
    && OneRow(c.oracle.rows, c'.oracle.rows, k, row.(status := Settled, settledAt := w.now))
    && c'.oracle.pending == c.oracle.pending - 1
    && c'.ctrl == c.ctrl.(distributed := c.ctrl.distributed + (if pays then cfg.payoff * n else 0))
  }

  /** It changes exactly that. */
  lemma SettlementMoves(w: World, k: Key)
    requires Reachable(w) && Listed(w, k) && k in w.chain.oracle.rows && Classified(w.chain.oracle.rows[k].status)
    ensures k in w.chain.pool.configs && Controller.SettleFlight(w.chain, w.now, k).Ok?
    ensures SettledBucket(w, Controller.SettleFlight(w.chain, w.now, k).value.0, k, |Pool.At(w.chain.pool.buyers, k)|)
  {
    hide Reachable, Total, SettleOne, SettledBucket, Settles;
    ReachableInv(w);
    assert FlightOk(w, k) && PoolKeyOk(w.chain.pool, w.now, k);
    PendingPositive(w, k);
    var expiry := w.now + w.chain.ctrl.claimWindow;
    SettleOneKeeps(w, k, expiry);
    hide Inv;
    SettlementFacts(w, SettleOne(w.chain, w.now, k, expiry).value.0, k);
  }

  lemma SettlementFacts(w: World, c: Chain, k: Key)
    requires PoolKeyOk(w.chain.pool, w.now, k) && k in w.chain.pool.configs && w.chain.oracle.pending > 0
    requires k in w.chain.oracle.rows && Classified(w.chain.oracle.rows[k].status)
    requires Settles(w, c, k, w.now + w.chain.ctrl.claimWindow)
    ensures SettledBucket(w, c, k, |Pool.At(w.chain.pool.buyers, k)|)
  {
    hide Total;
    ManyIsProduct(w.chain.pool.configs[k].payoff, w.chain.pool.configs[k].buyerCount);
  }

  /** The aggregate counters are the sums over sales and over buckets. */
  lemma CountersExact(w: World)
    requires Reachable(w)
    ensures w.chain.ctrl.sold == |w.log.sales| == Total(w.chain.pool.configs, Policies)
    ensures w.chain.ctrl.collected == PremiumSum(w.log.sales) == Total(w.chain.pool.configs, Premiums)
    ensures w.chain.ctrl.distributed == Total(w.chain.pool.configs, Payouts)
  {
    hide Reachable, Total;
    ReachableInv(w);
  }

  /** Every token of the pool and of the vault is accounted for, and managed assets cover
      the collateral of all open buckets. */
  lemma TokensAccountedFor(w: World)
    requires Reachable(w)
    ensures PoolFunded(w) && VaultFunded(w) && CollateralExact(w)
    ensures w.chain.vault.tma >= w.chain.vault.locked >= 0
  {
    hide Reachable, Total;
    ReachableInv(w);
  }

  /** Over any run, with as many changes of the solvency ratio as the owner likes, the full
      reserve is met at the end whenever the last accepted raise left it met or a purchase
      was accepted since; a run without either only needs it met at its start. */
  lemma ReserveHeld(w: World, ops: seq<Op>, was: bool)
    requires Reachable(w) && AllAdmissible(w, ops)
    requires was ==> ReserveMet(w.chain.vault)
    requires CoveredAfter(w, ops, was)
    ensures var v := After(w, ops).chain.vault;
            v.locked >= 0 && v.tma >= Vault.RequiredReserve(v.locked, v.ratio)
  {
    hide Reachable, Inv, After, AllAdmissible, CoveredAfter;
    ReachableInv(w);
    RunKeepsReserve(w, ops, was);
  }

  /** A deployment starts with its reserve met. */
  lemma ReserveHeldFromDeployment(w: World, ops: seq<Op>)
    requires Initial(w) && AllAdmissible(w, ops) && CoveredAfter(w, ops, true)
    ensures ReserveMet(After(w, ops).chain.vault)
  {
    hide Inv, After, AllAdmissible, CoveredAfter;
    InitialInv(w);
    RunKeepsReserve(w, ops, true);
  }

  /** A policy that a run records stays as it was sold: later states of the run keep the
      bucket's premium, payoff and delay, and its settlement is never revised. */
  lemma PolicyNeverRevised(w: World, ops: seq<Op>, k: Key)
    requires Reachable(w) && AllAdmissible(w, ops) && k in w.chain.pool.configs
    ensures var w' := After(w, ops);
            && k in w'.chain.pool.configs
            && var c, d := w.chain.pool.configs[k], w'.chain.pool.configs[k];
               && d.premium == c.premium && d.payoff == c.payoff && d.delayHours == c.delayHours
               && (!c.status.Open? ==> d.status == c.status && d.claimExpiry == c.claimExpiry)
  {
    hide Inv, Reachable, After, AllAdmissible;
    ReachableInv(w);
    RunEvolves(w, ops);
    assert FlightEvolves(w, After(w, ops), k);
  }

  /** Along any run the status of a sold, unevicted flight climbs in rank or stays. */
  lemma StatusClimbs(w: World, ops: seq<Op>, k: Key)
    requires Reachable(w) && AllAdmissible(w, ops)
    requires k in w.chain.pool.configs && k !in After(w, ops).log.evicted
    ensures var s, t := RowOf(w, k).status, RowOf(After(w, ops), k).status;
            s == t || (Rank(s) < Rank(t) && exists path :: IsPath(path) && path[0] == s && path[|path| - 1] == t)
  {
    hide Inv, Reachable, After, AllAdmissible;
    ReachableInv(w);
    RunEvolves(w, ops);
    assert FlightEvolves(w, After(w, ops), k);
    OnwardIsReachability(RowOf(w, k).status, RowOf(After(w, ops), k).status);
  }

  // --- single calls ---

  /** The terms of a sale are the bucket's, and satisfy the limits in force at that moment. */
  lemma SaleWithinLimits(c: Chain, now: nat, who: Person, k: Key, pair: Governance.Pair)
    requires BuyInsurance(c, now, who, k, pair).Ok?
    ensures var c' := BuyInsurance(c, now, who, k, pair).value;
            && k in c'.pool.configs && Within(c.gov, TermsOf(c'.pool.configs[k]))
            && (k in c.pool.configs ==> TermsOf(c'.pool.configs[k]) == TermsOf(c.pool.configs[k]))
  {
    hide Governance.TermsValid, Within, Oracle.RegisterFlight, Transfer, Vault.IncreaseLocked, Approvals.IsApproved, CheckSaleWindow;
    ValidMeansWithin(c.gov, TermsOf(BuyInsurance(c, now, who, k, pair).value.pool.configs[k]));
  }

  function TermsOf(c: FlightConfig): Terms {
    Terms(c.premium, c.payoff, c.delayHours)
  }

  // The oracle's authorization is there and has not run out, departure is further off than the
  // lead time and within 90 days, and the flight has neither landed nor been cancelled.
  predicate SaleOpen(c: Chain, now: nat, k: Key) {
    && k in c.oracle.sales && now < c.oracle.sales[k]
    && now + c.ctrl.minLead < k.date <= now + Days(90)
    && (k in c.oracle.rows ==> c.oracle.rows[k].status.NotInitiated? || c.oracle.rows[k].status.Active?)
  }

  // An approved route that owns its flight id, with terms within the limits.
  predicate RouteOpen(g: Governance.GovState, r: Governance.RouteKey) {
    && r in g.routes && g.routes[r].approved && (r.id in g.index ==> g.index[r.id] == r.pair)
    && Within(g, TermsOfRoute(g, g.routes[r]))
  }

  // The first buyer's terms hold for all.
  function TermsFor(c: Chain, k: Key, pair: Governance.Pair): Terms
    requires Governance.RouteKey(k.id, pair) in c.gov.routes
  {
    if k in c.pool.configs then TermsOf(c.pool.configs[k]) else TermsOfRoute(c.gov, c.gov.routes[Governance.RouteKey(k.id, pair)])
  }

  // What a buyer is asked for: a live route, an open sale, capital, and the premium.
  predicate Offered(c: Chain, now: nat, who: Person, k: Key, pair: Governance.Pair) {
    && k.date % 86_400 == 0
    && (c.ctrl.gated ==> who in c.ctrl.approvals && now < c.ctrl.approvals[who])
    && RouteOpen(c.gov, Governance.RouteKey(k.id, pair)) && SaleOpen(c, now, k)
    && (k in c.pool.configs ==> k in c.oracle.rows && Within(c.gov, TermsOf(c.pool.configs[k])))
    && Affordable(c, who, k, TermsFor(c, k, pair))
  }

  // Managed assets cover the reserve for all collateral including this policy's.
  predicate Affordable(c: Chain, who: Person, k: Key, terms: Terms) {
    && (k in c.pool.configs ==> c.pool.configs[k].status.Open?)
    && c.vault.locked + terms.payoff >= 0
    && 100 * c.vault.tma >= (c.vault.locked + terms.payoff) * c.ctrl.ratio
    && BalanceOf(c.balances, who) >= terms.premium
    && who !in Pool.At(c.pool.buyers, k)
    && (k !in c.pool.configs ==> |c.pool.active| < 100_000 && |c.oracle.active| < 100_000)
  }

  /** In a reachable state a purchase commits if and only if the offer stands: terms
      mismatches, duplicate listings and the vault's own lock limit never refuse a buyer whom
      the gates admitted, and a closed bucket refuses one only after an eviction. */
  lemma PurchaseCommitsExactly(w: World, who: Person, k: Key, pair: Governance.Pair)
    requires Reachable(w)
    ensures BuyInsurance(w.chain, w.now, who, k, pair).Ok? <==> Offered(w.chain, w.now, who, k, pair)
    ensures AdmitBuyer(w.chain, w.now, who, k, pair).Ok? && k in w.chain.pool.configs && k !in w.log.evicted
        ==> w.chain.pool.configs[k].status.Open?
  {
    hide Reachable, Total;
    ReachableInv(w);
    assert FlightOk(w, k) && PoolKeyOk(w.chain.pool, w.now, k);
    assert w.chain.vault.locked >= 0 && MIN_SOLVENCY_RATIO <= w.chain.ctrl.ratio;
    hide Inv, BuyInsurance;
    PurchaseExact(w, who, k, pair);
    if AdmitBuyer(w.chain, w.now, who, k, pair).Ok? {
      AdmittedIsUnsettled(w.chain, w.now, who, k, pair);
      AdmissionShape(w, AdmitBuyer(w.chain, w.now, who, k, pair).value.0, who, k, pair, AdmitBuyer(w.chain, w.now, who, k, pair).value.1);
    }
  }

  // What a purchase at terms `t` changes: the premium goes from the buyer to the pool, the payoff
  // is locked, the bucket has one more buyer, and one more policy is counted. A first sale opens
  // the bucket and puts the flight on the oracle's list with a blank row.
  ghost predicate Purchased(c: Chain, c': Chain, who: Person, k: Key, t: Terms) {
    && Paid(c.balances, c'.balances, who, PoolAddress, t.premium)
    && c'.vault == c.vault.(locked := c.vault.locked + t.payoff)
    && OneBucket(c.pool, c'.pool, k, FlightConfig(t.premium, t.payoff, t.delayHours, |Pool.At(c.pool.buyers, k)| + 1, 0, Open,
                                                  if k in c.pool.configs then c.pool.configs[k].claimExpiry else 0))
    && (forall j :: Pool.At(c'.pool.buyers, j) == Pool.At(c.pool.buyers, j) + (if j == k then {who} else {}))
    && c'.pool == c.pool.(configs := c'.pool.configs, buyers := c'.pool.buyers,
                          active := if k in c.pool.configs then c.pool.active else c.pool.active + [k])
    && (if k in c.pool.configs then c'.oracle == c.oracle
        else OneRow(c.oracle.rows, c'.oracle.rows, k, FlightData(NotInitiated, 0, 0, 0))
             && c'.oracle == c.oracle.(rows := c'.oracle.rows, active := c.oracle.active + [k]))
    && c'.ctrl.sold == c.ctrl.sold + 1 && c'.ctrl.collected == c.ctrl.collected + t.premium
  }

  /** An accepted purchase is at the terms of the offer and changes exactly that. */
  lemma PurchaseMoves(w: World, who: Person, k: Key, pair: Governance.Pair)
    requires Reachable(w) && BuyInsurance(w.chain, w.now, who, k, pair).Ok?
    ensures Governance.RouteKey(k.id, pair) in w.chain.gov.routes
    ensures Purchased(w.chain, BuyInsurance(w.chain, w.now, who, k, pair).value, who, k, TermsFor(w.chain, k, pair))
  {
    hide Reachable, Total, Purchased;
    ReachableInv(w);
    assert FlightOk(w, k) && PoolKeyOk(w.chain.pool, w.now, k);
    hide Inv, BuyInsurance, Within, TermsOfRoute, FlightOk, PoolKeyOk, AdmitBuyer, Gated, Bought;
    AdmissionExact(w.chain, w.now, who, k, pair);
    var t := PurchaseShape(w, BuyInsurance(w.chain, w.now, who, k, pair).value, who, k, pair);
    SoldMeansRegistered(w, BuyInsurance(w.chain, w.now, who, k, pair).value, who, k, pair, t);
    PurchaseFacts(w, BuyInsurance(w.chain, w.now, who, k, pair).value, who, k, t);
  }

  lemma SoldMeansRegistered(w: World, c: Chain, who: Person, k: Key, pair: Governance.Pair, t: Terms)
    requires FlightOk(w, k) && Bought(w, c, who, k, t) && Gated(w, c, k, pair)
    ensures k in w.chain.pool.configs <==> k in w.chain.oracle.rows
  {
    hide Transfer, RowReported, StatusJustified;
  }

  lemma PurchaseFacts(w: World, c: Chain, who: Person, k: Key, t: Terms)
    requires PoolKeyOk(w.chain.pool, w.now, k) && Bought(w, c, who, k, t)
    requires k in w.chain.pool.configs <==> k in w.chain.oracle.rows
    requires k in w.chain.pool.configs ==> t == TermsOf(w.chain.pool.configs[k])
    ensures Purchased(w.chain, c, who, k, t)
  {
    hide Transfer;
    TransferPays(w.chain.balances, who, PoolAddress, t.premium);
    BucketAfterSale(w.chain.pool, c.pool, w.now, who, k, t);
    hide OneBucket, Paid;
  }

  lemma BucketAfterSale(p: Pool.PoolState, p': Pool.PoolState, now: nat, who: Person, k: Key, t: Terms)
    requires PoolKeyOk(p, now, k) && PoolJoined(p, p', who, k, t) && (k in p.configs ==> t == TermsOf(p.configs[k]))
    ensures OneBucket(p, p', k, FlightConfig(t.premium, t.payoff, t.delayHours, |Pool.At(p.buyers, k)| + 1, 0, Open,
                                             if k in p.configs then p.configs[k].claimExpiry else 0))
    ensures forall j :: Pool.At(p'.buyers, j) == Pool.At(p.buyers, j) + (if j == k then {who} else {})
  {
  }

  // What of the invariant a purchase depends on; the governance side is not among it.
  lemma PurchaseExact(w: World, who: Person, k: Key, pair: Governance.Pair)
    requires FlightOk(w, k) && PoolKeyOk(w.chain.pool, w.now, k)
    requires w.chain.vault.locked >= 0 && MIN_SOLVENCY_RATIO <= w.chain.ctrl.ratio
    ensures BuyInsurance(w.chain, w.now, who, k, pair).Ok? <==> Offered(w.chain, w.now, who, k, pair)
  {
    hide Affordable, RegisterSale, TakePremium, FlightOk, PoolKeyOk;
    AdmissionExact(w.chain, w.now, who, k, pair);
    var r := AdmitBuyer(w.chain, w.now, who, k, pair);
    if r.Ok? {
      AdmissionShape(w, r.value.0, who, k, pair, r.value.1);
      AdmittedIsUnsettled(w.chain, w.now, who, k, pair);
      SaleExact(w, r.value.0, who, k, r.value.1);
    }
  }

  // The listing of a route as an owner may attempt it, guarded or not.
  datatype Listing = Listing(route: Governance.RouteKey, premium: Option<Governance.I128>,
                             payoff: Option<Governance.I128>, delayHours: Option<nat>)

  function WithListing(w: World, l: Listing): Result<World> {
    var g :- Governance.WhitelistRoute(w.chain.gov, w.now, l.route, l.premium, l.payoff, l.delayHours);
    Ok(On(w, w.chain.(gov := g)))
  }

  /** After an accepted listing, a flight that was sold under another pair can be bought under
      the new one if and only if it is still on offer there; and that ever happens only when
      the listing had a rival, so the guard is exactly what keeps buckets unmixed. */
  lemma SecondPairSellsExactly(w: World, l: Listing, x: Sale, who: Person)
    requires Reachable(w) && WithListing(w, l).Ok? && x in w.log.sales
    requires l.route.id == x.key.id && l.route.pair != x.pair
    ensures var c := WithListing(w, l).value.chain;
            && (BuyInsurance(c, w.now, who, x.key, l.route.pair).Ok? <==> Offered(c, w.now, who, x.key, l.route.pair))
            && (Offered(c, w.now, who, x.key, l.route.pair) ==> !NoRival(w.chain.gov, l.route))
  {
    hide Reachable, Total, WithListing;
    ReachableInv(w);
    assert FlightOk(w, x.key) && PoolKeyOk(w.chain.pool, w.now, x.key);
    assert w.chain.vault.locked >= 0 && MIN_SOLVENCY_RATIO <= w.chain.ctrl.ratio;
    assert SaleOk(w, x) && Reserved(w.chain.gov, w.now, x);
    hide Inv, BuyInsurance, Offered, NoRival, Reserved, SaleOk;
    ListingFrame(w, l, x.key);
    PurchaseExact(WithListing(w, l).value, who, x.key, l.route.pair);
    if Offered(WithListing(w, l).value.chain, w.now, who, x.key, l.route.pair) {
      OfferHasRival(w, l, x, who);
    }
  }

  lemma ListingFrame(w: World, l: Listing, k: Key)
    requires WithListing(w, l).Ok? && FlightOk(w, k)
    ensures var w1 := WithListing(w, l).value;
            w1 == On(w, w.chain.(gov := w1.chain.gov)) && FlightOk(w1, k)
  {
    hide Governance.WhitelistRoute;
  }

  lemma OfferHasRival(w: World, l: Listing, x: Sale, who: Person)
    requires WithListing(w, l).Ok? && SaleOk(w, x) && Reserved(w.chain.gov, w.now, x)
    requires l.route.id == x.key.id && l.route.pair != x.pair
    requires Offered(WithListing(w, l).value.chain, w.now, who, x.key, l.route.pair)
    ensures !NoRival(w.chain.gov, l.route)
  {
    hide Governance.AssertRouteTermsValid, Affordable, Within, TermsOfRoute;
    assert w.now < x.key.date;
    var sold := Governance.RouteKey(x.key.id, x.pair);
    assert sold in w.chain.gov.routes;
  }

  lemma AdmissionExact(c: Chain, now: nat, who: Person, k: Key, pair: Governance.Pair)
    ensures var r := AdmitBuyer(c, now, who, k, pair);
            && (Offered(c, now, who, k, pair) <==> r.Ok? && Affordable(c, who, k, r.value.1))
            && (r.Ok? ==> var t := r.value.1;
                  Governance.RouteKey(k.id, pair) in c.gov.routes && t == TermsFor(c, k, pair)
                  && 0 < t.premium < t.payoff && t.delayHours > 0)
  {
    hide CheckSaleWindow, SaleOpen, Affordable, Governance.ReadRouteStatus, Governance.TermsValid, Within, TermsOfRoute;
    SaleWindowExact(c, now, k);
    StatusExactly(c.gov, Governance.RouteKey(k.id, pair));
    DayStarts(k.date);
    hide StartsDay;
    if k in c.pool.configs {
      ValidMeansWithin(c.gov, TermsOf(c.pool.configs[k]));
      WithinIsSane(c.gov, TermsOf(c.pool.configs[k]));
    }
    if Governance.RouteKey(k.id, pair) in c.gov.routes {
      WithinIsSane(c.gov, TermsOfRoute(c.gov, c.gov.routes[Governance.RouteKey(k.id, pair)]));
    }
  }

  lemma DayStarts(date: nat)
    ensures StartsDay(date) <==> date % 86_400 == 0
  {
  }

  lemma WithinIsSane(g: Governance.GovState, t: Terms)
    ensures Within(g, t) ==> 0 < t.premium < t.payoff && t.delayHours > 0
  {
  }

  /** The gates on the sale itself, in the order the controller checks them. */
  lemma SaleWindowExact(c: Chain, now: nat, k: Key)
    ensures CheckSaleWindow(c, now, k).Ok? <==> SaleOpen(c, now, k)
  {
  }

  lemma ReserveIsCeiling(locked: int, ratio: nat, tma: int)
    requires locked >= 0
    ensures tma >= Vault.RequiredReserve(locked, ratio) <==> 100 * tma >= locked * ratio
  {
  }

  lemma AdmittedIsUnsettled(c: Chain, now: nat, who: Person, k: Key, pair: Governance.Pair)
    requires AdmitBuyer(c, now, who, k, pair).Ok?
    ensures var s := Oracle.GetFlightData(c.oracle, k).status; s.NotInitiated? || s.Active?
  {
    hide Governance.ReadRouteStatus, BindTerms, Approvals.IsApproved;
  }

  lemma SaleExact(w: World, c1: Chain, who: Person, k: Key, terms: Terms)
    requires c1 == w.chain.(gov := c1.gov, ctrl := w.chain.ctrl.(approvals := c1.ctrl.approvals))
    requires FlightOk(w, k) && PoolKeyOk(w.chain.pool, w.now, k)
    requires w.chain.vault.locked >= 0 && MIN_SOLVENCY_RATIO <= w.chain.ctrl.ratio
    requires k in w.chain.pool.configs ==> k in w.chain.oracle.rows && terms == TermsOf(w.chain.pool.configs[k])
    requires var s := Oracle.GetFlightData(w.chain.oracle, k).status; s.NotInitiated? || s.Active?
    requires 0 < terms.premium < terms.payoff && terms.delayHours > 0
    ensures (RegisterSale(c1, k, terms).Ok? && TakePremium(RegisterSale(c1, k, terms).value, who, k, terms).Ok?)
       <==> Affordable(w.chain, who, k, terms)
  {
    hide Vault.RequiredReserve;
    Vault.ReserveCoversLocked(w.chain.vault.locked + terms.payoff, w.chain.ctrl.ratio);
    ReserveIsCeiling(w.chain.vault.locked + terms.payoff, w.chain.ctrl.ratio, w.chain.vault.tma);
  }

  /** On a bucket whose claims opened, exactly one of claiming and sweeping is in time. */
  lemma ClaimAndSweepComplement(p: Pool.PoolState, b: Balances, now: nat, who: Address, k: Key)
    requires PoolOk(p, now) && k in p.configs && Pool.Paying(p.configs[k].status)
    ensures Pool.SweepExpired(p, now, k).Ok? <==> Pool.Claim(p, b, now, who, k) == Err(ClaimWindowClosed)
  {
    assert PoolKeyOk(p, now, k);
  }

  /** A sweep credits what nobody claimed, and only once. */
  lemma SweepCreditsOnce(p: Pool.PoolState, now: nat, later: nat, k: Key)
    requires PoolOk(p, now) && Pool.SweepExpired(p, now, k).Ok? && later >= now
    ensures var p' := Pool.SweepExpired(p, now, k).value;
            p'.recovered == p.recovered + p.configs[k].payoff * (p.configs[k].buyerCount - p.configs[k].claimedCount)
            && Pool.SweepExpired(p', later, k) == Ok(p')
  {
    assert PoolKeyOk(p, now, k);
  }

  /** A settlement so late that the 90-day cap has passed still commits, and the bucket can
      be swept at once. */
  lemma LateSettlementIsSweepable(w: World, k: Key)
    requires Reachable(w) && Listed(w, k) && k in w.chain.oracle.rows
    requires var s := w.chain.oracle.rows[k].status; s.ToBeSettledDelayed? || s.ToBeSettledCancelled?
    requires w.now >= k.date + MAX_CLAIM_DEADLINE_AFTER_DATE
    ensures var r := Controller.SettleFlight(w.chain, w.now, k);
            r.Ok? && Pool.SweepExpired(r.value.0.pool, w.now, k).Ok?
  {
    hide Reachable, Total, SettleOne;
    ReachableInv(w);
    var expiry := w.now + w.chain.ctrl.claimWindow;
    SettleOneKeeps(w, k, expiry);
    assert PoolKeyOk(On(w, SettleOne(w.chain, w.now, k, expiry).value.0).chain.pool, w.now, k);
  }
}
