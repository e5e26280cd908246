/** Claims, expiry sweeps, recovered funds and evicted buckets keep the invariant;
    the pool can always pay what it owes. */
module PoolSteps {
  import opened Results
  import opened Types
  import opened Token
  import opened MapSums
  import Pool
  import opened Controller
  import opened World
  import opened Invariant
  import opened RowSteps
  import opened BucketSums
  import opened SettleSteps

  // A step that leaves rows, listing and bucket outcomes alone.
  lemma RowsUntouched(w: World, w': World)
    requires OracleSide(w) && w'.now >= w.now && w'.archive == w.archive
    requires w'.chain.oracle == w.chain.oracle
    requires w'.log.etas == w.log.etas && w'.log.outcomes == w.log.outcomes && w'.log.evicted == w.log.evicted
    requires w'.chain.pool.configs.Keys == w.chain.pool.configs.Keys
    requires forall k :: k in w.chain.pool.configs ==> SameOutcome(w.chain.pool.configs[k], w'.chain.pool.configs[k])
    ensures OracleSide(w')
  {
    forall j ensures FlightOk(w', j) {
      assert FlightOk(w, j);
    }
    assert forall j :: RowOf(w', j) == RowOf(w, j);
    assert PublicFlights(w') == PublicFlights(w);
  }

  predicate SameOutcome(c: FlightConfig, d: FlightConfig) {
    d.status == c.status && d.delayHours == c.delayHours
  }

  lemma CountOnly(m: map<Key, FlightConfig>, k: Key, n: nat)
    requires k in m
    ensures var m' := m[k := m[k].(claimedCount := n)];
            && Total(m', Collateral) == Total(m, Collateral)
            && Total(m', Policies) == Total(m, Policies) && Total(m', Premiums) == Total(m, Premiums)
            && Total(m', Payouts) == Total(m, Payouts)
            && Total(m', Escrow) == Total(m, Escrow) - Escrow(m[k]) + Escrow(m[k].(claimedCount := n))
  {
    hide Total;
    SumsMove(m, k, m[k].(claimedCount := n));
  }

  lemma CountOnlySales(w: World, w': World, k: Key, n: nat)
    requires SalesOk(w) && k in w.chain.pool.configs
    requires w'.now == w.now && w'.log.sales == w.log.sales && w'.chain.ctrl == w.chain.ctrl
    requires w'.chain.pool.configs == w.chain.pool.configs[k := w.chain.pool.configs[k].(claimedCount := n)]
    requires w'.chain.pool.buyers == w.chain.pool.buyers
    ensures SalesOk(w')
  {
    hide Total;
    CountOnly(w.chain.pool.configs, k, n);
    assert forall x :: SaleOk(w, x) ==> SaleOk(w', x);
  }

  // --- claim ---

  lemma ClaimWeights(p: Pool.PoolState, now: nat, k: Key, who: Person)
    requires PoolKeyOk(p, now, k) && k in p.configs && Pool.Paying(p.configs[k].status)
    requires now < p.configs[k].claimExpiry
    requires who in Pool.At(p.buyers, k) && who !in Pool.At(p.claimed, k)
    ensures var c := p.configs[k];
            c.claimedCount < c.buyerCount
            && c.claimedCount + 1 == |Pool.At(p.claimed, k) + {who}|
            && Escrow(c.(claimedCount := c.claimedCount + 1)) == Escrow(c) - c.payoff
            && Escrow(c) >= c.payoff
  {
    var c := p.configs[k];
    if c.claimedCount == |Pool.At(p.claimed, k)| {
      SubsetCount(Pool.At(p.claimed, k) + {who}, Pool.At(p.buyers, k));
    }
    ManyIsProduct(c.payoff, c.buyerCount - c.claimedCount - 1);
  }

  /** A policy holder who has not claimed and comes before the deadline is paid:
      the pool never lacks the tokens. */
  lemma ClaimAlwaysFunded(w: World, who: Person, k: Key)
    requires Inv(w) && k in w.chain.pool.configs && Pool.Paying(w.chain.pool.configs[k].status)
    requires w.now < w.chain.pool.configs[k].claimExpiry
    requires who in Pool.At(w.chain.pool.buyers, k) && who !in Pool.At(w.chain.pool.claimed, k)
    ensures var r := Pool.Claim(w.chain.pool, w.chain.balances, w.now, who, k);
            r.Ok? && BalanceOf(r.value.1, who) == BalanceOf(w.chain.balances, who) + w.chain.pool.configs[k].payoff
  {
    hide Total;
    assert PoolKeyOk(w.chain.pool, w.now, k);
    ClaimWeights(w.chain.pool, w.now, k, who);
    BucketWithinTotals(w.chain.pool, w.now, k);
  }

  /** Withdrawing no more than the recovered balance never fails for lack of tokens. */
  lemma RecoveredAlwaysFunded(w: World, amount: int)
    requires Inv(w) && 0 < amount <= w.chain.pool.recovered
    ensures Pool.WithdrawRecovered(w.chain.pool, w.chain.balances, amount).Ok?
  {
    hide Total;
    EscrowNonNegative(w.chain.pool, w.now);
  }

  function Claimed(w: World, p: Pool.PoolState, b: Balances, x: Payment): World {
    On(w, w.chain.(pool := p, balances := b)).(log := w.log.(payments := w.log.payments + [x]))
  }

  lemma ClaimKeepsPool(w: World, who: Person, k: Key, p: Pool.PoolState, b: Balances)
    requires PoolOk(w.chain.pool, w.now)
    requires Pool.Claim(w.chain.pool, w.chain.balances, w.now, who, k) == Ok((p, b))
    ensures PoolOk(p, w.now)
  {
    assert PoolKeyOk(w.chain.pool, w.now, k);
    ClaimWeights(w.chain.pool, w.now, k, who);
    forall j ensures PoolKeyOk(p, w.now, j) {
      assert PoolKeyOk(w.chain.pool, w.now, j);
    }
  }

  lemma ClaimKeepsMoney(w: World, who: Person, k: Key, p: Pool.PoolState, b: Balances, x: Payment)
    requires PoolOk(w.chain.pool, w.now) && MoneyOk(w)
    requires Pool.Claim(w.chain.pool, w.chain.balances, w.now, who, k) == Ok((p, b))
    ensures MoneyOk(Claimed(w, p, b, x))
  {
    hide Total;
    assert PoolKeyOk(w.chain.pool, w.now, k);
    ClaimWeights(w.chain.pool, w.now, k, who);
    CountOnly(w.chain.pool.configs, k, w.chain.pool.configs[k].claimedCount + 1);
    var w' := Claimed(w, p, b, x);
    assert PoolFunded(w') && CollateralExact(w');
    assert VaultFunded(w') && VaultSolvent(w');
  }

  lemma ClaimKeepsPayments(w: World, who: Person, k: Key, p: Pool.PoolState, b: Balances)
    requires PaymentsOk(w) && k in w.chain.pool.configs
    requires Pool.Claim(w.chain.pool, w.chain.balances, w.now, who, k) == Ok((p, b))
    ensures PaymentsOk(Claimed(w, p, b, Payment(who, k, w.chain.pool.configs[k].payoff)))
  {
    var x := Payment(who, k, w.chain.pool.configs[k].payoff);
    var w' := Claimed(w, p, b, x);
    assert w'.log.payments[..|w'.log.payments| - 1] == w.log.payments;
  }

  lemma ClaimKeeps(w: World, who: Person, k: Key, p: Pool.PoolState, b: Balances)
    requires Inv(w) && k in w.chain.pool.configs
    requires Pool.Claim(w.chain.pool, w.chain.balances, w.now, who, k) == Ok((p, b))
    ensures Inv(Claimed(w, p, b, Payment(who, k, w.chain.pool.configs[k].payoff)))
  {
    hide Total;
    var x := Payment(who, k, w.chain.pool.configs[k].payoff);
    RowsUntouched(w, Claimed(w, p, b, x));
    ClaimKeepsPool(w, who, k, p, b);
    ClaimKeepsMoney(w, who, k, p, b, x);
    ClaimKeepsPayments(w, who, k, p, b);
    CountOnlySales(w, Claimed(w, p, b, x), k, w.chain.pool.configs[k].claimedCount + 1);
  }

  // --- sweep ---

  function WithPool(w: World, p: Pool.PoolState): World {
    On(w, w.chain.(pool := p))
  }

  lemma SweepKeeps(w: World, k: Key, p: Pool.PoolState)
    requires Inv(w) && Pool.SweepExpired(w.chain.pool, w.now, k) == Ok(p)
    ensures Inv(WithPool(w, p))
  {
    hide Total;
    var c := w.chain.pool.configs[k];
    assert PoolKeyOk(w.chain.pool, w.now, k);
    if p != w.chain.pool {
      RowsUntouched(w, WithPool(w, p));
      SweepKeepsBank(w, k, p);
      CountOnlySales(w, WithPool(w, p), k, c.buyerCount);
    } else {
      assert WithPool(w, p) == w;
    }
  }

  lemma SweepKeepsBank(w: World, k: Key, p: Pool.PoolState)
    requires PoolOk(w.chain.pool, w.now) && MoneyOk(w) && PaymentsOk(w)
    requires Pool.SweepExpired(w.chain.pool, w.now, k) == Ok(p) && p != w.chain.pool
    ensures PoolOk(p, w.now) && MoneyOk(WithPool(w, p)) && PaymentsOk(WithPool(w, p))
  {
    hide Total;
    assert PoolKeyOk(w.chain.pool, w.now, k);
    SweepKeepsPool(w.chain.pool, w.now, k, p);
    SweepMovesDebt(w.chain.pool, w.now, k, p);
    assert PoolFunded(WithPool(w, p)) && CollateralExact(WithPool(w, p));
  }

  lemma SweepKeepsPool(p: Pool.PoolState, now: nat, k: Key, p': Pool.PoolState)
    requires PoolOk(p, now) && Pool.SweepExpired(p, now, k) == Ok(p') && p' != p
    ensures PoolOk(p', now)
  {
    assert PoolKeyOk(p, now, k);
    WeightsOfBucket(p, now, k);
    forall j ensures PoolKeyOk(p', now, j) {
      assert PoolKeyOk(p, now, j);
    }
  }

  // The sweep only renames the debt: from unclaimed payoffs to recovered funds.
  lemma SweepMovesDebt(p: Pool.PoolState, now: nat, k: Key, p': Pool.PoolState)
    requires PoolKeyOk(p, now, k) && Pool.SweepExpired(p, now, k) == Ok(p') && p' != p
    ensures Total(p'.configs, Escrow) + p'.recovered == Total(p.configs, Escrow) + p.recovered
    ensures Total(p'.configs, Collateral) == Total(p.configs, Collateral)
  {
    hide Total;
    var c := p.configs[k];
    var swept := c.(claimedCount := c.buyerCount);
    SweptWeights(c);
    assert p'.configs == p.configs[k := swept] && p'.recovered == p.recovered + Escrow(c);
    TotalPut(p.configs, Escrow, k, swept);
    TotalPut(p.configs, Collateral, k, swept);
  }

  lemma SweptWeights(c: FlightConfig)
    requires Pool.Paying(c.status) && c.claimedCount <= c.buyerCount
    ensures Escrow(c) == c.payoff * (c.buyerCount - c.claimedCount) && Escrow(c.(claimedCount := c.buyerCount)) == 0
  {
    ManyIsProduct(c.payoff, c.buyerCount - c.claimedCount);
  }

  /** Nothing is left to reconcile: settlement already removed the entry. */
  lemma ReconcileFindsNothing(p: Pool.PoolState, now: nat, k: Key)
    requires PoolOk(p, now) && Pool.ReconcileSettledActiveEntry(p, k).Ok?
    ensures Pool.ReconcileSettledActiveEntry(p, k).value == (p, false)
  {
    assert PoolKeyOk(p, now, k);
  }

  lemma WithdrawKeeps(w: World, amount: int, p: Pool.PoolState, b: Balances)
    requires Inv(w) && Pool.WithdrawRecovered(w.chain.pool, w.chain.balances, amount) == Ok((p, b))
    ensures Inv(On(w, w.chain.(pool := p, balances := b)))
  {
    hide Total;
    var w' := On(w, w.chain.(pool := p, balances := b));
    RowsUntouched(w, w');
    WithdrawKeepsPool(w.chain.pool, p, w.now);
    SettlementHistoryFrame(w, w');
    assert PoolFunded(w') && CollateralExact(w') && VaultFunded(w');
  }

  lemma WithdrawKeepsPool(p: Pool.PoolState, p': Pool.PoolState, now: nat)
    requires PoolOk(p, now) && p' == p.(recovered := p'.recovered) && p'.recovered >= 0
    ensures PoolOk(p', now)
  {
    forall j ensures PoolKeyOk(p', now, j) {
      assert PoolKeyOk(p, now, j);
    }
  }

  // Sales, payments and routes survive any step that leaves what they read alone.
  lemma SettlementHistoryFrame(w: World, w': World)
    requires SalesOk(w) && PaymentsOk(w) && RoutesOk(w)
    requires w'.now == w.now && w'.log.sales == w.log.sales && w'.log.payments == w.log.payments
    requires w'.chain.gov == w.chain.gov
    requires w'.chain.ctrl.sold == w.chain.ctrl.sold && w'.chain.ctrl.collected == w.chain.ctrl.collected
    requires w'.chain.ctrl.distributed == w.chain.ctrl.distributed
    requires w'.chain.ctrl.travelerFlights == w.chain.ctrl.travelerFlights
    requires w'.chain.pool.configs == w.chain.pool.configs
    requires w'.chain.pool.buyers == w.chain.pool.buyers && w'.chain.pool.claimed == w.chain.pool.claimed
    ensures SalesOk(w') && PaymentsOk(w') && RoutesOk(w')
  {
    hide Total;
    assert forall x :: SaleOk(w, x) ==> SaleOk(w', x);
  }

  // --- evicted flights ---

  predicate EvictedOpen(w: World, k: Key) {
    k in w.log.evicted && k !in w.chain.oracle.rows && k in w.chain.pool.configs && w.chain.pool.configs[k].status.Open?
  }

  lemma SettleEvictedEffect(w: World, k: Key)
    requires Coherent(w) && PoolOk(w.chain.pool, w.now) && MoneyOk(w)
    ensures var r := Controller.SettleEvictedFlight(w.chain, k);
            && (r.Ok? <==> EvictedOpen(w, k))
            && (r.Ok? ==> var c := w.chain.pool.configs[k];
                          Moved(w, r.value, k, SettledOnTime, c.claimExpiry, c.premium * c.buyerCount)
                          && Controller.SettleEvictedFlight(r.value, k).Err?)
  {
    hide Total;
    assert FlightOk(w, k);
    if EvictedOpen(w, k) {
      ReleaseMoves(w, k);
    }
  }

  lemma EvictedRowFacts(w: World, w': World, k: Key, e: nat, paid: int)
    requires OracleSide(w) && EvictedOpen(w, k)
    requires w' == On(w, w'.chain) && Moved(w, w'.chain, k, SettledOnTime, e, paid)
    ensures OracleSide(w')
  {
    hide Total;
    assert FlightOk(w, k);
    RowRewritten(w, w', k);
  }

  /** Settling an evicted flight never aborts while its bucket is open, releases exactly
      its collateral and premiums, and cannot run twice. */
  lemma SettleEvictedKeeps(w: World, k: Key)
    requires Inv(w)
    ensures var r := Controller.SettleEvictedFlight(w.chain, k);
            && (r.Ok? <==> EvictedOpen(w, k))
            && (r.Ok? ==> Inv(On(w, r.value)) && Controller.SettleEvictedFlight(r.value, k).Err?)
  {
    hide Total;
    hide Controller.SettleEvictedFlight;
    SettleEvictedEffect(w, k);
    if EvictedOpen(w, k) {
      var w' := On(w, Controller.SettleEvictedFlight(w.chain, k).value);
      var c := w.chain.pool.configs[k];
      EvictedRowFacts(w, w', k, c.claimExpiry, c.premium * c.buyerCount);
      ClosedBucketPool(w.chain.pool, w.now, k, SettledOnTime, c.claimExpiry);
      MoneyAfterClose(w, w', k, SettledOnTime, c.claimExpiry);
      HistoryAfterClose(w, w', k, SettledOnTime, c.claimExpiry);
    }
  }
}
