/** Settlement: from any invariant state a classified flight settles without
    aborting, moves exactly its own money, and keeps the invariant. */
module SettleSteps {
  import opened Results
  import opened Types
  import opened ActiveSet
  import opened Token
  import opened MapSums
  import Oracle
  import Pool
  import Vault
  import opened Controller
  import opened World
  import opened Invariant
  import opened RowSteps
  import opened BucketSums

  // `c` with bucket `k` closed as `status`, `paid` tokens moved from pool to vault
  // (negative: from vault to pool) and the bucket's collateral released.
  ghost predicate Moved(w: World, c: Chain, k: Key, status: SettlementStatus, expiry: nat, paid: int)
    requires k in w.chain.pool.configs
  {
    var cfg := w.chain.pool.configs[k];
    && c == w.chain.(pool := c.pool, balances := c.balances, vault := c.vault)
    && c.pool == w.chain.pool.(configs := w.chain.pool.configs[k := cfg.(status := status, claimExpiry := expiry)],
                               active := SwapRemove(w.chain.pool.active, k))
    && c.vault == w.chain.vault.(tma := w.chain.vault.tma + paid, locked := w.chain.vault.locked - cfg.payoff * cfg.buyerCount)
    && BalanceOf(c.balances, PoolAddress) == BalanceOf(w.chain.balances, PoolAddress) - paid
    && BalanceOf(c.balances, VaultAddress) == BalanceOf(w.chain.balances, VaultAddress) + paid
    && c.balances == w.chain.balances[PoolAddress := BalanceOf(c.balances, PoolAddress)][VaultAddress := BalanceOf(c.balances, VaultAddress)]
  }

  lemma ClaimableNonNegative(v: Vault.VaultState)
    ensures ClaimableTotal(v) >= 0
  {
    TotalNonNegative(v.claimable, Id);
  }

  lemma EscrowedNonNegative(q: seq<Vault.Request>)
    requires Vault.PositiveAmounts(q)
    ensures Vault.SumAmounts(q) >= 0
  {
    if q != [] {
      assert Vault.PositiveAmounts(q[1..]);
      EscrowedNonNegative(q[1..]);
    }
  }

  lemma ReleaseMoves(w: World, k: Key)
    requires PoolOk(w.chain.pool, w.now) && MoneyOk(w)
    requires k in w.chain.pool.configs && w.chain.pool.configs[k].status.Open?
    ensures var r := ReleaseBucket(w.chain, k); var cfg := w.chain.pool.configs[k];
            r.Ok? && Moved(w, r.value, k, SettledOnTime, cfg.claimExpiry, cfg.premium * cfg.buyerCount)
  {
    hide Total;
    assert PoolKeyOk(w.chain.pool, w.now, k);
    WeightsOfBucket(w.chain.pool, w.now, k);
    BucketWithinTotals(w.chain.pool, w.now, k);
    ClaimableNonNegative(w.chain.vault);
    EscrowedNonNegative(w.chain.vault.entries);
  }

  lemma OpenClaimsMoves(w: World, k: Key, expiry: nat, status: SettlementStatus)
    requires PoolOk(w.chain.pool, w.now) && MoneyOk(w)
    requires k in w.chain.pool.configs && w.chain.pool.configs[k].status.Open?
    requires w.now < expiry && Pool.Paying(status)
    ensures var r := OpenClaims(w.chain, w.now, k, expiry, status); var cfg := w.chain.pool.configs[k];
            r.Ok? && Moved(w, r.value, k, status, Min(expiry, k.date + MAX_CLAIM_DEADLINE_AFTER_DATE),
                           -((cfg.payoff - cfg.premium) * cfg.buyerCount))
  {
    hide Total;
    assert PoolKeyOk(w.chain.pool, w.now, k);
    WeightsOfBucket(w.chain.pool, w.now, k);
    BucketWithinTotals(w.chain.pool, w.now, k);
    EscrowNonNegative(w.chain.pool, w.now);
    ClaimableNonNegative(w.chain.vault);
    EscrowedNonNegative(w.chain.vault.entries);
  }

  lemma ClosedBucketPool(p: Pool.PoolState, now: nat, k: Key, status: SettlementStatus, expiry: nat)
    requires PoolOk(p, now) && k in p.configs && p.configs[k].status.Open? && !status.Open?
    requires Pool.Paying(status) ==> expiry <= k.date + MAX_CLAIM_DEADLINE_AFTER_DATE
    ensures PoolOk(p.(configs := p.configs[k := p.configs[k].(status := status, claimExpiry := expiry)],
                      active := SwapRemove(p.active, k)), now)
  {
    var p' := p.(configs := p.configs[k := p.configs[k].(status := status, claimExpiry := expiry)],
                 active := SwapRemove(p.active, k));
    SwapRemoveElements(p.active, k);
    forall j ensures PoolKeyOk(p', now, j) {
      assert PoolKeyOk(p, now, j);
      assert j in p'.active <==> j in Elements(p'.active);
      assert j in p.active <==> j in Elements(p.active);
    }
  }

  // What closing an open bucket does to the pool's debts and to the collateral.
  lemma WeightsAfterClose(p: Pool.PoolState, now: nat, k: Key, status: SettlementStatus, expiry: nat)
    requires PoolKeyOk(p, now, k) && k in p.configs && p.configs[k].status.Open? && !status.Open?
    ensures var c := p.configs[k]; var closed := c.(status := status, claimExpiry := expiry);
            && Escrow(c) == c.premium * c.buyerCount && Collateral(c) == c.payoff * c.buyerCount
            && Escrow(closed) == (if Pool.Paying(status) then c.payoff * c.buyerCount else 0)
            && Collateral(closed) == 0
  {
    var c := p.configs[k];
    ManyIsProduct(c.premium, c.buyerCount);
    ManyIsProduct(c.payoff, c.buyerCount);
  }

  lemma MoneyAfterClose(w: World, w': World, k: Key, status: SettlementStatus, expiry: nat)
    requires PoolOk(w.chain.pool, w.now) && MoneyOk(w)
    requires k in w.chain.pool.configs && w.chain.pool.configs[k].status.Open? && !status.Open?
    requires Moved(w, w'.chain.(oracle := w.chain.oracle, ctrl := w.chain.ctrl), k, status, expiry,
                   Income(w.chain.pool.configs[k], status))
    requires w'.log == w.log && w'.chain.ctrl.ratio == w.chain.ctrl.ratio
    ensures MoneyOk(w')
  {
    hide Total;
    var c := w.chain.pool.configs[k];
    assert PoolKeyOk(w.chain.pool, w.now, k);
    WeightsOfBucket(w.chain.pool, w.now, k);
    WeightsAfterClose(w.chain.pool, w.now, k, status, expiry);
    BucketWithinTotals(w.chain.pool, w.now, k);
    SumsMove(w.chain.pool.configs, k, c.(status := status, claimExpiry := expiry));
    var held, owed := c.premium * c.buyerCount, c.payoff * c.buyerCount;
    assert Income(c, status) == if Pool.Paying(status) then held - owed else held;
    assert PoolFunded(w') && CollateralExact(w');
    assert VaultFunded(w') && VaultSolvent(w');
  }

  // What the vault gains when the bucket closes as `status`.
  function Income(c: FlightConfig, status: SettlementStatus): int {
    if Pool.Paying(status) then -((c.payoff - c.premium) * c.buyerCount) else c.premium * c.buyerCount
  }

  lemma HistoryAfterClose(w: World, w': World, k: Key, status: SettlementStatus, expiry: nat)
    requires SalesOk(w) && PaymentsOk(w) && RoutesOk(w)
    requires k in w.chain.pool.configs && w.chain.pool.configs[k].status.Open? && !status.Open?
    requires w'.now == w.now && w'.log == w.log && w'.chain.gov == w.chain.gov
    requires var c := w.chain.pool.configs[k].(status := status, claimExpiry := expiry);
             w'.chain.pool == w.chain.pool.(configs := w.chain.pool.configs[k := c], active := w'.chain.pool.active)
             && w'.chain.ctrl == w.chain.ctrl.(distributed := w.chain.ctrl.distributed + Payouts(c))
    ensures SalesOk(w') && PaymentsOk(w') && RoutesOk(w')
  {
    hide Total;
    SumsMove(w.chain.pool.configs, k, w'.chain.pool.configs[k]);
    assert forall x :: SaleOk(w, x) ==> SaleOk(w', x);
  }

  /** A listed flight that is classified settles, whatever the rest of the book looks
      like; any other listed flight is left alone. */
  lemma SettleOneKeeps(w: World, k: Key, expiry: nat)
    requires Inv(w) && Listed(w, k) && w.now < expiry
    ensures var r := SettleOne(w.chain, w.now, k, expiry);
            r.Ok? && Inv(On(w, r.value.0))
            && r.value.1 == Classified(Oracle.GetFlightData(w.chain.oracle, k).status)
            && (!r.value.1 ==> r.value.0 == w.chain)
            && (r.value.1 ==> Tracked(w, k) && k in w.chain.oracle.rows && Settles(w, r.value.0, k, expiry))
  {
    hide Total;
    assert FlightOk(w, k);
    if Classified(Oracle.GetFlightData(w.chain.oracle, k).status) {
      ClassifiedSettles(w, k, expiry);
    }
  }

  // The full effect of settling one flight.
  ghost predicate Settles(w: World, c: Chain, k: Key, expiry: nat)
    requires k in w.chain.pool.configs && k in w.chain.oracle.rows
  {
    var cfg := w.chain.pool.configs[k];
    var row := w.chain.oracle.rows[k];
    var status := ClosedAs(row.status);
    var closed := cfg.(status := status, claimExpiry := ExpiryOf(k, cfg, row.status, expiry));
    && Moved(w, c.(oracle := w.chain.oracle, ctrl := w.chain.ctrl), k, status, closed.claimExpiry, Income(cfg, status))
    && c.ctrl == w.chain.ctrl.(distributed := w.chain.ctrl.distributed + Payouts(closed))
    && c.oracle == w.chain.oracle.(rows := w.chain.oracle.rows[k := row.(status := Settled, settledAt := w.now)],
                                   pending := Oracle.Decrement(w.chain.oracle.pending))
  }

  function ClosedAs(status: FlightStatus): SettlementStatus {
    if status.ToBeSettledDelayed? then SettledDelayed
    else if status.ToBeSettledCancelled? then SettledCancelled
    else SettledOnTime
  }

  function ExpiryOf(k: Key, cfg: FlightConfig, status: FlightStatus, expiry: nat): nat {
    if Pool.Paying(ClosedAs(status)) then Min(expiry, k.date + MAX_CLAIM_DEADLINE_AFTER_DATE) else cfg.claimExpiry
  }

  lemma ClassifiedSettles(w: World, k: Key, expiry: nat)
    requires Inv(w) && Listed(w, k) && w.now < expiry
    requires k in w.chain.oracle.rows && Classified(w.chain.oracle.rows[k].status)
    requires Tracked(w, k)
    ensures var r := SettleOne(w.chain, w.now, k, expiry);
            r.Ok? && r.value.1 && Settles(w, r.value.0, k, expiry) && Inv(On(w, r.value.0))
  {
    hide Total;
    hide SettleOne;
    SettleEffect(w, k, expiry);
    var w' := On(w, SettleOne(w.chain, w.now, k, expiry).value.0);
    var cfg, status := w.chain.pool.configs[k], w.chain.oracle.rows[k].status;
    var closed, e := ClosedAs(status), ExpiryOf(k, cfg, status, expiry);
    SettleKeepsRows(w, w', k, expiry);
    ClosedBucketPool(w.chain.pool, w.now, k, closed, e);
    MoneyAfterClose(w, w', k, closed, e);
    HistoryAfterClose(w, w', k, closed, e);
  }

  lemma SettleEffect(w: World, k: Key, expiry: nat)
    requires OracleSide(w) && PoolOk(w.chain.pool, w.now) && MoneyOk(w) && w.now < expiry
    requires k in w.chain.oracle.rows && Classified(w.chain.oracle.rows[k].status)
    requires Tracked(w, k)
    ensures var r := SettleOne(w.chain, w.now, k, expiry);
            r.Ok? && r.value.1 && Settles(w, r.value.0, k, expiry)
            && w.chain.pool.configs[k].status.Open?
  {
    hide Total;
    assert FlightOk(w, k);
    var status := w.chain.oracle.rows[k].status;
    if status.ToBeSettledOnTime? {
      ReleaseMoves(w, k);
    } else {
      OpenClaimsMoves(w, k, expiry, ClosedAs(status));
      ManyIsProduct(w.chain.pool.configs[k].payoff, w.chain.pool.configs[k].buyerCount);
    }
  }

  lemma SettleKeepsRows(w: World, w': World, k: Key, expiry: nat)
    requires OracleSide(w) && Listed(w, k) && Tracked(w, k)
    requires k in w.chain.oracle.rows && Classified(w.chain.oracle.rows[k].status)
    requires Settles(w, w'.chain, k, expiry) && w' == On(w, w'.chain)
    ensures OracleSide(w')
  {
    hide Total;
    assert FlightOk(w, k);
    RowRewritten(w, w', k);
  }
}
