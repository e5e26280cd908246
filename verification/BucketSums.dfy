/** How the sums over pool buckets move when one bucket changes. */
module BucketSums {
  import opened Types
  import opened MapSums
  import Pool
  import opened Invariant

  lemma Product(a: int, b: int)
    requires a > 0 && b > 0
    ensures a * b >= a && a * b >= b
  {
  }

  lemma {:induction false} ManyIsProduct(x: int, n: nat)
    ensures Many(x, n) == x * n
  {
    if n > 0 {
      ManyIsProduct(x, n - 1);
    }
  }

  lemma WeightsOfBucket(p: Pool.PoolState, now: nat, k: Key)
    requires PoolKeyOk(p, now, k) && k in p.configs
    ensures var c := p.configs[k];
            Escrow(c) >= 0 && Collateral(c) >= 0
            && 0 < c.premium * c.buyerCount < c.payoff * c.buyerCount
            && (c.payoff - c.premium) * c.buyerCount == c.payoff * c.buyerCount - c.premium * c.buyerCount
            && Many(c.premium, c.buyerCount) == c.premium * c.buyerCount
            && Many(c.payoff, c.buyerCount) == c.payoff * c.buyerCount
  {
    var c := p.configs[k];
    ManyIsProduct(c.premium, c.buyerCount);
    ManyIsProduct(c.payoff, c.buyerCount);
    ManyIsProduct(c.payoff, c.buyerCount - c.claimedCount);
    Products(c.premium, c.payoff, c.buyerCount);
    if c.claimedCount < c.buyerCount {
      Product(c.payoff, c.buyerCount - c.claimedCount);
    }
  }

  lemma Products(premium: int, payoff: int, n: int)
    requires 0 < premium < payoff && n > 0
    ensures (payoff - premium) * n == payoff * n - premium * n
    ensures 0 < premium * n < payoff * n
  {
    Product(premium, n);
    Product(payoff - premium, n);
  }

  // An open bucket's escrow and collateral are part of the whole.
  lemma BucketWithinTotals(p: Pool.PoolState, now: nat, k: Key)
    requires PoolOk(p, now) && k in p.configs
    ensures Escrow(p.configs[k]) <= Total(p.configs, Escrow)
    ensures Collateral(p.configs[k]) <= Total(p.configs, Collateral)
  {
    hide Total;
    forall j | j in p.configs ensures Escrow(p.configs[j]) >= 0 && Collateral(p.configs[j]) >= 0 {
      assert PoolKeyOk(p, now, j);
      WeightsOfBucket(p, now, j);
    }
    TotalMember(p.configs, Escrow, k);
    TotalMember(p.configs, Collateral, k);
  }

  lemma EscrowNonNegative(p: Pool.PoolState, now: nat)
    requires PoolOk(p, now)
    ensures Total(p.configs, Escrow) >= 0
  {
    hide Total;
    forall j | j in p.configs ensures Escrow(p.configs[j]) >= 0 {
      assert PoolKeyOk(p, now, j);
      WeightsOfBucket(p, now, j);
    }
    TotalNonNegative(p.configs, Escrow);
  }

  // Every sum moves by the difference at the changed bucket.
  lemma SumsMove(m: map<Key, FlightConfig>, k: Key, c: FlightConfig)
    ensures k in m ==>
      && Total(m[k := c], Escrow) == Total(m, Escrow) - Escrow(m[k]) + Escrow(c)
      && Total(m[k := c], Collateral) == Total(m, Collateral) - Collateral(m[k]) + Collateral(c)
      && Total(m[k := c], Policies) == Total(m, Policies) - Policies(m[k]) + Policies(c)
      && Total(m[k := c], Premiums) == Total(m, Premiums) - Premiums(m[k]) + Premiums(c)
      && Total(m[k := c], Payouts) == Total(m, Payouts) - Payouts(m[k]) + Payouts(c)
    ensures k !in m ==>
      && Total(m[k := c], Escrow) == Total(m, Escrow) + Escrow(c)
      && Total(m[k := c], Collateral) == Total(m, Collateral) + Collateral(c)
      && Total(m[k := c], Policies) == Total(m, Policies) + Policies(c)
      && Total(m[k := c], Premiums) == Total(m, Premiums) + Premiums(c)
      && Total(m[k := c], Payouts) == Total(m, Payouts) + Payouts(c)
  {
    hide Total;
    TotalPut(m, Escrow, k, c);
    TotalPut(m, Collateral, k, c);
    TotalPut(m, Policies, k, c);
    TotalPut(m, Premiums, k, c);
    TotalPut(m, Payouts, k, c);
  }
}
