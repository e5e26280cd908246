/** FlightPoolManager: escrow, claims and expiry per flight instance. */
module Pool {
  import opened Results
  import opened Types
  import opened ActiveSet
  import opened Token

  datatype PoolState = PoolState(
    configs: map<Key, FlightConfig>,
    buyers: map<Key, set<Address>>,
    claimed: map<Key, set<Address>>,
    active: seq<Key>,
    recovered: int)

  function At(m: map<Key, set<Address>>, k: Key): set<Address> {
    if k in m then m[k] else {}
  }

  predicate Paying(s: SettlementStatus) {
    s.SettledDelayed? || s.SettledCancelled?
  }

  function RegisterFlight(p: PoolState, k: Key, t: Terms): Result<PoolState> {
    var _ :- Need(t.premium > 0, PremiumNotPositive);
    var _ :- Need(t.payoff > 0, PayoffNotPositive);
    var _ :- Need(t.payoff > t.premium, PayoffNotAbovePremium);
    var _ :- Need(t.delayHours != 0, DelayHoursNotPositive);
    if k in p.configs then
      var c := p.configs[k];
      var _ :- Need(c.premium == t.premium && c.payoff == t.payoff && c.delayHours == t.delayHours, FlightTermsMismatch);
      Ok(p)
    else
      var _ :- Need(|p.active| < MAX_ACTIVE_FLIGHTS, ActiveFlightListFull);
      var _ :- Need(k !in p.active, EntryAlreadyInActiveSet);
      Ok(p.(configs := p.configs[k := FlightConfig(t.premium, t.payoff, t.delayHours, 0, 0, Open, 0)],
            active := p.active + [k]))
  }

  function AddBuyer(p: PoolState, k: Key, who: Address): Result<PoolState> {
    var _ :- Need(k in p.configs, FlightNotRegistered);
    var c := p.configs[k];
    var _ :- Need(c.status.Open?, FlightNotActive);
    var _ :- Need(who !in At(p.buyers, k), AlreadyBuyer);
    Ok(p.(buyers := p.buyers[k := At(p.buyers, k) + {who}],
          configs := p.configs[k := c.(buyerCount := c.buyerCount + 1)]))
  }

  // Premiums held since purchase go to the vault.
  function SettleOnTime(p: PoolState, b: Balances, k: Key): Result<(PoolState, Balances, int)> {
    var _ :- Need(k in p.configs, FlightNotRegistered);
    var c := p.configs[k];
    var _ :- Need(c.status.Open?, FlightNotActive);
    var p' := p.(configs := p.configs[k := c.(status := SettledOnTime)], active := SwapRemove(p.active, k));
    if c.buyerCount > 0 then
      var total := c.premium * c.buyerCount;
      var b' :- Transfer(b, PoolAddress, VaultAddress, total);
      Ok((p', b', total))
    else
      Ok((p', b, 0))
  }

  function SettleWithClaimWindow(p: PoolState, b: Balances, now: nat, k: Key, expiry: nat, status: SettlementStatus)
    : Result<PoolState>
  {
    var _ :- Need(k in p.configs, FlightNotRegistered);
    var c := p.configs[k];
    var _ :- Need(c.status.Open?, FlightNotActive);
    var _ :- Need(now < expiry, ClaimExpiryNotInFuture);
    var capped := Min(expiry, k.date + MAX_CLAIM_DEADLINE_AFTER_DATE);
    var _ :- Need(c.buyerCount > 0 ==> c.payoff * c.buyerCount <= BalanceOf(b, PoolAddress), PayoutNotReceived);
    Ok(p.(configs := p.configs[k := c.(status := status, claimExpiry := capped)], active := SwapRemove(p.active, k)))
  }

  function Claim(p: PoolState, b: Balances, now: nat, who: Address, k: Key): Result<(PoolState, Balances)> {
    var _ :- Need(k in p.configs, FlightNotRegistered);
    var c := p.configs[k];
    var _ :- Need(Paying(c.status), FlightNotClaimable);
    var _ :- Need(now < c.claimExpiry, ClaimWindowClosed);
    var _ :- Need(who in At(p.buyers, k), NoPolicy);
    var _ :- Need(who !in At(p.claimed, k), AlreadyClaimed);
    var b' :- Transfer(b, PoolAddress, who, c.payoff);
    Ok((p.(claimed := p.claimed[k := At(p.claimed, k) + {who}],
           configs := p.configs[k := c.(claimedCount := c.claimedCount + 1)]), b'))
  }

  function SweepExpired(p: PoolState, now: nat, k: Key): Result<PoolState> {
    var _ :- Need(k in p.configs, FlightNotRegistered);
    var c := p.configs[k];
    var _ :- Need(Paying(c.status), FlightNotClaimable);
    var _ :- Need(now >= c.claimExpiry, ClaimWindowStillOpen);
    var _ :- Need(c.claimedCount <= c.buyerCount, SubtractionUnderflow);
    var unclaimed := c.payoff * (c.buyerCount - c.claimedCount);
    if unclaimed == 0 then Ok(p)
    else
      Ok(p.(recovered := p.recovered + unclaimed,
            configs := p.configs[k := c.(claimedCount := c.buyerCount)]))
  }

  function ReconcileSettledActiveEntry(p: PoolState, k: Key): Result<(PoolState, bool)> {
    var _ :- Need(k in p.configs, FlightNotRegistered);
    var _ :- Need(!p.configs[k].status.Open?, FlightStillActive);
    Ok((p.(active := SwapRemove(p.active, k)), k in p.active))
  }

  function WithdrawRecovered(p: PoolState, b: Balances, amount: int): Result<(PoolState, Balances)> {
    var _ :- Need(amount > 0, AmountNotPositive);
    var _ :- Need(amount <= p.recovered, ExceedsRecoveredBalance);
    var b' :- Transfer(b, PoolAddress, OWNER, amount);
    Ok((p.(recovered := p.recovered - amount), b'))
  }
}
