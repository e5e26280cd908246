/** FlightPoolManager as a contract: escrow, claims and expiry over stored configs, buyer
    flags and the settlement token. */
module PoolContract {
  import opened Results
  import opened Types
  import opened ActivePages
  import opened TokenContract
  import Pool

  class FlightPoolManager {
    var configs: map<Key, FlightConfig>
    var buyers: map<Key, set<Address>>
    var claimed: map<Key, set<Address>>
    var recovered: int
    const active: PagedSet
    const token: AssetToken

    ghost predicate Valid() reads this, active {
      active.Valid() && active.Intact()
    }

    ghost function State(): Pool.PoolState
      reads this, active
      requires Valid()
    {
      Pool.PoolState(configs, buyers, claimed, active.Contents(), recovered)
    }

    constructor (token: AssetToken)
      ensures Valid() && fresh(active) && this.token == token
      ensures State() == Pool.PoolState(map[], map[], map[], [], 0)
    {
      configs, buyers, claimed, recovered := map[], map[], map[], 0;
      this.token := token;
      active := new PagedSet();
    }

    method GetFlightConfig(k: Key) returns (c: Option<FlightConfig>)
      ensures c == if k in configs then Some(configs[k]) else None
    {
      c := if k in configs then Some(configs[k]) else None;
    }

    // Idempotent for equal terms; the first registration locks them.
    method RegisterFlight(k: Key, premium: int, payoff: int, delayHours: nat) returns (r: Result<()>)
      requires Valid()
      modifies this, active
      ensures Valid() && Agrees(r, Pool.RegisterFlight(old(State()), k, Terms(premium, payoff, delayHours)), State())
    {
      if premium <= 0 { return Err(PremiumNotPositive); }
      if payoff <= 0 { return Err(PayoffNotPositive); }
      if payoff <= premium { return Err(PayoffNotAbovePremium); }
      if delayHours == 0 { return Err(DelayHoursNotPositive); }
      if k in configs {
        var existing := configs[k];
        if !(existing.premium == premium && existing.payoff == payoff && existing.delayHours == delayHours) {
          return Err(FlightTermsMismatch);
        }
        return Ok(());
      }
      configs := configs[k := FlightConfig(premium, payoff, delayHours, 0, 0, Open, 0)];
      if active.count >= MAX_ACTIVE_FLIGHTS { return Err(ActiveFlightListFull); }
      r := active.Add(k);
    }

    method AddBuyer(k: Key, who: Address) returns (r: Result<()>)
      requires Valid()
      modifies this
      ensures Valid() && Agrees(r, Pool.AddBuyer(old(State()), k, who), State())
    {
      if k !in configs { return Err(FlightNotRegistered); }
      var cfg := configs[k];
      if !cfg.status.Open? { return Err(FlightNotActive); }
      if who in Pool.At(buyers, k) { return Err(AlreadyBuyer); }
      buyers := buyers[k := Pool.At(buyers, k) + {who}];
      cfg := cfg.(buyerCount := cfg.buyerCount + 1);
      configs := configs[k := cfg];
      r := Ok(());
    }

    // The premium income that went to the vault.
    method SettleOnTime(k: Key) returns (r: Result<int>)
      requires Valid()
      modifies this, active, token
      ensures Valid()
      ensures match Pool.SettleOnTime(old(State()), old(token.balances), k)
              case Ok((p, b, income)) => r == Ok(income) && State() == p && token.balances == b
              case Err(e) => r == Err(e)
    {
      if k !in configs { return Err(FlightNotRegistered); }
      var cfg := configs[k];
      if !cfg.status.Open? { return Err(FlightNotActive); }
      cfg := cfg.(status := SettledOnTime);
      configs := configs[k := cfg];
      var _ := active.Remove(k);
      var total := 0;
      if cfg.buyerCount > 0 {
        total := cfg.premium * cfg.buyerCount;
        var _ :- token.Transfer(PoolAddress, VaultAddress, total);
      }
      r := Ok(total);
    }

    method SettleWithClaimWindow(now: nat, k: Key, expiry: nat, status: SettlementStatus) returns (r: Result<()>)
      requires Valid()
      modifies this, active
      ensures Valid()
      ensures Agrees(r, Pool.SettleWithClaimWindow(old(State()), token.balances, now, k, expiry, status), State())
    {
      if k !in configs { return Err(FlightNotRegistered); }
      var cfg := configs[k];
      if !cfg.status.Open? { return Err(FlightNotActive); }
      if expiry <= now { return Err(ClaimExpiryNotInFuture); }
      var capped := Min(expiry, k.date + MAX_CLAIM_DEADLINE_AFTER_DATE);
      if cfg.buyerCount > 0 {
        var claimable := cfg.payoff * cfg.buyerCount;
        var held := token.Balance(PoolAddress);
        if held < claimable { return Err(PayoutNotReceived); }
      }
      cfg := cfg.(status := status);
      cfg := cfg.(claimExpiry := capped);
      configs := configs[k := cfg];
      var _ := active.Remove(k);
      r := Ok(());
    }

    method Claim(now: nat, who: Address, k: Key) returns (r: Result<()>)
      requires Valid()
      modifies this, token
      ensures Valid()
      ensures Agrees(r, Pool.Claim(old(State()), old(token.balances), now, who, k), (State(), token.balances))
    {
      if k !in configs { return Err(FlightNotRegistered); }
      var cfg := configs[k];
      if !cfg.status.SettledDelayed? && !cfg.status.SettledCancelled? { return Err(FlightNotClaimable); }
      if now >= cfg.claimExpiry { return Err(ClaimWindowClosed); }
      if who !in Pool.At(buyers, k) { return Err(NoPolicy); }
      if who in Pool.At(claimed, k) { return Err(AlreadyClaimed); }
      claimed := claimed[k := Pool.At(claimed, k) + {who}];
      cfg := cfg.(claimedCount := cfg.claimedCount + 1);
      configs := configs[k := cfg];
      r := token.Transfer(PoolAddress, who, cfg.payoff);
    }

    method SweepExpired(now: nat, k: Key) returns (r: Result<()>)
      requires Valid()
      modifies this
      ensures Valid() && Agrees(r, Pool.SweepExpired(old(State()), now, k), State())
    {
      if k !in configs { return Err(FlightNotRegistered); }
      var cfg := configs[k];
      if !cfg.status.SettledDelayed? && !cfg.status.SettledCancelled? { return Err(FlightNotClaimable); }
      if now < cfg.claimExpiry { return Err(ClaimWindowStillOpen); }
      if cfg.claimedCount > cfg.buyerCount { return Err(SubtractionUnderflow); }
      var unclaimed := cfg.payoff * (cfg.buyerCount - cfg.claimedCount);
      if unclaimed == 0 { return Ok(()); }
      recovered := recovered + unclaimed;
      cfg := cfg.(claimedCount := cfg.buyerCount);
      configs := configs[k := cfg];
      r := Ok(());
    }

    method ReconcileSettledActiveEntry(k: Key) returns (r: Result<bool>)
      requires Valid()
      modifies this, active
      ensures Valid()
      ensures match Pool.ReconcileSettledActiveEntry(old(State()), k)
              case Ok((p, removed)) => r == Ok(removed) && State() == p
              case Err(e) => r == Err(e)
    {
      if k !in configs { return Err(FlightNotRegistered); }
      if configs[k].status.Open? { return Err(FlightStillActive); }
      var removed := active.Remove(k);
      r := Ok(removed);
    }

    method WithdrawRecovered(sum: int) returns (r: Result<()>)
      requires Valid()
      modifies this, token
      ensures Valid()
      ensures Agrees(r, Pool.WithdrawRecovered(old(State()), old(token.balances), sum), (State(), token.balances))
    {
      if sum <= 0 { return Err(AmountNotPositive); }
      if sum > recovered { return Err(ExceedsRecoveredBalance); }
      recovered := recovered - sum;
      r := token.Transfer(PoolAddress, OWNER, sum);
    }
  }
}
