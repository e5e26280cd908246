/** Controller: the orchestrating entry points over the state of all contracts. */
module Controller {
  import opened Results
  import opened Types
  import opened ActiveSet
  import opened Token
  import Approvals
  import Governance
  import Oracle
  import Pool
  import Vault

  datatype CtrlState = CtrlState(
    ratio: nat, minLead: nat, claimWindow: nat,
    classifyCursor: nat, settleCursor: nat,
    sold: nat, collected: int, distributed: int,
    gated: bool, approvals: Approvals.Deadlines,
    travelerFlights: map<Address, seq<Key>>)

  datatype Chain = Chain(
    oracle: Oracle.OracleState, pool: Pool.PoolState, vault: Vault.VaultState,
    balances: Balances, gov: Governance.GovState, ctrl: CtrlState)

  function FlightsOf(m: map<Address, seq<Key>>, a: Address): seq<Key> {
    if a in m then m[a] else []
  }

  // A full list loses its oldest entry.
  function AppendTravelerFlight(m: map<Address, seq<Key>>, a: Address, k: Key): map<Address, seq<Key>> {
    var list := FlightsOf(m, a);
    m[a := (if |list| >= MAX_TRAVELER_FLIGHTS then list[1..] else list) + [k]]
  }

  // Later buyers of a bucket transact at the first buyer's terms.
  function BindTerms(c: Chain, k: Key, current: Terms): Result<Terms> {
    if k !in c.pool.configs then Ok(current)
    else
      var _ :- Need(k in c.oracle.rows, OracleDataUnavailable);
      var cfg := c.pool.configs[k];
      var snapshot := Terms(cfg.premium, cfg.payoff, cfg.delayHours);
      var _ :- Need(Governance.TermsValid(c.gov, snapshot), SnapshotTermsExceedLimits);
      Ok(snapshot)
  }

  function CheckSaleWindow(c: Chain, now: nat, k: Key): Result<()> {
    var _ :- Need(k.date > now + c.ctrl.minLead, DepartureTooSoon);
    var _ :- Need(k.date <= now + MAX_BOOK_AHEAD, DepartureTooFarInFuture);
    var status := Oracle.GetFlightData(c.oracle, k).status;
    var _ :- Need(status.NotInitiated? || status.Active?, FlightNotOpenForPurchase);
    Need(Oracle.IsSaleOpen(c.oracle, now, k), SaleNotOpen)
  }

  // The gates, and the terms the buyer gets; an approval may renew and the index self-heal.
  function AdmitBuyer(c: Chain, now: nat, who: Person, k: Key, pair: Governance.Pair): Result<(Chain, Terms)> {
    var _ :- Need(StartsDay(k.date), DateNotDayAligned);
    var _ :- Need(c.ctrl.gated ==> Approvals.IsApproved(c.ctrl.approvals, now, who), BuyerNotWhitelisted);
    var approvals := if c.ctrl.gated then Approvals.Touch(c.ctrl.approvals, now, who) else c.ctrl.approvals;
    var (gov, status) := Governance.ReadRouteStatus(c.gov, Governance.RouteKey(k.id, pair));
    var _ :- Need(!status.Unknown?, RouteNotWhitelisted);
    var _ :- Need(!status.Disabled?, RouteIsDisabled);
    var _ :- CheckSaleWindow(c, now, k);
    var terms :- BindTerms(c, k, status.terms);
    Ok((c.(gov := gov, ctrl := c.ctrl.(approvals := approvals)), terms))
  }

  // The first sale registers the flight with the pool and the oracle.
  function RegisterSale(c: Chain, k: Key, terms: Terms): Result<Chain> {
    var pool :- Pool.RegisterFlight(c.pool, k, terms);
    var oracle :- Oracle.RegisterFlight(c.oracle, k);
    Ok(c.(pool := pool, oracle := oracle))
  }

  // Solvency, premium, collateral, and the counters.
  function TakePremium(c: Chain, who: Person, k: Key, terms: Terms): Result<Chain> {
    var newLocked := c.vault.locked + terms.payoff;
    var _ :- Need(newLocked >= 0, NegativeLockedCapital);
    var _ :- Need(c.vault.tma >= Vault.RequiredReserve(newLocked, c.ctrl.ratio), InsufficientVaultCapital);
    var balances :- Transfer(c.balances, who, PoolAddress, terms.premium);
    var vault :- Vault.IncreaseLocked(c.vault, terms.payoff);
    var pool :- Pool.AddBuyer(c.pool, k, who);
    Ok(c.(pool := pool, vault := vault, balances := balances,
          ctrl := c.ctrl.(travelerFlights := AppendTravelerFlight(c.ctrl.travelerFlights, who, k),
                          sold := c.ctrl.sold + 1,
                          collected := c.ctrl.collected + terms.premium)))
  }

  function BuyInsurance(c: Chain, now: nat, who: Person, k: Key, pair: Governance.Pair): Result<Chain> {
    var (c1, terms) :- AdmitBuyer(c, now, who, k, pair);
    var c2 :- RegisterSale(c1, k, terms);
    TakePremium(c2, who, k, terms)
  }

  // --- classification ---

  predicate DelayReached(data: FlightData, delayHours: nat) {
    WholeHours(if data.ata < data.eta then 0 else data.ata - data.eta) >= delayHours
  }

  function ClassificationTarget(c: Chain, now: nat, k: Key): Option<FlightStatus> {
    var data := Oracle.GetFlightData(c.oracle, k);
    match data.status
    case Cancelled => Some(ToBeSettledCancelled)
    case Landed =>
      if k !in c.pool.configs then None
      else if DelayReached(data, c.pool.configs[k].delayHours) then Some(ToBeSettledDelayed)
      else Some(ToBeSettledOnTime)
    case Active =>
      if now >= data.eta + ACTIVE_TIMEOUT then Some(ToBeSettledOnTime) else None
    case NotInitiated =>
      if k in c.oracle.rows && now >= k.date + STALE_TIMEOUT then Some(ToBeSettledOnTime) else None
    case _ => None
  }

  // The flag says whether a classification was written.
  function ClassifyOne(c: Chain, now: nat, k: Key): Result<(Chain, bool)> {
    match ClassificationTarget(c, now, k)
    case None => Ok((c, false))
    case Some(status) =>
      var oracle :- Oracle.SetToBeSettled(c.oracle, now, k, status);
      Ok((c.(oracle := oracle), true))
  }

  function ClassifyKeys(c: Chain, now: nat, keys: seq<Key>): Result<Chain>
    decreases |keys|
  {
    if keys == [] then Ok(c)
    else
      var (c', _) :- ClassifyOne(c, now, keys[0]);
      ClassifyKeys(c', now, keys[1..])
  }

  function ClassifyFlights(c: Chain, now: nat): Result<Chain> {
    var n := |c.oracle.active|;
    if n == 0 then Ok(c)
    else
      var c' :- ClassifyKeys(c, now, Window(c.oracle.active, c.ctrl.classifyCursor, MAX_CLASSIFY_BATCH));
      Ok(c'.(ctrl := c'.ctrl.(classifyCursor := NextCursor(c.ctrl.classifyCursor, MAX_CLASSIFY_BATCH, n))))
  }

  function ClassifyFlight(c: Chain, now: nat, k: Key): Result<(Chain, bool)> {
    var _ :- Need(k in c.oracle.active, FlightNotListed);
    ClassifyOne(c, now, k)
  }

  // --- settlement ---

  // Premiums to the vault as income, collateral released, nobody paid.
  function ReleaseBucket(c: Chain, k: Key): Result<Chain>
    requires k in c.pool.configs
  {
    var cfg := c.pool.configs[k];
    var totalPayoff := cfg.payoff * cfg.buyerCount;
    var (pool, balances, income) :- Pool.SettleOnTime(c.pool, c.balances, k);
    var vault1 :- if income > 0 then Vault.RecordPremiumIncome(c.vault, balances, income) else Ok(c.vault);
    var vault :- if totalPayoff > 0 then Vault.DecreaseLocked(vault1, totalPayoff) else Ok(vault1);
    Ok(c.(pool := pool, balances := balances, vault := vault))
  }

  // The vault tops the pool up to the full claimable value before claims open.
  function OpenClaims(c: Chain, now: nat, k: Key, expiry: nat, status: SettlementStatus): Result<Chain>
    requires k in c.pool.configs
  {
    var cfg := c.pool.configs[k];
    var payout := (cfg.payoff - cfg.premium) * cfg.buyerCount;
    var totalPayoff := cfg.payoff * cfg.buyerCount;
    var (vault1, balances) :-
      if payout > 0 then Vault.SendPayout(c.vault, c.balances, PoolAddress, payout) else Ok((c.vault, c.balances));
    var vault :- if totalPayoff > 0 then Vault.DecreaseLocked(vault1, totalPayoff) else Ok(vault1);
    var pool :- Pool.SettleWithClaimWindow(c.pool, balances, now, k, expiry, status);
    Ok(c.(pool := pool, balances := balances, vault := vault))
  }

  // The flag says whether the flight settled.
  function SettleOne(c: Chain, now: nat, k: Key, expiry: nat): Result<(Chain, bool)> {
    var status := Oracle.GetFlightData(c.oracle, k).status;
    if !Classified(status) || k !in c.pool.configs then Ok((c, false))
    else if status.ToBeSettledOnTime? then
      var c' :- ReleaseBucket(c, k);
      var oracle :- Oracle.SetSettled(c'.oracle, now, k);
      Ok((c'.(oracle := oracle), true))
    else
      var cfg := c.pool.configs[k];
      var c' :- OpenClaims(c, now, k, expiry, if status.ToBeSettledDelayed? then SettledDelayed else SettledCancelled);
      var oracle :- Oracle.SetSettled(c'.oracle, now, k);
      Ok((c'.(oracle := oracle,
              ctrl := c'.ctrl.(distributed := c'.ctrl.distributed + cfg.payoff * cfg.buyerCount)), true))
  }

  function SettleKeys(c: Chain, now: nat, keys: seq<Key>, expiry: nat): Result<Chain>
    decreases |keys|
  {
    if keys == [] then Ok(c)
    else
      var (c', _) :- SettleOne(c, now, keys[0], expiry);
      SettleKeys(c', now, keys[1..], expiry)
  }

  function SettleWindow(c: Chain, now: nat, limit: nat): Result<Chain> {
    var n := |c.oracle.active|;
    if n == 0 then Ok(c)
    else
      var c' :- SettleKeys(c, now, Window(c.oracle.active, c.ctrl.settleCursor, limit), now + c.ctrl.claimWindow);
      Ok(c'.(ctrl := c'.ctrl.(settleCursor := NextCursor(c.ctrl.settleCursor, limit, n))))
  }

  function ExecuteSettlements(c: Chain, now: nat): Result<Chain> {
    SettleWindow(c, now, MAX_SETTLE_BATCH)
  }

  function ExecuteSettlementsBounded(c: Chain, now: nat, limit: nat): Result<Chain> {
    SettleWindow(c, now, Max(1, Min(limit, MAX_SETTLE_BATCH)))
  }

  function SettleFlight(c: Chain, now: nat, k: Key): Result<(Chain, bool)> {
    var _ :- Need(k in c.oracle.active, FlightNotListed);
    SettleOne(c, now, k, now + c.ctrl.claimWindow)
  }

  function SettleEvictedFlight(c: Chain, k: Key): Result<Chain> {
    var _ :- Need(k !in c.oracle.rows, FlightDataStillPresent);
    var _ :- Need(k !in c.oracle.active, FlightStillListed);
    var _ :- Need(k in c.pool.configs, FlightNotRegisteredInPool);
    ReleaseBucket(c, k)
  }

  function RunQueueMaintenance(c: Chain, now: nat): Result<Chain>
    requires Vault.Sound(c.vault) && Vault.PositiveAmounts(c.vault.entries)
  {
    var barrier := c.oracle.pending > 0;
    var (vault1, balances) :- Vault.ProcessDepositQueue(c.vault, c.balances, now, barrier);
    var vault :- Vault.ProcessWithdrawalQueue(vault1, now, barrier);
    Ok(c.(vault := vault, balances := balances))
  }

  // --- owner parameters ---

  // Stored here and mirrored into the vault in the same transaction.
  function SetSolvencyRatio(c: Chain, ratio: nat): Result<Chain> {
    var _ :- Need(MIN_SOLVENCY_RATIO <= ratio <= MAX_SOLVENCY_RATIO, SolvencyRatioOutOfBounds);
    var vault :- Vault.SetSolvencyRatio(c.vault, ratio);
    Ok(c.(ctrl := c.ctrl.(ratio := ratio), vault := vault))
  }

  function SetMinLeadTime(c: Chain, seconds: nat): Result<Chain> {
    var _ :- Need(seconds < MAX_BOOK_AHEAD, MinLeadTimeLeavesNoBookingWindow);
    Ok(c.(ctrl := c.ctrl.(minLead := seconds)))
  }

  function SetClaimExpiryWindow(c: Chain, seconds: nat): Result<Chain> {
    var _ :- Need(MIN_CLAIM_EXPIRY_WINDOW <= seconds <= MAX_CLAIM_EXPIRY_WINDOW, ClaimExpiryWindowOutOfBounds);
    Ok(c.(ctrl := c.ctrl.(claimWindow := seconds)))
  }
}
