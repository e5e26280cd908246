/** The Controller as a contract: purchase, classification and settlement as sequences of
    calls into the other contracts, agreeing with the state functions of module Controller. */
module ControllerContract {
  import opened Results
  import opened Types
  import opened ActiveSet
  import opened ActivePages
  import opened TokenContract
  import opened OracleContract
  import opened PoolContract
  import opened VaultContract
  import opened GovernanceContract
  import opened Controller
  import Approvals
  import Governance
  import Oracle
  import Pool
  import Token
  import Vault

  class PolicyController {
    var ratio: nat
    var minLead: nat
    var claimWindow: nat
    var classifyCursor: nat
    var settleCursor: nat
    var sold: nat
    var collected: int
    var distributed: int
    var gated: bool
    var approvals: Approvals.Deadlines
    var travelerFlights: map<Address, seq<Key>>
    const oracle: OracleAggregator
    const pool: FlightPoolManager
    const vault: RiskVault
    const token: AssetToken
    const gov: GovernanceModule

    ghost function Repr(): set<object> {
      {this, oracle, oracle.active, pool, pool.active, vault, token, gov}
    }

    ghost predicate Valid() reads Repr() {
      && oracle.Valid() && pool.Valid() && oracle.active != pool.active
      && pool.token == token && vault.token == token
    }

    ghost function Control(): CtrlState reads this {
      CtrlState(ratio, minLead, claimWindow, classifyCursor, settleCursor, sold, collected, distributed,
                gated, approvals, travelerFlights)
    }

    // The state of all contracts as one value.
    ghost function View(): Chain
      reads Repr()
      requires Valid()
    {
      Chain(oracle.State(), pool.State(), vault.State(), token.balances, gov.State(), Control())
    }

    constructor (token: AssetToken, limits: Governance.GovState, minRequest: int, minLead: nat, claimWindow: nat)
      ensures Valid() && this.token == token && fresh(Repr() - {token})
      ensures View() == Chain(Oracle.OracleState(map[], [], 0, 0, map[]), Pool.PoolState(map[], map[], map[], [], 0),
                              Vault.VaultState(0, 0, 100, 0, map[], [], [], map[], 0, minRequest), token.balances,
                              limits.(routes := map[], index := map[], retired := map[]),
                              CtrlState(100, minLead, claimWindow, 0, 0, 0, 0, 0, false, map[], map[]))
    {
      ratio, this.minLead, this.claimWindow := 100, minLead, claimWindow;
      classifyCursor, settleCursor, sold, collected, distributed := 0, 0, 0, 0, 0;
      gated, approvals, travelerFlights := false, map[], map[];
      oracle := new OracleAggregator();
      pool := new FlightPoolManager(token);
      vault := new RiskVault(token, minRequest);
      gov := new GovernanceModule(limits);
      this.token := token;
    }

    // --- buyer approvals and the traveler index ---

    method IsBuyerWhitelisted(now: nat, who: Address) returns (approved: bool)
      ensures approved == Approvals.IsApproved(approvals, now, who)
    {
      var expiresAt := if who in approvals then approvals[who] else 0;
      approved := now < expiresAt;
    }

    method TouchBuyerWhitelisted(now: nat, who: Address)
      modifies this`approvals
      ensures approvals == Approvals.Touch(old(approvals), now, who)
    {
      var current := if who in approvals then approvals[who] else 0;
      if now < current {
        var expiresAt := now + BUYER_APPROVAL_WINDOW;
        var gain := if expiresAt < current then 0 else expiresAt - current;
        if gain < BUYER_APPROVAL_REFRESH_INTERVAL { return; }
        approvals := approvals[who := expiresAt];
      }
    }

    method WriteBuyerWhitelisted(now: nat, who: Address, allowed: bool)
      modifies this`approvals
      ensures approvals == Approvals.Write(old(approvals), now, who, allowed)
    {
      var expiresAt := if allowed then now + BUYER_APPROVAL_WINDOW else 0;
      approvals := approvals[who := expiresAt];
    }

    method RememberFlight(who: Address, k: Key)
      modifies this`travelerFlights
      ensures travelerFlights == AppendTravelerFlight(old(travelerFlights), who, k)
    {
      var list := if who in travelerFlights then travelerFlights[who] else [];
      if |list| >= MAX_TRAVELER_FLIGHTS { list := list[1..]; }
      list := list + [k];
      travelerFlights := travelerFlights[who := list];
    }

    // --- purchase ---

    method CheckSale(now: nat, k: Key) returns (r: Result<()>)
      requires Valid()
      ensures r == CheckSaleWindow(View(), now, k)
    {
      hide Shape, Flat, Stored, Indexed, NoDuplicates;
      if k.date <= now + minLead { return Err(DepartureTooSoon); }
      if k.date > now + MAX_BOOK_AHEAD { return Err(DepartureTooFarInFuture); }
      var data := oracle.GetFlightData(k);
      if !data.status.NotInitiated? && !data.status.Active? { return Err(FlightNotOpenForPurchase); }
      if !(k in oracle.sales && now < oracle.sales[k]) { return Err(SaleNotOpen); }
      r := Ok(());
    }

    method Bind(k: Key, current: Terms) returns (r: Result<Terms>)
      requires Valid()
      ensures r == BindTerms(View(), k, current)
    {
      hide Shape, Flat, Stored, Indexed, NoDuplicates;
      var existing := pool.GetFlightConfig(k);
      if existing.None? { return Ok(current); }
      if k !in oracle.rows { return Err(OracleDataUnavailable); }
      var snapshot := Terms(existing.value.premium, existing.value.payoff, existing.value.delayHours);
      var valid := gov.CheckTermsValid(snapshot);
      if !valid { return Err(SnapshotTermsExceedLimits); }
      r := Ok(snapshot);
    }

    method Admit(now: nat, who: Person, k: Key, pair: Governance.Pair) returns (r: Result<Terms>)
      requires Valid()
      modifies this`approvals, gov
      ensures Valid()
      ensures match AdmitBuyer(old(View()), now, who, k, pair)
              case Ok((c, terms)) => r == Ok(terms) && View() == c
              case Err(e) => r == Err(e)
    {
      hide Shape, Flat, Stored, Indexed, NoDuplicates;
      hide Governance.ReadRouteStatus, CheckSaleWindow, BindTerms, Approvals.Touch;
      ghost var before := View();
      if !StartsDay(k.date) { return Err(DateNotDayAligned); }
      if gated {
        var approved := IsBuyerWhitelisted(now, who);
        if !approved { return Err(BuyerNotWhitelisted); }
        TouchBuyerWhitelisted(now, who);
      }
      StatusTouchesIndex(before.gov, Governance.RouteKey(k.id, pair));
      var status := gov.ReadStatus(Governance.RouteKey(k.id, pair));
      if status.Unknown? { return Err(RouteNotWhitelisted); }
      if status.Disabled? { return Err(RouteIsDisabled); }
      SaleWindowFrame(before, View(), now, k, status.terms);
      var _ :- CheckSale(now, k);
      r := Bind(k, status.terms);
    }

    method Register(k: Key, terms: Terms) returns (r: Result<()>)
      requires Valid()
      modifies pool, pool.active, oracle, oracle.active
      ensures Valid() && Agrees(r, RegisterSale(old(View()), k, terms), View())
    {
      hide Shape, Flat, Stored, Indexed, NoDuplicates;
      hide Pool.RegisterFlight, Oracle.RegisterFlight;
      var _ :- pool.RegisterFlight(k, terms.premium, terms.payoff, terms.delayHours);
      r := oracle.RegisterFlight(k);
    }

    method Charge(who: Person, k: Key, terms: Terms) returns (r: Result<()>)
      requires Valid()
      modifies this, token, vault, pool
      ensures Valid() && Agrees(r, TakePremium(old(View()), who, k, terms), View())
    {
      hide Shape, Flat, Stored, Indexed, NoDuplicates;
      hide AppendTravelerFlight, Vault.RequiredReserve, Token.Transfer, Vault.IncreaseLocked, Pool.AddBuyer;
      var newLocked := vault.locked + terms.payoff;
      if newLocked < 0 { return Err(NegativeLockedCapital); }
      var required := Vault.RequiredReserve(newLocked, ratio);
      if vault.tma < required { return Err(InsufficientVaultCapital); }
      var _ :- token.Transfer(who, PoolAddress, terms.premium);
      var _ :- vault.IncreaseLocked(terms.payoff);
      var _ :- pool.AddBuyer(k, who);
      RememberFlight(who, k);
      sold := sold + 1;
      collected := collected + terms.premium;
      r := Ok(());
    }

    method BuyInsurance(now: nat, who: Person, k: Key, pair: Governance.Pair) returns (r: Result<()>)
      requires Valid()
      modifies Repr()
      ensures Valid() && Agrees(r, Controller.BuyInsurance(old(View()), now, who, k, pair), View())
    {
      hide Shape, Flat, Stored, Indexed, NoDuplicates;
      hide AdmitBuyer, RegisterSale, TakePremium;
      var terms :- Admit(now, who, k, pair);
      var _ :- Register(k, terms);
      r := Charge(who, k, terms);
    }

    // --- classification ---

    method Target(now: nat, k: Key, data: FlightData) returns (target: Option<FlightStatus>)
      requires Valid() && data == Oracle.GetFlightData(View().oracle, k)
      ensures target == ClassificationTarget(View(), now, k)
    {
      hide Shape, Flat, Stored, Indexed, NoDuplicates;
      match data.status {
        case Cancelled => target := Some(ToBeSettledCancelled);
        case Landed =>
          var existing := pool.GetFlightConfig(k);
          if existing.None? { return None; }
          var delaySeconds := if data.ata < data.eta then 0 else data.ata - data.eta;
          var delayHours := WholeHours(delaySeconds);
          target := if delayHours >= existing.value.delayHours then Some(ToBeSettledDelayed) else Some(ToBeSettledOnTime);
        case Active =>
          var timeoutAt := data.eta + ACTIVE_TIMEOUT;
          target := if now >= timeoutAt then Some(ToBeSettledOnTime) else None;
        case NotInitiated =>
          var staleAt := k.date + STALE_TIMEOUT;
          target := if k in oracle.rows && now >= staleAt then Some(ToBeSettledOnTime) else None;
        case _ => target := None;
      }
    }

    method ClassifyListed(now: nat, k: Key) returns (r: Result<bool>)
      requires Valid()
      modifies oracle
      ensures Valid()
      ensures match ClassifyOne(old(View()), now, k)
              case Ok((c, done)) => r == Ok(done) && View() == c
              case Err(e) => r == Err(e)
    {
      hide Shape, Flat, Stored, Indexed, NoDuplicates;
      hide ClassificationTarget, Oracle.SetToBeSettled;
      var data := oracle.GetFlightData(k);
      var target := Target(now, k, data);
      if target.None? { return Ok(false); }
      var _ :- oracle.SetToBeSettled(now, k, target.value);
      r := Ok(true);
    }

    method ClassifyAll(now: nat, flights: seq<Key>) returns (r: Result<()>)
      requires Valid()
      modifies oracle
      ensures Valid() && Agrees(r, ClassifyKeys(old(View()), now, flights), View())
    {
      hide Shape, Flat, Stored, Indexed, NoDuplicates;
      hide ClassifyOne;
      ghost var before := View();
      var j := 0;
      while j < |flights|
        invariant j <= |flights| && Valid()
        invariant ClassifyKeys(before, now, flights) == ClassifyKeys(View(), now, flights[j..])
      {
        assert flights[j..][0] == flights[j] && flights[j..][1..] == flights[j + 1..];
        var _ :- ClassifyListed(now, flights[j]);
        j := j + 1;
      }
      assert flights[j..] == [];
      r := Ok(());
    }

    method ClassifyFlights(now: nat) returns (r: Result<()>)
      requires Valid()
      modifies this`classifyCursor, oracle
      ensures Valid() && Agrees(r, Controller.ClassifyFlights(old(View()), now), View())
    {
      hide Shape, Flat, Stored, Indexed, NoDuplicates;
      hide ClassifyKeys;
      var len := oracle.active.count;
      if len == 0 { return Ok(()); }
      var cursor := classifyCursor;
      if cursor >= len { cursor := 0; }
      var batch: nat := Min(MAX_CLASSIFY_BATCH, len - cursor);
      var flights := oracle.GetActiveFlightsPage(cursor, batch);
      assert flights == Window(View().oracle.active, View().ctrl.classifyCursor, MAX_CLASSIFY_BATCH);
      var _ :- ClassifyAll(now, flights);
      var stop := cursor + batch;
      classifyCursor := if stop >= len then 0 else stop;
      r := Ok(());
    }

    method ClassifyFlight(now: nat, k: Key) returns (r: Result<bool>)
      requires Valid()
      modifies oracle
      ensures Valid()
      ensures match Controller.ClassifyFlight(old(View()), now, k)
              case Ok((c, done)) => r == Ok(done) && View() == c
              case Err(e) => r == Err(e)
    {
      hide Shape, Flat, Stored, Indexed, NoDuplicates;
      hide ClassifyOne;
      var listed := oracle.IsFlightListed(k);
      if !listed { return Err(FlightNotListed); }
      r := ClassifyListed(now, k);
    }

    // --- settlement ---

    method Release(k: Key, cfg: FlightConfig) returns (r: Result<()>)
      requires Valid() && k in pool.configs && cfg == pool.configs[k]
      modifies pool, pool.active, vault, token
      ensures Valid() && Agrees(r, ReleaseBucket(old(View()), k), View())
    {
      hide Shape, Flat, Stored, Indexed, NoDuplicates;
      hide Pool.SettleOnTime, Vault.RecordPremiumIncome, Vault.DecreaseLocked;
      var totalPayoff := cfg.payoff * cfg.buyerCount;
      var income :- pool.SettleOnTime(k);
      if income > 0 { var _ :- vault.RecordPremiumIncome(income); }
      if totalPayoff > 0 { var _ :- vault.DecreaseLocked(totalPayoff); }
      r := Ok(());
    }

    method FundClaims(now: nat, k: Key, cfg: FlightConfig, expiry: nat, status: SettlementStatus) returns (r: Result<()>)
      requires Valid() && k in pool.configs && cfg == pool.configs[k]
      modifies pool, pool.active, vault, token
      ensures Valid() && Agrees(r, OpenClaims(old(View()), now, k, expiry, status), View())
    {
      hide Shape, Flat, Stored, Indexed, NoDuplicates;
      hide Pool.SettleWithClaimWindow, Vault.SendPayout, Vault.DecreaseLocked;
      var payout := (cfg.payoff - cfg.premium) * cfg.buyerCount;
      var totalPayoff := cfg.payoff * cfg.buyerCount;
      if payout > 0 { var _ :- vault.SendPayout(PoolAddress, payout); }
      if totalPayoff > 0 { var _ :- vault.DecreaseLocked(totalPayoff); }
      r := pool.SettleWithClaimWindow(now, k, expiry, status);
    }

    method SettleListed(now: nat, k: Key, data: FlightData, expiry: nat) returns (r: Result<bool>)
      requires Valid() && data == Oracle.GetFlightData(View().oracle, k)
      modifies this`distributed, oracle, pool, pool.active, vault, token
      ensures Valid()
      ensures match SettleOne(old(View()), now, k, expiry)
              case Ok((c, done)) => r == Ok(done) && View() == c
              case Err(e) => r == Err(e)
    {
      hide Shape, Flat, Stored, Indexed, NoDuplicates;
      hide ReleaseBucket, OpenClaims, Oracle.SetSettled;
      match data.status {
        case ToBeSettledOnTime =>
          var existing := pool.GetFlightConfig(k);
          if existing.None? { return Ok(false); }
          var _ :- Release(k, existing.value);
          var _ :- oracle.SetSettled(now, k);
          r := Ok(true);
        case ToBeSettledDelayed =>
          r := SettlePaying(now, k, expiry, SettledDelayed);
        case ToBeSettledCancelled =>
          r := SettlePaying(now, k, expiry, SettledCancelled);
        case _ => r := Ok(false);
      }
    }

    method SettlePaying(now: nat, k: Key, expiry: nat, status: SettlementStatus) returns (r: Result<bool>)
      requires Valid()
      requires var s := Oracle.GetFlightData(View().oracle, k).status;
        (s.ToBeSettledDelayed? && status.SettledDelayed?) || (s.ToBeSettledCancelled? && status.SettledCancelled?)
      modifies this`distributed, oracle, pool, pool.active, vault, token
      ensures Valid()
      ensures match SettleOne(old(View()), now, k, expiry)
              case Ok((c, done)) => r == Ok(done) && View() == c
              case Err(e) => r == Err(e)
    {
      hide Shape, Flat, Stored, Indexed, NoDuplicates;
      hide ReleaseBucket, OpenClaims, Oracle.SetSettled;
      var existing := pool.GetFlightConfig(k);
      if existing.None? { return Ok(false); }
      var cfg := existing.value;
      var _ :- FundClaims(now, k, cfg, expiry, status);
      var _ :- oracle.SetSettled(now, k);
      distributed := distributed + cfg.payoff * cfg.buyerCount;
      r := Ok(true);
    }

    method SettleAll(now: nat, flights: seq<Key>, expiry: nat) returns (r: Result<()>)
      requires Valid()
      modifies this`distributed, oracle, pool, pool.active, vault, token
      ensures Valid() && Agrees(r, SettleKeys(old(View()), now, flights, expiry), View())
    {
      hide Shape, Flat, Stored, Indexed, NoDuplicates;
      hide SettleOne;
      ghost var before := View();
      var j := 0;
      while j < |flights|
        invariant j <= |flights| && Valid()
        invariant SettleKeys(before, now, flights, expiry) == SettleKeys(View(), now, flights[j..], expiry)
      {
        assert flights[j..][0] == flights[j] && flights[j..][1..] == flights[j + 1..];
        var data := oracle.GetFlightData(flights[j]);
        var _ :- SettleListed(now, flights[j], data, expiry);
        j := j + 1;
      }
      assert flights[j..] == [];
      r := Ok(());
    }

    method SettleWindow(now: nat, limit: nat) returns (r: Result<()>)
      requires Valid()
      modifies this`distributed, this`settleCursor, oracle, pool, pool.active, vault, token
      ensures Valid() && Agrees(r, Controller.SettleWindow(old(View()), now, limit), View())
    {
      hide Shape, Flat, Stored, Indexed, NoDuplicates;
      hide SettleKeys;
      var expiry := now + claimWindow;
      var len := oracle.active.count;
      if len == 0 { return Ok(()); }
      var cursor := settleCursor;
      if cursor >= len { cursor := 0; }
      var batch: nat := Min(limit, len - cursor);
      var flights := oracle.GetActiveFlightsPage(cursor, batch);
      assert flights == Window(View().oracle.active, View().ctrl.settleCursor, limit);
      var _ :- SettleAll(now, flights, expiry);
      var stop := cursor + batch;
      settleCursor := if stop >= len then 0 else stop;
      r := Ok(());
    }

    method ExecuteSettlements(now: nat) returns (r: Result<()>)
      requires Valid()
      modifies this`distributed, this`settleCursor, oracle, pool, pool.active, vault, token
      ensures Valid() && Agrees(r, Controller.ExecuteSettlements(old(View()), now), View())
    {
      hide Shape, Flat, Stored, Indexed, NoDuplicates;
      hide Controller.SettleWindow;
      r := SettleWindow(now, MAX_SETTLE_BATCH);
    }

    method ExecuteSettlementsBounded(now: nat, limit: nat) returns (r: Result<()>)
      requires Valid()
      modifies this`distributed, this`settleCursor, oracle, pool, pool.active, vault, token
      ensures Valid() && Agrees(r, Controller.ExecuteSettlementsBounded(old(View()), now, limit), View())
    {
      hide Shape, Flat, Stored, Indexed, NoDuplicates;
      hide Controller.SettleWindow;
      var clamped := if limit < 1 then 1 else if limit > MAX_SETTLE_BATCH then MAX_SETTLE_BATCH else limit;
      r := SettleWindow(now, clamped);
    }

    method SettleFlight(now: nat, k: Key) returns (r: Result<bool>)
      requires Valid()
      modifies this`distributed, oracle, pool, pool.active, vault, token
      ensures Valid()
      ensures match Controller.SettleFlight(old(View()), now, k)
              case Ok((c, done)) => r == Ok(done) && View() == c
              case Err(e) => r == Err(e)
    {
      hide Shape, Flat, Stored, Indexed, NoDuplicates;
      hide SettleOne;
      var listed := oracle.IsFlightListed(k);
      if !listed { return Err(FlightNotListed); }
      var data := oracle.GetFlightData(k);
      r := SettleListed(now, k, data, now + claimWindow);
    }

    method SettleEvictedFlight(k: Key) returns (r: Result<()>)
      requires Valid()
      modifies pool, pool.active, vault, token
      ensures Valid() && Agrees(r, Controller.SettleEvictedFlight(old(View()), k), View())
    {
      hide Shape, Flat, Stored, Indexed, NoDuplicates;
      hide ReleaseBucket;
      if k in oracle.rows { return Err(FlightDataStillPresent); }
      var listed := oracle.IsFlightListed(k);
      if listed { return Err(FlightStillListed); }
      var existing := pool.GetFlightConfig(k);
      if existing.None? { return Err(FlightNotRegisteredInPool); }
      r := Release(k, existing.value);
    }

    method RunQueueMaintenance(now: nat) returns (r: Result<()>)
      requires Valid() && Vault.Sound(View().vault) && Vault.PositiveAmounts(View().vault.entries)
      modifies vault, token
      ensures Valid() && Agrees(r, Controller.RunQueueMaintenance(old(View()), now), View())
    {
      hide Shape, Flat, Stored, Indexed, NoDuplicates;
      hide Vault.ProcessDepositQueue, Vault.ProcessWithdrawalQueue;
      var barrier := oracle.pending > 0;
      DepositsKeepSound(View(), now, barrier);
      var _ :- vault.ProcessDepositQueue(now, barrier);
      r := vault.ProcessWithdrawalQueue(now, barrier);
    }

    // --- owner parameters ---

    method SetSolvencyRatio(newRatio: nat) returns (r: Result<()>)
      requires Valid()
      modifies this`ratio, vault
      ensures Valid() && Agrees(r, Controller.SetSolvencyRatio(old(View()), newRatio), View())
    {
      hide Shape, Flat, Stored, Indexed, NoDuplicates;
      if newRatio < MIN_SOLVENCY_RATIO || newRatio > MAX_SOLVENCY_RATIO { return Err(SolvencyRatioOutOfBounds); }
      ratio := newRatio;
      r := vault.SetSolvencyRatio(newRatio);
    }

    method SetMinLeadTime(seconds: nat) returns (r: Result<()>)
      requires Valid()
      modifies this
      ensures Valid() && Agrees(r, Controller.SetMinLeadTime(old(View()), seconds), View())
    {
      hide Shape, Flat, Stored, Indexed, NoDuplicates;
      if seconds >= MAX_BOOK_AHEAD { return Err(MinLeadTimeLeavesNoBookingWindow); }
      minLead := seconds;
      r := Ok(());
    }

    method SetClaimExpiryWindow(seconds: nat) returns (r: Result<()>)
      requires Valid()
      modifies this
      ensures Valid() && Agrees(r, Controller.SetClaimExpiryWindow(old(View()), seconds), View())
    {
      hide Shape, Flat, Stored, Indexed, NoDuplicates;
      if seconds < MIN_CLAIM_EXPIRY_WINDOW || seconds > MAX_CLAIM_EXPIRY_WINDOW { return Err(ClaimExpiryWindowOutOfBounds); }
      claimWindow := seconds;
      r := Ok(());
    }
  }

  // The gates after the route lookup do not read approvals or the index.
  lemma SaleWindowFrame(c: Chain, c': Chain, now: nat, k: Key, current: Terms)
    requires c' == c.(gov := c'.gov, ctrl := c.ctrl.(approvals := c'.ctrl.approvals))
    requires c'.gov == c.gov.(index := c'.gov.index)
    ensures CheckSaleWindow(c', now, k) == CheckSaleWindow(c, now, k)
    ensures BindTerms(c', k, current) == BindTerms(c, k, current)
  {
  }

  lemma StatusTouchesIndex(g: Governance.GovState, r: Governance.RouteKey)
    ensures var g' := Governance.ReadRouteStatus(g, r).0; g' == g.(index := g'.index)
  {
  }

  lemma DepositsKeepSound(c: Chain, now: nat, barrier: bool)
    requires Vault.Sound(c.vault) && Vault.PositiveAmounts(c.vault.entries)
    ensures var r := Vault.ProcessDepositQueue(c.vault, c.balances, now, barrier); r.Ok? ==> Vault.Sound(r.value.0)
  {
  }
}
