/** The ledger host: submits one step at a time to the contracts, discards the writes of a
    failed call, and so carries out exactly the transition system of module World. */
module Host {
  import opened Results
  import opened Types
  import opened ActivePages
  import opened TokenContract
  import opened ControllerContract
  import opened Controller
  import opened World
  import opened Invariant
  import opened Keepers
  import opened Preservation
  import opened Runs
  import Approvals
  import Governance
  import Oracle
  import Pool
  import Token
  import Vault

  // Everything a failed call may have written.
  datatype Saved = Saved(
    rows: map<Key, FlightData>, pending: nat, pruneCursor: nat, saleEnds: map<Key, nat>,
    oraclePages: Pages, oracleIndex: map<Key, nat>, oracleCount: nat,
    configs: map<Key, FlightConfig>, buyers: map<Key, set<Address>>, claimed: map<Key, set<Address>>, recovered: int,
    poolPages: Pages, poolIndex: map<Key, nat>, poolCount: nat,
    vault: Vault.VaultState, balances: Token.Balances, gov: Governance.GovState, ctrl: CtrlState)

  class Ledger {
    var now: nat
    var archive: map<Key, FlightData>
    ghost var log: Log
    const controller: PolicyController

    ghost function Repr(): set<object> {
      {this} + controller.Repr()
    }

    ghost predicate Valid() reads Repr() {
      controller.Valid()
    }

    ghost function Whole(): World
      reads Repr()
      requires Valid()
    {
      World(now, controller.View(), archive, log)
    }

    constructor (balances: Token.Balances, limits: Governance.GovState, minRequest: int, minLead: nat, claimWindow: nat, time: nat)
      requires Token.BalanceOf(balances, PoolAddress) == Token.BalanceOf(balances, VaultAddress) == 0
      requires minLead < MAX_BOOK_AHEAD && MIN_CLAIM_EXPIRY_WINDOW <= claimWindow <= MAX_CLAIM_EXPIRY_WINDOW
      ensures Valid() && Initial(Whole())
    {
      var token := new AssetToken(balances);
      controller := new PolicyController(token, limits, minRequest, minLead, claimWindow);
      now, archive, log := time, map[], Log([], [], map[], map[], {}, 0, 0);
    }

    method Save() returns (s: Saved)
      requires Valid()
      ensures Holds(s)
    {
      var o, p, v, g, c := controller.oracle, controller.pool, controller.vault, controller.gov, controller;
      s := Saved(
        o.rows, o.pending, o.pruneCursor, o.sales, o.active.pages, o.active.index, o.active.count,
        p.configs, p.buyers, p.claimed, p.recovered, p.active.pages, p.active.index, p.active.count,
        Vault.VaultState(v.tma, v.locked, v.ratio, v.supply, v.shares, v.exits, v.entries, v.claimable, v.nextId, v.minRequest),
        c.token.balances,
        Governance.GovState(g.routes, g.index, g.retired, g.defaultPremium, g.defaultPayoff, g.defaultDelayHours, g.maxPayoff, g.maxPayoffRatio),
        CtrlState(c.ratio, c.minLead, c.claimWindow, c.classifyCursor, c.settleCursor, c.sold, c.collected, c.distributed,
                  c.gated, c.approvals, c.travelerFlights));
    }

    ghost predicate Holds(s: Saved) reads Repr() {
      HoldsPages(s) && HoldsContracts(s)
    }

    ghost predicate HoldsPages(s: Saved) reads Repr() {
      var a, b := controller.oracle.active, controller.pool.active;
      && a.pages == a.whole == s.oraclePages && a.index == s.oracleIndex && a.count == s.oracleCount
      && b.pages == b.whole == s.poolPages && b.index == s.poolIndex && b.count == s.poolCount
    }

    ghost predicate HoldsContracts(s: Saved) reads Repr() {
      var o, p := controller.oracle, controller.pool;
      && o.rows == s.rows && o.pending == s.pending && o.pruneCursor == s.pruneCursor && o.sales == s.saleEnds
      && p.configs == s.configs && p.buyers == s.buyers && p.claimed == s.claimed && p.recovered == s.recovered
      && controller.vault.State() == s.vault && controller.token.balances == s.balances
      && controller.gov.State() == s.gov && controller.Control() == s.ctrl
    }

    method RestoreSet(a: PagedSet, pages: Pages, index: map<Key, nat>, count: nat)
      modifies a
      ensures a.pages == a.whole == pages && a.index == index && a.count == count
    {
      a.pages, a.index, a.count, a.whole := pages, index, count, pages;
    }

    method RestoreOracleAndPool(s: Saved)
      modifies controller.oracle, controller.pool
      ensures var o, p := controller.oracle, controller.pool;
              && o.rows == s.rows && o.pending == s.pending && o.pruneCursor == s.pruneCursor && o.sales == s.saleEnds
              && p.configs == s.configs && p.buyers == s.buyers && p.claimed == s.claimed && p.recovered == s.recovered
    {
      var o, p := controller.oracle, controller.pool;
      o.rows, o.pending, o.pruneCursor, o.sales := s.rows, s.pending, s.pruneCursor, s.saleEnds;
      p.configs, p.buyers, p.claimed, p.recovered := s.configs, s.buyers, s.claimed, s.recovered;
    }

    method RestoreVault(s: Vault.VaultState)
      modifies controller.vault
      ensures controller.vault.State() == s
    {
      var v := controller.vault;
      v.tma, v.locked, v.ratio, v.supply, v.shares := s.tma, s.locked, s.ratio, s.supply, s.shares;
      v.exits, v.entries, v.claimable, v.nextId, v.minRequest := s.exits, s.entries, s.claimable, s.nextId, s.minRequest;
    }

    method RestoreGovernance(s: Governance.GovState)
      modifies controller.gov
      ensures controller.gov.State() == s
    {
      var g := controller.gov;
      g.routes, g.index, g.retired := s.routes, s.index, s.retired;
      g.defaultPremium, g.defaultPayoff, g.defaultDelayHours := s.defaultPremium, s.defaultPayoff, s.defaultDelayHours;
      g.maxPayoff, g.maxPayoffRatio := s.maxPayoff, s.maxPayoffRatio;
    }

    method RestoreControl(s: CtrlState)
      modifies controller
      ensures controller.Control() == s
    {
      var c := controller;
      c.ratio, c.minLead, c.claimWindow := s.ratio, s.minLead, s.claimWindow;
      c.classifyCursor, c.settleCursor := s.classifyCursor, s.settleCursor;
      c.sold, c.collected, c.distributed := s.sold, s.collected, s.distributed;
      c.gated, c.approvals, c.travelerFlights := s.gated, s.approvals, s.travelerFlights;
    }

    method Restore(s: Saved)
      requires controller.oracle.active != controller.pool.active
      modifies controller.Repr()
      ensures Holds(s)
    {
      RestoreSet(controller.oracle.active, s.oraclePages, s.oracleIndex, s.oracleCount);
      RestoreSet(controller.pool.active, s.poolPages, s.poolIndex, s.poolCount);
      RestoreOracleAndPool(s);
      RestoreVault(s.vault);
      controller.token.balances := s.balances;
      RestoreGovernance(s.gov);
      RestoreControl(s.ctrl);
    }

    // --- one step, by party ---

    method RunTick(seconds: nat) returns (r: Result<()>)
      requires Valid()
      modifies this`now
      ensures Valid() && r.Ok? && Agrees(r, EnvironmentStep(old(Whole()), Tick(seconds)), Whole())
    {
      now := now + seconds;
      r := Ok(());
    }

    method RunArchive(k: Key) returns (r: Result<()>)
      requires Valid()
      modifies this`archive, controller.oracle
      ensures r.Ok? ==> Valid()
      ensures Agrees(r, EnvironmentStep(old(Whole()), Op.Archive(k)), if r.Ok? then Whole() else old(Whole()))
      ensures r.Err? ==> archive == old(archive)
    {
      var o := controller.oracle;
      if k !in o.rows { return Err(NotApplicable); }
      archive := archive[k := o.rows[k]];
      o.rows := o.rows - {k};
      r := Ok(());
    }

    method RunRestore(k: Key) returns (r: Result<()>)
      requires Valid()
      modifies controller.oracle
      ensures r.Ok? ==> Valid()
      ensures Agrees(r, EnvironmentStep(old(Whole()), Op.Restore(k)), if r.Ok? then Whole() else old(Whole()))
    {
      var o := controller.oracle;
      if k in o.rows || k !in archive { return Err(NotApplicable); }
      o.rows := o.rows[k := archive[k]];
      r := Ok(());
    }

    method RunGift(who: Person, to: Address, amount: nat) returns (r: Result<()>)
      requires Valid()
      modifies this`log, controller.token
      ensures r.Ok? ==> Valid()
      ensures Agrees(r, EnvironmentStep(old(Whole()), Gift(who, to, amount)), if r.Ok? then Whole() else old(Whole()))
      ensures r.Err? ==> log == old(log)
    {
      hide Token.Transfer;
      var _ :- controller.token.Transfer(who, to, amount);
      log := log.(poolGifts := log.poolGifts + (if to.PoolAddress? then amount else 0),
                  vaultGifts := log.vaultGifts + (if to.VaultAddress? then amount else 0));
      r := Ok(());
    }

    method RunLapse(id: Symbol) returns (r: Result<()>)
      requires Valid()
      modifies controller.gov
      ensures r.Ok? ==> Valid()
      ensures Agrees(r, EnvironmentStep(old(Whole()), Lapse(id)), if r.Ok? then Whole() else old(Whole()))
    {
      var g := controller.gov;
      if id !in g.index { return Err(NotApplicable); }
      g.index := g.index - {id};
      r := Ok(());
    }

    method RunEnvironment(op: Op) returns (r: Result<()>)
      requires Valid() && IsEnvironmentOp(op)
      modifies Repr()
      ensures r.Ok? ==> Valid()
      ensures Agrees(r, EnvironmentStep(old(Whole()), op), if r.Ok? then Whole() else old(Whole()))
      ensures r.Err? ==> now == old(now) && archive == old(archive) && log == old(log)
    {
      hide EnvironmentStep;
      match op {
        case Tick(seconds) => r := RunTick(seconds);
        case Archive(k) => r := RunArchive(k);
        case Restore(k) => r := RunRestore(k);
        case Gift(who, to, amount) => r := RunGift(who, to, amount);
        case Lapse(id) => r := RunLapse(id);
      }
    }

    method RunOracle(op: Op) returns (r: Result<()>)
      requires controller.Valid() && IsAggregatorOp(op)
      modifies controller.oracle, controller.oracle.active
      ensures controller.Valid()
      ensures Agrees(r, OracleStep(old(controller.oracle.State()), now, op), controller.oracle.State())
    {
      hide Oracle.OpenSale, Oracle.SetEstimatedArrival, Oracle.SetLanded, Oracle.SetCancelled, Oracle.PruneSettled;
      hide Oracle.EvictMissingFlight, Oracle.CloseSale;
      var o := controller.oracle;
      match op {
        case OpenSale(k, expiresAt) => r := o.OpenSale(now, k, expiresAt);
        case CloseSale(k) => o.CloseSale(k); r := Ok(());
        case SetEstimatedArrival(k, eta) => r := o.SetEstimatedArrival(k, eta);
        case SetLanded(k, ata) => r := o.SetLanded(k, ata);
        case SetCancelled(k) => r := o.SetCancelled(k);
        case PruneSettled => o.PruneSettled(now); r := Ok(());
        case EvictMissingFlight(k, flag) => r := o.EvictMissingFlight(k, flag);
      }
    }

    method RunSweep(op: Op) returns (r: Result<()>)
      requires controller.Valid() && (op.ClassifyFlights? || op.ExecuteSettlements? || op.ExecuteSettlementsBounded?)
      requires VaultUsable(controller.View().vault)
      modifies controller.Repr()
      ensures controller.Valid()
      ensures Agrees(r, KeeperStep(old(controller.View()), now, op), controller.View())
    {
      hide Controller.ClassifyFlights, Controller.ExecuteSettlements, Controller.ExecuteSettlementsBounded;
      hide Controller.ClassifyFlight, Controller.SettleFlight, Controller.SettleEvictedFlight, Controller.RunQueueMaintenance;
      match op {
        case ClassifyFlights => r := controller.ClassifyFlights(now);
        case ExecuteSettlements => r := controller.ExecuteSettlements(now);
        case ExecuteSettlementsBounded(limit) => r := controller.ExecuteSettlementsBounded(now, limit);
      }
    }

    method RunExact(op: Op) returns (r: Result<()>)
      requires controller.Valid() && (op.ClassifyFlight? || op.SettleFlight? || op.SettleEvictedFlight? || op.RunQueueMaintenance?)
      requires VaultUsable(controller.View().vault)
      modifies controller.Repr()
      ensures controller.Valid()
      ensures Agrees(r, KeeperStep(old(controller.View()), now, op), controller.View())
    {
      hide Controller.ClassifyFlights, Controller.ExecuteSettlements, Controller.ExecuteSettlementsBounded;
      hide Controller.ClassifyFlight, Controller.SettleFlight, Controller.SettleEvictedFlight, Controller.RunQueueMaintenance;
      match op {
        case ClassifyFlight(k) => var _ :- controller.ClassifyFlight(now, k); r := Ok(());
        case SettleFlight(k) => var _ :- controller.SettleFlight(now, k); r := Ok(());
        case SettleEvictedFlight(k) => r := controller.SettleEvictedFlight(k);
        case RunQueueMaintenance => r := controller.RunQueueMaintenance(now);
      }
    }

    method RunKeeper(op: Op) returns (r: Result<()>)
      requires controller.Valid() && VaultUsable(controller.View().vault) && IsKeeperOp(op)
      modifies controller.Repr()
      ensures controller.Valid()
      ensures Agrees(r, KeeperStep(old(controller.View()), now, op), controller.View())
    {
      hide KeeperStep, Agrees;
      if op.ClassifyFlights? || op.ExecuteSettlements? || op.ExecuteSettlementsBounded? {
        r := RunSweep(op);
      } else {
        r := RunExact(op);
      }
    }

    method RunPurchase(who: Person, k: Key, pair: Governance.Pair) returns (r: Result<()>)
      requires Valid()
      modifies this`log, controller.Repr()
      ensures r.Ok? ==> Valid()
      ensures r.Err? ==> log == old(log)
      ensures Agrees(r, BuyStep(old(Whole()), who, k, pair), if r.Ok? then Whole() else old(Whole()))
    {
      hide Controller.BuyInsurance;
      var _ :- controller.BuyInsurance(now, who, k, pair);
      ghost var premium := if k in controller.pool.configs then controller.pool.configs[k].premium else 0;
      log := log.(sales := log.sales + [Sale(who, k, pair, now, premium)]);
      r := Ok(());
    }

    method RunClaim(who: Person, k: Key) returns (r: Result<()>)
      requires Valid()
      modifies this`log, controller.pool, controller.token
      ensures r.Ok? ==> Valid()
      ensures r.Err? ==> log == old(log)
      ensures Agrees(r, ClaimStep(old(Whole()), who, k), if r.Ok? then Whole() else old(Whole()))
    {
      hide Pool.Claim;
      ghost var paid := if k in controller.pool.configs then controller.pool.configs[k].payoff else 0;
      var _ :- controller.pool.Claim(now, who, k);
      log := log.(payments := log.payments + [Payment(who, k, paid)]);
      r := Ok(());
    }

    method RunPool(op: Op) returns (r: Result<()>)
      requires controller.Valid() && IsUpkeepOp(op)
      modifies controller.pool, controller.pool.active, controller.token
      ensures controller.Valid()
      ensures Agrees(r, PoolStep(old(controller.pool.State()), old(controller.token.balances), now, op),
                     (controller.pool.State(), controller.token.balances))
    {
      hide Pool.SweepExpired, Pool.ReconcileSettledActiveEntry, Pool.WithdrawRecovered;
      var p := controller.pool;
      match op {
        case SweepExpired(k) => r := p.SweepExpired(now, k);
        case Reconcile(k) => var _ :- p.ReconcileSettledActiveEntry(k); r := Ok(());
        case WithdrawRecovered(sum) => r := p.WithdrawRecovered(sum);
      }
    }

    method RunOwner(op: Op) returns (r: Result<()>)
      requires controller.Valid() && IsOwnerOp(op)
      modifies controller, controller.vault
      ensures controller.Valid()
      ensures Agrees(r, OwnerStep(old(controller.View()), now, op), controller.View())
    {
      hide Controller.SetSolvencyRatio, Controller.SetMinLeadTime, Controller.SetClaimExpiryWindow, Approvals.Write;
      r := Ok(());
      match op {
        case SetSolvencyRatio(ratio) => r := controller.SetSolvencyRatio(ratio);
        case SetMinLeadTime(secs) => r := controller.SetMinLeadTime(secs);
        case SetClaimExpiryWindow(secs) => r := controller.SetClaimExpiryWindow(secs);
        case SetWhitelistEnabled(enabled) => controller.gated := enabled;
        case AddWhitelistedBuyer(a) => controller.WriteBuyerWhitelisted(now, a, true);
        case RemoveWhitelistedBuyer(a) => controller.WriteBuyerWhitelisted(now, a, false);
      }
    }

    method RunGovernance(g: GovOp) returns (r: Result<()>)
      modifies controller.gov
      ensures Agrees(r, GovStep(old(controller.gov.State()), now, g), controller.gov.State())
    {
      hide Governance.WhitelistRoute, Governance.DisableRoute, Governance.EnableRoute, Governance.RemoveRoute;
      hide Governance.UpdateRouteTerms, Governance.SetDefaults, Governance.SetTermLimits;
      var c := controller.gov;
      match g {
        case Whitelist(route, p, q, d) => r := c.WhitelistRoute(now, route, p, q, d);
        case Disable(route) => r := c.DisableRoute(route);
        case Enable(route) => r := c.EnableRoute(route);
        case Remove(route) => r := c.RemoveRoute(now, route);
        case QueryStatus(route) => var _ := c.ReadStatus(route); r := Ok(());
        case UpdateTerms(route, p, q, d) => r := c.UpdateRouteTerms(route, p, q, d);
        case SetDefaults(p, q, d) => r := c.SetDefaults(p, q, d);
        case SetTermLimits(cap, ratio) => r := c.SetTermLimits(cap, ratio);
      }
    }

    method RunUnderwriter(l: LpOp) returns (r: Result<()>)
      requires controller.Valid() && controller.vault.tma >= 0
      modifies controller.vault, controller.token
      ensures controller.Valid()
      ensures Agrees(r, LpStep(old(controller.vault.State()), old(controller.token.balances), now, l),
                     (controller.vault.State(), controller.token.balances))
    {
      hide Vault.RequestDeposit, Vault.CancelDeposit, Vault.RequestWithdrawal, Vault.CancelWithdrawal, Vault.Collect, Vault.MoveShares;
      var v := controller.vault;
      match l {
        case RequestDeposit(who, amount) => r := v.RequestDeposit(now, who, amount);
        case CancelDeposit(who, id) => r := v.CancelDeposit(who, id);
        case RequestWithdrawal(who, amount) => r := v.RequestWithdrawal(now, who, amount);
        case CancelWithdrawal(who, id) => r := v.CancelWithdrawal(who, id);
        case Collect(who) => r := v.Collect(who);
        case TransferShares(who, to, count) => r := v.TransferShares(who, to, count);
        case SetMinRequest(min) => r := v.SetMinWithdrawalRequest(min);
      }
    }

    // --- a transaction ---

    // Oracle writes, with the outcome or the eviction entered into the history.
    method SubmitOracle(op: Op) returns (r: Result<()>)
      requires Valid() && IsAggregatorOp(op)
      modifies controller.oracle, controller.oracle.active
      ensures Valid() && Agrees(r, OracleStep(old(controller.oracle.State()), now, op), controller.oracle.State())
      ensures Whole() == On(old(Whole()), old(Whole()).chain.(oracle := controller.oracle.State()))
    {
      hide OracleStep, Agrees;
      r := RunOracle(op);
    }

    method RunLoggedOracle(op: Op) returns (r: Result<()>)
      requires Valid() && VaultUsable(controller.View().vault) && IsAggregatorOp(op)
      modifies this`log, controller.oracle, controller.oracle.active
      ensures r.Ok? ==> Valid()
      ensures r.Err? ==> log == old(log)
      ensures Agrees(r, Step(old(Whole()), op), if r.Ok? then Whole() else old(Whole()))
    {
      hide EnvironmentStep, OracleStep, KeeperStep, BuyStep, ClaimStep, PoolStep, OwnerStep, GovStep, LpStep;
      OracleIsStep(Whole(), op);
      hide Step, OracleLog;
      ghost var w := Whole();
      r := SubmitOracle(op);
      ghost var o := controller.oracle.State();
      if r.Ok? {
        log := OracleLog(log, w.chain.oracle, op);
        assert Whole() == On(w, w.chain.(oracle := o)).(log := log);
      }
    }

    // Pool upkeep leaves the history alone.
    method RunUpkeep(op: Op) returns (r: Result<()>)
      requires Valid() && VaultUsable(controller.View().vault) && IsUpkeepOp(op)
      modifies controller.Repr()
      ensures r.Ok? ==> Valid()
      ensures Agrees(r, Step(old(Whole()), op), if r.Ok? then Whole() else old(Whole()))
    {
      hide KeeperStep, BuyStep, ClaimStep, PoolStep, Step;
      MoneyIsStep(Whole(), op);
      r := RunPool(op);
    }

    // So do the owner, governance and the underwriters.
    method RunParty(op: Op) returns (r: Result<()>)
      requires Valid() && VaultUsable(controller.View().vault) && (IsOwnerOp(op) || op.Gov? || op.Lp?)
      modifies controller.Repr()
      ensures r.Ok? ==> Valid()
      ensures Agrees(r, Step(old(Whole()), op), if r.Ok? then Whole() else old(Whole()))
    {
      hide EnvironmentStep, OwnerStep, GovStep, LpStep, Step;
      PartyIsStep(Whole(), op);
      if IsOwnerOp(op) {
        r := RunOwner(op);
      } else if op.Gov? {
        r := RunGovernance(op.gov);
      } else {
        r := RunUnderwriter(op.lp);
      }
    }

    method RunTraveler(op: Op) returns (r: Result<()>)
      requires Valid() && VaultUsable(controller.View().vault) && (op.Buy? || op.Claim?)
      modifies this`log, controller.Repr()
      ensures r.Ok? ==> Valid()
      ensures Agrees(r, Step(old(Whole()), op), if r.Ok? then Whole() else old(Whole()))
      ensures r.Err? ==> log == old(log)
    {
      hide Step, BuyStep, ClaimStep, KeeperStep, PoolStep, Agrees;
      MoneyIsStep(Whole(), op);
      if op.Buy? {
        r := RunPurchase(op.who, op.key, op.pair);
      } else {
        r := RunClaim(op.who, op.key);
      }
    }

    method RunSettler(op: Op) returns (r: Result<()>)
      requires Valid() && VaultUsable(controller.View().vault) && IsKeeperOp(op)
      modifies controller.Repr()
      ensures r.Ok? ==> Valid()
      ensures Agrees(r, Step(old(Whole()), op), if r.Ok? then Whole() else old(Whole()))
    {
      hide KeeperStep, BuyStep, ClaimStep, PoolStep, Step;
      MoneyIsStep(Whole(), op);
      r := RunKeeper(op);
    }

    method RunRest(op: Op) returns (r: Result<()>)
      requires Valid() && VaultUsable(controller.View().vault) && !IsEnvironmentOp(op) && !IsAggregatorOp(op)
      modifies this`log, controller.Repr()
      ensures r.Ok? ==> Valid()
      ensures Agrees(r, Step(old(Whole()), op), if r.Ok? then Whole() else old(Whole()))
      ensures r.Err? ==> log == old(log)
    {
      hide Step, Agrees;
      if op.Buy? || op.Claim? {
        r := RunTraveler(op);
      } else if IsKeeperOp(op) {
        r := RunSettler(op);
      } else if IsUpkeepOp(op) {
        r := RunUpkeep(op);
      } else {
        r := RunParty(op);
      }
    }

    method Run(op: Op) returns (r: Result<()>)
      requires Valid() && VaultUsable(controller.View().vault)
      modifies Repr()
      ensures r.Ok? ==> Valid()
      ensures Agrees(r, Step(old(Whole()), op), if r.Ok? then Whole() else old(Whole()))
      ensures r.Err? ==> now == old(now) && archive == old(archive) && log == old(log)
    {
      hide Step, EnvironmentStep, OwnerStep, GovStep, LpStep, Agrees;
      if IsEnvironmentOp(op) {
        PartyIsStep(Whole(), op);
        r := RunEnvironment(op);
      } else if IsAggregatorOp(op) {
        r := RunLoggedOracle(op);
      } else {
        r := RunRest(op);
      }
    }

    /** One transaction is one attempt of the transition system: it commits the step or
        leaves everything as it was, and either way the invariant stands. */
    method Submit(op: Op) returns (r: Result<()>)
      requires Valid() && Inv(Whole()) && Allowed(Whole(), op)
      modifies Repr()
      ensures Valid() && Whole() == Attempt(old(Whole()), op) && Inv(Whole())
      ensures r.Ok? <==> Step(old(Whole()), op).Ok?
    {
      hide Inv, Allowed, Step;
      InvGivesUsable(Whole());
      AttemptKeeps(Whole(), op);
      var saved := Save();
      r := Run(op);
      if r.Err? {
        Restore(saved);
      }
    }
  }

  // What a step is, by party.
  lemma MoneyIsStep(w: World, op: Op)
    requires VaultUsable(w.chain.vault)
    ensures op.Buy? ==> Step(w, op) == BuyStep(w, op.who, op.key, op.pair)
    ensures op.Claim? ==> Step(w, op) == ClaimStep(w, op.who, op.key)
    ensures IsKeeperOp(op) ==>
              match KeeperStep(w.chain, w.now, op)
              case Ok(c) => Step(w, op) == Ok(On(w, c))
              case Err(e) => Step(w, op) == Err(e)
    ensures IsUpkeepOp(op) ==>
              match PoolStep(w.chain.pool, w.chain.balances, w.now, op)
              case Ok((p, b)) => Step(w, op) == Ok(On(w, w.chain.(pool := p, balances := b)))
              case Err(e) => Step(w, op) == Err(e)
  {
    hide EnvironmentStep, OracleStep, KeeperStep, BuyStep, ClaimStep, PoolStep, OwnerStep, GovStep, LpStep;
  }

  lemma OracleIsStep(w: World, op: Op)
    requires VaultUsable(w.chain.vault) && IsAggregatorOp(op)
    ensures match OracleStep(w.chain.oracle, w.now, op)
            case Ok(o) => Step(w, op) == Ok(On(w, w.chain.(oracle := o)).(log := OracleLog(w.log, w.chain.oracle, op)))
            case Err(e) => Step(w, op) == Err(e)
  {
    hide EnvironmentStep, OracleStep, KeeperStep, BuyStep, ClaimStep, PoolStep, OwnerStep, GovStep, LpStep;
  }

  lemma PartyIsStep(w: World, op: Op)
    requires VaultUsable(w.chain.vault)
    ensures IsEnvironmentOp(op) ==> Step(w, op) == EnvironmentStep(w, op)
    ensures IsOwnerOp(op) ==>
              match OwnerStep(w.chain, w.now, op)
              case Ok(c) => Step(w, op) == Ok(On(w, c))
              case Err(e) => Step(w, op) == Err(e)
    ensures op.Gov? ==>
              match GovStep(w.chain.gov, w.now, op.gov)
              case Ok(g) => Step(w, op) == Ok(On(w, w.chain.(gov := g)))
              case Err(e) => Step(w, op) == Err(e)
    ensures op.Lp? ==>
              match LpStep(w.chain.vault, w.chain.balances, w.now, op.lp)
              case Ok((v, b)) => Step(w, op) == Ok(On(w, w.chain.(vault := v, balances := b)))
              case Err(e) => Step(w, op) == Err(e)
  {
    hide EnvironmentStep, OracleStep, KeeperStep, BuyStep, ClaimStep, PoolStep, OwnerStep, GovStep, LpStep;
  }
}
