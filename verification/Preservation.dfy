/** Every step of every contract keeps the invariant, so it holds in all reachable states. */
module Preservation {
  import opened Results
  import opened Types
  import opened ActiveSet
  import opened Token
  import opened MapSums
  import Governance
  import Oracle
  import Vault
  import opened Controller
  import opened World
  import opened Invariant
  import opened RowSteps
  import opened SweepSteps
  import opened BuySteps
  import opened PoolSteps
  import opened GovSteps
  import opened LpSteps
  import opened Keepers

  // --- the environment ---

  lemma TickKeeps(w: World, w': World)
    requires BankSide(w) && w' == w.(now := w'.now) && w'.now >= w.now
    ensures BankSide(w')
  {
    hide Total;
    forall j ensures PoolKeyOk(w'.chain.pool, w'.now, j) {
      assert PoolKeyOk(w.chain.pool, w.now, j);
    }
    assert forall x :: SaleOk(w, x) ==> SaleOk(w', x);
    assert forall x :: Reserved(w.chain.gov, w.now, x) ==> Reserved(w'.chain.gov, w'.now, x);
  }

  lemma GiftIsCounted(w: World, op: Op, w': World)
    requires MoneyOk(w) && EnvironmentMoves(w, op, w') && op.Gift?
    ensures MoneyOk(w')
  {
    hide Total;
  }

  // Only the governance module's state changed, and its routes are still in order.
  lemma GovFrame(w: World, w': World)
    requires Inv(w) && w' == On(w, w.chain.(gov := w'.chain.gov)) && RoutesOk(w')
    ensures Inv(w')
  {
    hide Total, RoutesOk;
    RowsUntouched(w, w');
    assert forall x :: SaleOk(w, x) ==> SaleOk(w', x);
  }

  lemma GovKeepsRoutes(w: World, op: Op, w': World)
    requires SalesOk(w) && RoutesOk(w) && Admissible(w, op) && GovMoves(w, op, w')
    ensures RoutesOk(w')
  {
    hide Total, GovStep, RightWherePresent, Reserved, NoRival;
    GovKeepsIndex(w.chain.gov, w.now, op.gov, w'.chain.gov);
    forall x | x in w.log.sales ensures Reserved(w'.chain.gov, w.now, x) {
      assert SaleOk(w, x);
      GovKeepsReservation(w.chain.gov, w.now, op.gov, w'.chain.gov, x);
    }
  }

  lemma LapseKeepsRoutes(w: World, op: Op, w': World)
    requires RoutesOk(w) && EnvironmentMoves(w, op, w') && op.Lapse?
    ensures RoutesOk(w')
  {
    hide Governance.LapseIndex, RightWherePresent, Reserved;
    LapseKeepsIndex(w.chain.gov, op.id);
    forall x | x in w.log.sales ensures Reserved(w'.chain.gov, w.now, x) {
      LapseKeepsReservation(w.chain.gov, w.now, op.id, x);
    }
  }

  // --- every party ---

  lemma EnvironmentKeeps(w: World, op: Op, w': World)
    requires Inv(w) && EnvironmentMoves(w, op, w')
    ensures Inv(w')
  {
    hide Total, Coherent, CounterExact, PoolOk, MoneyOk, SalesOk, PaymentsOk, RoutesOk, Transfer, Governance.LapseIndex;
    match op {
      case Tick(seconds) => RowsUntouched(w, w'); TickKeeps(w, w');
      case Gift(who, to, amount) => RowsUntouched(w, w'); GiftIsCounted(w, op, w'); SettlementHistoryFrame(w, w');
      case Lapse(id) => LapseKeepsRoutes(w, op, w'); GovFrame(w, w');
      case Archive(k) => ArchiveKeeps(w, w', k); BankFrame(w, w');
      case Restore(k) => ArchiveKeeps(w, w', k); BankFrame(w, w');
    }
  }

  lemma AggregatorKeeps(w: World, op: Op, w': World)
    requires Inv(w) && Admissible(w, op) && AggregatorMoves(w, op, w')
    ensures Inv(w')
  {
    hide Oracle.SetEstimatedArrival, Oracle.SetLanded, Oracle.SetCancelled, Oracle.EvictMissingFlight;
    hide Total, Coherent, CounterExact, PoolOk, MoneyOk, SalesOk, PaymentsOk, RoutesOk;
    match op {
      case OpenSale(k, expiresAt) => SalesWindowKeeps(w, w');
      case CloseSale(k) => SalesWindowKeeps(w, w');
      case SetEstimatedArrival(k, eta) => EstimatedArrivalKeeps(w, k, eta, w'.chain.oracle);
      case SetLanded(k, ata) => LandedKeeps(w, k, ata, w'.chain.oracle);
      case SetCancelled(k) => CancelledKeeps(w, k, w'.chain.oracle);
      case PruneSettled =>
        PruneKeysKeeps(w, w.chain.oracle.active, Window(w.chain.oracle.active, w.chain.oracle.pruneCursor, MAX_PRUNE_BATCH));
        SalesWindowKeeps(WithOracle(w, w.chain.oracle.(active := w'.chain.oracle.active)), w');
      case EvictMissingFlight(k, flag) => EvictKeeps(w, k, flag, w'.chain.oracle);
    }
    BankFrame(w, w');
  }

  // Sale authorizations and the prune cursor are not part of the invariant.
  lemma SalesWindowKeeps(w: World, w': World)
    requires OracleSide(w)
    requires w' == WithOracle(w, w.chain.oracle.(sales := w'.chain.oracle.sales, pruneCursor := w'.chain.oracle.pruneCursor))
    ensures OracleSide(w')
  {
    forall j ensures FlightOk(w', j) {
      assert FlightOk(w, j);
    }
    assert forall j :: RowOf(w', j) == RowOf(w, j);
    assert PublicFlights(w') == PublicFlights(w);
  }

  lemma BuyMoveKeeps(w: World, op: Op, w': World)
    requires Inv(w) && BuyMoves(w, op, w')
    ensures Inv(w')
  {
    hide Inv, Controller.BuyInsurance;
    BuyKeeps(w, op.who, op.key, op.pair, w'.chain);
  }

  lemma ClaimMoveKeeps(w: World, op: Op, w': World)
    requires Inv(w) && ClaimMoves(w, op, w')
    ensures Inv(w')
  {
    hide Inv, Transfer;
    ClaimKeeps(w, op.who, op.key, w'.chain.pool, w'.chain.balances);
  }

  lemma UpkeepKeeps(w: World, op: Op, w': World)
    requires Inv(w) && UpkeepMoves(w, op, w')
    ensures Inv(w')
  {
    hide Total, OracleSide, PoolOk, MoneyOk, SalesOk, PaymentsOk, RoutesOk, Transfer;
    match op {
      case SweepExpired(k) => SweepKeeps(w, k, w'.chain.pool);
      case Reconcile(k) =>
        ReconcileFindsNothing(w.chain.pool, w.now, k);
        assert w' == w;
      case WithdrawRecovered(sum) => WithdrawKeeps(w, sum, w'.chain.pool, w'.chain.balances);
    }
  }

  lemma RatioIsMirrored(w: World, op: Op, w': World)
    requires MoneyOk(w) && OwnerMoves(w, op, w') && op.SetSolvencyRatio?
    ensures MoneyOk(w')
  {
    hide Total;
  }

  lemma OwnerKeeps(w: World, op: Op, w': World)
    requires Inv(w) && OwnerMoves(w, op, w')
    ensures Inv(w')
  {
    hide Total, OracleSide, PoolOk, MoneyOk, SalesOk, PaymentsOk, RoutesOk;
    if op.SetSolvencyRatio? {
      RowsUntouched(w, w');
      RatioIsMirrored(w, op, w');
      SettlementHistoryFrame(w, w');
    } else {
      ControlFrame(w, w'.chain.ctrl);
    }
  }

  lemma LpMoveKeeps(w: World, op: Op, w': World)
    requires Inv(w) && LpMoves(w, op, w')
    ensures Inv(w')
  {
    hide Total, OracleSide, PoolOk, MoneyOk, SalesOk, PaymentsOk, RoutesOk, LpStep;
    LpKeeps(w, op.lp, w'.chain.vault, w'.chain.balances);
    VaultStepKeeps(w, w'.chain.vault, w'.chain.balances);
  }

  lemma GovMoveKeeps(w: World, op: Op, w': World)
    requires Inv(w) && Admissible(w, op) && GovMoves(w, op, w')
    ensures Inv(w')
  {
    hide OracleSide, PoolOk, MoneyOk, SalesOk, PaymentsOk, RoutesOk, GovStep, NoRival;
    GovKeepsRoutes(w, op, w');
    GovFrame(w, w');
  }

  /** One step of any contract, or of the environment, keeps every conjunct. */
  lemma StepKeeps(w: World, op: Op)
    requires Inv(w) && Admissible(w, op) && Step(w, op).Ok?
    ensures Inv(Attempt(w, op))
  {
    hide Inv, Admissible, Step, EnvironmentMoves, AggregatorMoves, KeeperMoves, BuyMoves, ClaimMoves, UpkeepMoves, OwnerMoves, LpMoves;
    hide GovMoves;
    var w' := Attempt(w, op);
    StepSorts(w, op, w');
    if IsEnvironmentOp(op) {
      EnvironmentKeeps(w, op, w');
    } else if IsAggregatorOp(op) {
      AggregatorKeeps(w, op, w');
    } else if IsKeeperOp(op) {
      KeeperOpKeeps(w, op, w');
    } else if op.Buy? {
      BuyMoveKeeps(w, op, w');
    } else if op.Claim? {
      ClaimMoveKeeps(w, op, w');
    } else if IsUpkeepOp(op) {
      UpkeepKeeps(w, op, w');
    } else if IsOwnerOp(op) {
      OwnerKeeps(w, op, w');
    } else if op.Gov? {
      GovMoveKeeps(w, op, w');
    } else {
      LpMoveKeeps(w, op, w');
    }
  }
}
