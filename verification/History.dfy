/** What a run can do to one flight over time: its status only moves forward along the
    accepted edges, its locked terms never change, and an outcome is recorded once. */
module History {
  import opened Results
  import opened Types
  import opened ActiveSet
  import opened Token
  import opened MapSums
  import Oracle
  import Pool
  import opened Controller
  import opened World
  import opened Invariant
  import opened Changes
  import opened BuySteps
  import opened Keepers
  import opened Preservation
  import opened Runs

  lemma EnvironmentEvolves(w: World, op: Op, w': World)
    requires EnvironmentMoves(w, op, w')
    ensures Evolves(w, w')
  {
    hide Transfer, Governance.LapseIndex;
  }

  lemma RowWriteEvolves(w: World, op: Op, w': World)
    requires Coherent(w) && Admissible(w, op) && AggregatorMoves(w, op, w')
    requires op.SetEstimatedArrival? || op.SetLanded? || op.SetCancelled?
    ensures Evolves(w, w')
  {
    hide NoDuplicates;
    assert FlightOk(w, op.key);
    hide Coherent;
  }

  lemma ListWriteEvolves(w: World, op: Op, w': World)
    requires AggregatorMoves(w, op, w') && !op.SetEstimatedArrival? && !op.SetLanded? && !op.SetCancelled?
    ensures Evolves(w, w')
  {
    hide Oracle.PruneKeys, NoDuplicates, SwapRemove;
  }

  lemma BuyEvolves(w: World, op: Op, w': World)
    requires BuyMoves(w, op, w')
    ensures Evolves(w, w')
  {
    hide Total, Gated, Controller.BuyInsurance;
    var terms := PurchaseShape(w, w'.chain, op.who, op.key, op.pair);
    forall j ensures FlightEvolves(w, w', j) {
      assert j in w.chain.pool.configs ==> RowOf(w', j) == RowOf(w, j);
    }
  }

  lemma ClaimEvolves(w: World, op: Op, w': World)
    requires PoolOk(w.chain.pool, w.now) && ClaimMoves(w, op, w')
    ensures Evolves(w, w')
  {
    hide Transfer, NoDuplicates;
    assert PoolKeyOk(w.chain.pool, w.now, op.key);
  }

  lemma UpkeepEvolves(w: World, op: Op, w': World)
    requires PoolOk(w.chain.pool, w.now) && UpkeepMoves(w, op, w')
    ensures Evolves(w, w')
  {
    hide Transfer, NoDuplicates;
    assert op.SweepExpired? ==> PoolKeyOk(w.chain.pool, w.now, op.key);
  }

  lemma StepEvolves(w: World, op: Op)
    requires Inv(w) && Admissible(w, op) && Step(w, op).Ok?
    ensures Evolves(w, Attempt(w, op))
  {
    hide Coherent, CounterExact, PoolOk, MoneyOk, SalesOk, PaymentsOk, RoutesOk, Admissible, Step, Evolves;
    hide EnvironmentMoves, AggregatorMoves, KeeperMoves, BuyMoves, ClaimMoves, UpkeepMoves, OwnerStep, GovStep, LpStep;
    var w' := Attempt(w, op);
    StepSorts(w, op, w');
    if IsEnvironmentOp(op) {
      EnvironmentEvolves(w, op, w');
    } else if IsAggregatorOp(op) {
      if op.SetEstimatedArrival? || op.SetLanded? || op.SetCancelled? {
        RowWriteEvolves(w, op, w');
      } else {
        ListWriteEvolves(w, op, w');
      }
    } else if IsKeeperOp(op) {
      KeeperOpKeeps(w, op, w');
    } else if op.Buy? {
      BuyEvolves(w, op, w');
    } else if op.Claim? {
      ClaimEvolves(w, op, w');
    } else if IsUpkeepOp(op) {
      UpkeepEvolves(w, op, w');
    } else {
      SamePlaceEvolves(w, w');
    }
  }

  /** Over any run: statuses only move onward, locked terms and recorded outcomes never
      change, buyers and claims only accumulate, and a closed bucket stays as it closed. */
  lemma {:induction false} RunEvolves(w: World, ops: seq<Op>)
    requires Inv(w) && AllAdmissible(w, ops)
    ensures Evolves(w, After(w, ops))
    decreases |ops|
  {
    hide Inv, Evolves, Step, Admissible;
    if ops == [] {
      SamePlaceEvolves(w, w);
    } else {
      var w1 := Attempt(w, ops[0]);
      AttemptKeeps(w, ops[0]);
      if Step(w, ops[0]).Ok? {
        StepEvolves(w, ops[0]);
      } else {
        SamePlaceEvolves(w, w1);
      }
      RunEvolves(w1, ops[1..]);
      EvolvesTransitive(w, w1, After(w, ops));
    }
  }
}
