/** Leaving the protocol through a lost row: evict, then settle the bucket, once; and what
    the operators' undertakings about rows protect. */
module Eviction {
  import opened Results
  import opened Types
  import opened ActiveSet
  import opened MapSums
  import opened Token
  import Governance
  import Oracle
  import opened Controller
  import opened World
  import opened Invariant
  import opened RowSteps
  import opened BuySteps
  import opened PoolSteps
  import opened Changes
  import opened Keepers
  import opened Preservation
  import opened Runs
  import opened History
  import opened Drain

  function RightFlag(w: World, k: Key): bool {
    PublicUnsettled(RowOf(w, k).status)
  }

  function ExitOps(w: World, k: Key): seq<Op> {
    [Op.EvictMissingFlight(k, RightFlag(w, k)), Op.SettleEvictedFlight(k)]
  }

  // Gone from the list, recorded as evicted, everything but the oracle as before.
  ghost predicate Evicted(w: World, w': World, k: Key) {
    && !Listed(w', k) && k in w'.log.evicted && k !in w'.chain.oracle.rows
    && w'.chain == w.chain.(oracle := w'.chain.oracle)
  }

  lemma EvictCommits(w: World, k: Key)
    requires Inv(w) && Listed(w, k) && k !in w.chain.oracle.rows
    ensures var w' := Attempt(w, Op.EvictMissingFlight(k, RightFlag(w, k))); Inv(w') && Evicted(w, w', k)
    ensures BucketFollowsRow(w, k)
  {
    hide Inv, Step, AggregatorMoves, NoDuplicates;
    var op := Op.EvictMissingFlight(k, RightFlag(w, k));
    MissingRow(w, k);
    EvictionAccepted(w, op);
    StepSorts(w, op, Attempt(w, op));
    EvictEffect(w, op, Attempt(w, op));
    MetIsAllowed(w, op);
    AttemptKeeps(w, op);
  }

  predicate BucketFollowsRow(w: World, k: Key) {
    k in w.chain.pool.configs && (w.chain.pool.configs[k].status.Open? <==> !RowOf(w, k).status.Settled?)
  }

  lemma MissingRow(w: World, k: Key)
    requires Inv(w) && Listed(w, k)
    ensures BucketFollowsRow(w, k) && NoDuplicates(w.chain.oracle.active) && VaultUsable(w.chain.vault)
  {
    InvGivesUsable(w);
    hide BankSide, CounterExact, VaultUsable;
    assert FlightOk(w, k);
  }

  lemma EvictionAccepted(w: World, op: Op)
    requires VaultUsable(w.chain.vault) && op.EvictMissingFlight? && Listed(w, op.key) && op.key !in w.chain.oracle.rows
    ensures Step(w, op).Ok?
  {
    hide VaultUsable, EnvironmentStep, KeeperStep, BuyStep, ClaimStep, PoolStep, OwnerStep, GovStep, LpStep;
  }

  lemma EvictEffect(w: World, op: Op, w': World)
    requires AggregatorMoves(w, op, w') && op.EvictMissingFlight? && NoDuplicates(w.chain.oracle.active)
    ensures Evicted(w, w', op.key)
  {
    hide SwapRemove, NoDuplicates;
    SwapRemoveElements(w.chain.oracle.active, op.key);
    assert op.key !in Elements(SwapRemove(w.chain.oracle.active, op.key));
  }

  /** A listed flight whose row the ledger archived leaves in two calls: with the right flag
      the eviction commits, the bucket then settles without a payout if it was open, the
      invariant holds throughout, and neither call can be repeated. */
  lemma TwoStepExit(w: World, k: Key)
    requires Reachable(w) && Listed(w, k) && k !in w.chain.oracle.rows
    ensures var w2 := After(w, ExitOps(w, k));
            && Inv(w2) && !Listed(w2, k)
            && k in w2.chain.pool.configs && !w2.chain.pool.configs[k].status.Open?
            && (!RowOf(w, k).status.Settled? ==> w2.chain.pool.configs[k].status == SettledOnTime)
            && Oracle.EvictMissingFlight(w2.chain.oracle, k, true).Err?
            && Oracle.EvictMissingFlight(w2.chain.oracle, k, false).Err?
            && Controller.SettleEvictedFlight(w2.chain, k).Err?
  {
    hide Total, Inv, Reachable, Attempt;
    ReachableInv(w);
    EvictCommits(w, k);
    var w1 := Attempt(w, ExitOps(w, k)[0]);
    SettleEvictedCommits(w1, k);
    assert ExitOps(w, k)[1..] == [Op.SettleEvictedFlight(k)];
    assert After(w1, [Op.SettleEvictedFlight(k)]) == Attempt(w1, Op.SettleEvictedFlight(k)) by {
      assert [Op.SettleEvictedFlight(k)][1..] == [];
    }
  }

  // The bucket is closed, without a payout if it was open, and stays so.
  ghost predicate Closed(w: World, w': World, k: Key) {
    && w'.chain.oracle == w.chain.oracle
    && k in w.chain.pool.configs && k in w'.chain.pool.configs && !w'.chain.pool.configs[k].status.Open?
    && (w.chain.pool.configs[k].status.Open? ==> w'.chain.pool.configs[k].status == SettledOnTime)
    && Controller.SettleEvictedFlight(w'.chain, k).Err?
  }

  lemma SettleEvictedCommits(w: World, k: Key)
    requires Inv(w) && k in w.log.evicted && k !in w.chain.oracle.rows && k in w.chain.pool.configs
    ensures var w' := Attempt(w, Op.SettleEvictedFlight(k)); Inv(w') && Closed(w, w', k)
  {
    hide Total, Controller.SettleEvictedFlight, Inv;
    hide EnvironmentStep, OracleStep, BuyStep, ClaimStep, PoolStep, OwnerStep, GovStep, LpStep;
    InvGivesUsable(w);
    SettleEvictedKeeps(w, k);
    if EvictedOpen(w, k) {
      SettleEvictedFacts(w, k);
    }
  }

  lemma SettleEvictedFacts(w: World, k: Key)
    requires Inv(w) && Controller.SettleEvictedFlight(w.chain, k).Ok?
    ensures Closed(w, On(w, Controller.SettleEvictedFlight(w.chain, k).value), k)
  {
    hide Total, Controller.SettleEvictedFlight;
    SettleEvictedEffect(w, k);
  }

  // --- what may happen between the two calls ---

  // Whether an evicted flight has a row after a step: restoring it or cancelling the flight
  // gives it one, archiving takes it away.
  function HasRowAfter(had: bool, op: Op, k: Key): bool {
    if op == Op.Restore(k) || op == Op.SetCancelled(k) then true
    else if op == Op.Archive(k) then false
    else had
  }

  // ... and after a run: the last of these decides.
  function HasRowAfterAll(had: bool, ops: seq<Op>, k: Key): bool
    decreases |ops|
  {
    if ops == [] then had else HasRowAfterAll(HasRowAfter(had, ops[0], k), ops[1..], k)
  }

  predicate BucketOpen(w: World, k: Key) {
    k in w.chain.pool.configs && w.chain.pool.configs[k].status.Open?
  }

  // What a step does to known flights that are not listed: whether each has its row follows
  // the step, and while it has one its open bucket stays open.
  ghost predicate Follows(w: World, op: Op, w': World) {
    && (forall k :: k in w.chain.pool.configs && k in w.archive
          ==> (k in w'.chain.oracle.rows <==> HasRowAfter(k in w.chain.oracle.rows, op, k)))
    && (forall k :: BucketOpen(w, k) && !Listed(w, k) && k in w.chain.oracle.rows ==> BucketOpen(w', k))
  }

  lemma StepFollows(w: World, op: Op)
    requires Inv(w)
    ensures Follows(w, op, Attempt(w, op))
  {
    hide Inv, Step, Follows, KeeperKeeps, EnvironmentMoves, AggregatorMoves, KeeperMoves, BuyMoves, ClaimMoves, UpkeepMoves;
    hide OwnerMoves, GovMoves, LpMoves;
    InvGivesUsable(w);
    var w' := Attempt(w, op);
    if Step(w, op).Err? {
      RefusedFollows(w, op);
    } else {
      StepSorts(w, op, w');
      if IsKeeperOp(op) {
        KeeperOpKeeps(w, op, w');
        KeeperFollows(w, op, w');
      } else if op.Buy? {
        BuyFollows(w, op, w');
      } else if IsEnvironmentOp(op) {
        EnvironmentFollows(w, op, w');
      } else if IsAggregatorOp(op) {
        AggregatorFollows(w, op, w');
      } else if op.Claim? || IsUpkeepOp(op) {
        PoolFollows(w, op, w');
      } else {
        OtherFollows(w, op, w');
      }
    }
  }

  lemma RefusedFollows(w: World, op: Op)
    requires VaultUsable(w.chain.vault) && Step(w, op).Err?
    ensures Follows(w, op, w)
  {
    hide VaultUsable, KeeperStep, BuyStep, ClaimStep, PoolStep, OwnerStep, GovStep, LpStep;
  }

  lemma KeeperFollows(w: World, op: Op, w': World)
    requires KeeperKeeps(w, w') && IsKeeperOp(op)
    ensures Follows(w, op, w')
  {
    hide Tokens, Evolves, ReserveCarried;
  }

  lemma BuyFollows(w: World, op: Op, w': World)
    requires BuyMoves(w, op, w')
    ensures Follows(w, op, w')
  {
    hide BuyInsurance, Total, Transfer;
    var terms := PurchaseShape(w, w'.chain, op.who, op.key, op.pair);
  }

  lemma EnvironmentFollows(w: World, op: Op, w': World)
    requires EnvironmentMoves(w, op, w')
    ensures Follows(w, op, w')
  {
    hide Transfer, Governance.LapseIndex;
  }

  lemma AggregatorFollows(w: World, op: Op, w': World)
    requires AggregatorMoves(w, op, w')
    ensures Follows(w, op, w')
  {
    hide Oracle.PruneKeys, SwapRemove;
  }

  lemma PoolFollows(w: World, op: Op, w': World)
    requires ClaimMoves(w, op, w') || UpkeepMoves(w, op, w')
    ensures Follows(w, op, w')
  {
    hide Transfer, SwapRemove;
  }

  lemma OtherFollows(w: World, op: Op, w': World)
    requires OwnerMoves(w, op, w') || GovMoves(w, op, w') || LpMoves(w, op, w')
    ensures Follows(w, op, w')
  {
    hide OwnerStep, GovStep, LpStep;
  }

  lemma StaysEvicted(w: World, w': World)
    requires Evolves(w, w')
    ensures w.log.evicted <= w'.log.evicted
  {
  }

  lemma EvictedKnown(w: World, k: Key)
    requires Coherent(w) && k in w.log.evicted
    ensures k in w.chain.pool.configs && k in w.archive && !Listed(w, k)
  {
    assert FlightOk(w, k);
  }

  // An evicted flight that has a row again while its bucket is open.
  predicate Stuck(w: World, k: Key) {
    k in w.log.evicted && k in w.chain.oracle.rows && BucketOpen(w, k)
  }

  lemma EvictedStep(w: World, op: Op, k: Key)
    requires Inv(w) && Allowed(w, op) && k in w.log.evicted
    ensures var w' := Attempt(w, op);
            && k in w'.log.evicted && (k in w'.chain.oracle.rows <==> HasRowAfter(k in w.chain.oracle.rows, op, k))
            && (Stuck(w, k) && op != Op.Archive(k) ==> Stuck(w', k))
  {
    hide Coherent, CounterExact, BankSide, Step, Admissible, Evolves;
    EvictedKnown(w, k);
    StepFollows(w, op);
    if Step(w, op).Ok? {
      StepEvolves(w, op);
      StaysEvicted(w, Attempt(w, op));
    }
  }

  lemma {:induction false} EvictedRun(w: World, ops: seq<Op>, k: Key)
    requires Inv(w) && AllAdmissible(w, ops) && k in w.log.evicted
    ensures var w' := After(w, ops);
            && k in w'.log.evicted && (k in w'.chain.oracle.rows <==> HasRowAfterAll(k in w.chain.oracle.rows, ops, k))
            && (Stuck(w, k) && Op.Archive(k) !in ops ==> Stuck(w', k))
    decreases |ops|
  {
    hide Inv, Attempt, Allowed, HasRowAfter, Stuck;
    if ops != [] {
      assert ops == [ops[0]] + ops[1..];
      AttemptKeeps(w, ops[0]);
      EvictedStep(w, ops[0], k);
      EvictedRun(Attempt(w, ops[0]), ops[1..], k);
    }
  }

  /** Whatever happens after an eviction, the second call commits exactly while the bucket is
      open and the flight has no row: the last restoration or cancellation of it, if any, was
      followed by an archival. */
  lemma LaterSettlement(w: World, ops: seq<Op>, k: Key)
    requires Reachable(w) && AllAdmissible(w, ops) && k in w.log.evicted
    ensures var w' := After(w, ops);
            && k in w'.chain.pool.configs
            && (Controller.SettleEvictedFlight(w'.chain, k).Ok?
                <==> w'.chain.pool.configs[k].status.Open? && !HasRowAfterAll(k in w.chain.oracle.rows, ops, k))
  {
    hide Reachable, Coherent, CounterExact, BankSide, After, AllAdmissible, Controller.SettleEvictedFlight, HasRowAfterAll;
    ReachableInv(w);
    RunKeeps(w, ops);
    EvictedRun(w, ops, k);
    EvictedKnown(After(w, ops), k);
    SettleEvictedKeeps(After(w, ops), k);
  }

  /** A row that an evicted flight has again blocks its settlement until the ledger archives
      it, however long that takes, and no longer: then the call commits. */
  lemma StuckUntilArchived(w: World, ops: seq<Op>, k: Key)
    requires Reachable(w) && AllAdmissible(w, ops) && Stuck(w, k) && Op.Archive(k) !in ops
    ensures var w' := After(w, ops);
            && Stuck(w', k) && Controller.SettleEvictedFlight(w'.chain, k) == Err(FlightDataStillPresent)
            && Controller.SettleEvictedFlight(Attempt(w', Op.Archive(k)).chain, k).Ok?
  {
    hide Reachable, Inv, After, AllAdmissible, HasRowAfterAll;
    ReachableInv(w);
    RunKeeps(w, ops);
    EvictedRun(w, ops, k);
    var w' := After(w, ops);
    ArchivalUnblocks(w', k);
  }

  lemma ArchivalUnblocks(w: World, k: Key)
    requires Inv(w) && Stuck(w, k)
    ensures Controller.SettleEvictedFlight(Attempt(w, Op.Archive(k)).chain, k).Ok?
  {
    hide Inv, Attempt, Controller.SettleEvictedFlight, Allowed;
    var w1 := Attempt(w, Op.Archive(k));
    InvGivesUsable(w);
    MetIsAllowed(w, Op.Archive(k));
    AttemptKeeps(w, Op.Archive(k));
    ArchivedRow(w, k);
    SettleEvictedKeeps(w1, k);
  }

  ghost predicate RowGone(w: World, w': World, k: Key) {
    w'.log == w.log && w'.chain == w.chain.(oracle := w'.chain.oracle) && k !in w'.chain.oracle.rows
  }

  lemma ArchivedRow(w: World, k: Key)
    requires VaultUsable(w.chain.vault) && k in w.chain.oracle.rows
    ensures RowGone(w, Attempt(w, Op.Archive(k)), k)
  {
    hide VaultUsable, OracleStep, KeeperStep, BuyStep, ClaimStep, PoolStep, OwnerStep, GovStep, LpStep;
  }

  // --- what happens without the obligations ---

  /** The counter stays exact exactly when the eviction flag tells the truth, or claims a
      pending outcome while the saturating counter is already zero. */
  lemma WrongFlagBreaksCounter(w: World, k: Key, flag: bool)
    requires Reachable(w) && Listed(w, k) && k !in w.chain.oracle.rows
    ensures var o := Oracle.EvictMissingFlight(w.chain.oracle, k, flag);
            o.Ok? && (CounterExact(WithOracle(w, o.value))
                      <==> flag == RightFlag(w, k) || (flag && w.chain.oracle.pending == 0))
  {
    hide Total, Reachable;
    ReachableInv(w);
    assert CounterExact(w) && NoDuplicates(w.chain.oracle.active);
    hide Inv;
    SwapRemoveElements(w.chain.oracle.active, k);
    hide SwapRemove, NoDuplicates;
    var w' := WithOracle(w, Oracle.EvictMissingFlight(w.chain.oracle, k, flag).value);
    assert forall j :: Listed(w', j) <==> j in Elements(w'.chain.oracle.active);
    assert forall j :: Listed(w, j) <==> j in Elements(w.chain.oracle.active);
    assert forall j :: RowOf(w', j) == RowOf(w, j);
    forall j ensures j in PublicFlights(w') <==> j in PublicFlights(w) && j != k {
      assert Listed(w', j) <==> Listed(w, j) && j != k;
    }
    assert PublicFlights(w') == PublicFlights(w) - {k};
  }

  /** Writing a cancellation over an archived listed row, which the contract cannot tell
      from an unknown flight, keeps the counter exact exactly when the archived outcome was
      already public: the tombstone branch does not count. */
  lemma CancellationOverArchivedRow(w: World, k: Key)
    requires Reachable(w) && Listed(w, k) && k !in w.chain.oracle.rows
    ensures var o := Oracle.SetCancelled(w.chain.oracle, k);
            o.Ok? && (CounterExact(WithOracle(w, o.value)) <==> RightFlag(w, k))
  {
    hide Total, Reachable, Inv;
    ReachableInv(w);
    CounterIsExact(w);
    hide CounterExact;
    TombstoneWritten(w, k, Oracle.SetCancelled(w.chain.oracle, k).value);
  }

  lemma CounterIsExact(w: World)
    requires Inv(w)
    ensures CounterExact(w)
  {
  }

  // A cancelled row appeared for `k` and nothing was counted.
  lemma TombstoneWritten(w: World, k: Key, o: Oracle.OracleState)
    requires CounterExact(w) && k !in w.chain.oracle.rows
    requires o == w.chain.oracle.(rows := w.chain.oracle.rows[k := Oracle.BLANK.(status := Cancelled)], sales := o.sales)
    ensures CounterExact(WithOracle(w, o)) <==> !Listed(w, k) || RightFlag(w, k)
  {
    var w' := WithOracle(w, o);
    forall j ensures j in PublicFlights(w') <==> j in PublicFlights(w) || (j == k && Listed(w, k)) {
      assert j != k ==> RowOf(w', j) == RowOf(w, j);
    }
    assert PublicFlights(w') == PublicFlights(w) + (if Listed(w, k) then {k} else {});
    assert Listed(w, k) ==> (k in PublicFlights(w) <==> RightFlag(w, k));
  }

  /** An accepted outcome on a stored row keeps the counter exact exactly when the flight is
      listed: the contract counts it either way, but only settlement of a listed flight takes
      it off the count. */
  lemma OutcomeOnUnlistedRow(w: World, k: Key, ata: nat)
    requires Reachable(w) && k in w.chain.oracle.rows
    ensures var o := Oracle.SetLanded(w.chain.oracle, k, ata);
            o.Ok? ==> (CounterExact(WithOracle(w, o.value)) <==> Listed(w, k)) && (Listed(w, k) <==> k !in w.log.evicted)
    ensures var o := Oracle.SetCancelled(w.chain.oracle, k);
            o.Ok? ==> (CounterExact(WithOracle(w, o.value)) <==> Listed(w, k)) && (Listed(w, k) <==> k !in w.log.evicted)
  {
    hide Total, Reachable;
    ReachableInv(w);
    assert FlightOk(w, k) && CounterExact(w);
    PendingBounded(w);
    hide Inv;
    if Oracle.SetLanded(w.chain.oracle, k, ata).Ok? {
      CountedOutcome(w, k, Oracle.SetLanded(w.chain.oracle, k, ata).value);
    }
    if Oracle.SetCancelled(w.chain.oracle, k).Ok? {
      CountedOutcome(w, k, Oracle.SetCancelled(w.chain.oracle, k).value);
    }
  }

  // The row of `k` became public and the counter went up by one.
  lemma CountedOutcome(w: World, k: Key, o: Oracle.OracleState)
    requires CounterExact(w) && w.chain.oracle.pending < U64_MAX && k in w.chain.oracle.rows
    requires o == w.chain.oracle.(rows := o.rows, pending := w.chain.oracle.pending + 1, sales := o.sales)
    requires k in o.rows && o.rows == w.chain.oracle.rows[k := o.rows[k]]
    requires !PublicUnsettled(w.chain.oracle.rows[k].status) && PublicUnsettled(o.rows[k].status)
    ensures CounterExact(WithOracle(w, o)) <==> Listed(w, k)
  {
    var w' := WithOracle(w, o);
    forall j ensures j in PublicFlights(w') <==> j in PublicFlights(w) || (j == k && Listed(w, k)) {
      assert j != k ==> RowOf(w', j) == RowOf(w, j);
    }
    assert PublicFlights(w') == PublicFlights(w) + (if Listed(w, k) then {k} else {});
  }

  /** Over the archived row of a flight that settled and left the list, a cancellation does
      not touch the counter, but the oracle then contradicts the closed bucket. */
  lemma CancellationOverSettledRow(w: World, k: Key)
    requires Reachable(w) && Tracked(w, k) && !Listed(w, k) && k !in w.chain.oracle.rows
    ensures var o := Oracle.SetCancelled(w.chain.oracle, k);
            o.Ok? && var w' := WithOracle(w, o.value);
            && CounterExact(w') && !w'.chain.pool.configs[k].status.Open?
            && RowOf(w, k).status.Settled? && RowOf(w', k).status.Cancelled?
  {
    hide Total, Reachable;
    ReachableInv(w);
    assert FlightOk(w, k) && CounterExact(w);
    hide Inv, CounterExact;
    TombstoneWritten(w, k, Oracle.SetCancelled(w.chain.oracle, k).value);
  }
}
