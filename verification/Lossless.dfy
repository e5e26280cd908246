/** Runs in which the ledger loses nothing: without archival and lapsed index entries the
    contracts' own checks are guard enough, and the operators need undertake nothing. */
module Lossless {
  import opened Results
  import opened Types
  import opened ActiveSet
  import opened Token
  import opened MapSums
  import Governance
  import Oracle
  import opened Controller
  import opened World
  import opened Invariant
  import opened SweepSteps
  import opened SettleSteps
  import opened BuySteps
  import opened Changes
  import opened Keepers
  import opened Preservation
  import opened Runs
  import opened Reserve
  import opened Guarantees
  import opened Drain

  // Every stored route still has its index entry.
  predicate IndexOwned(g: Governance.GovState) {
    forall r :: r in g.routes ==> r.id in g.index && g.index[r.id] == r.pair
  }

  lemma GovKeepsOwned(g: Governance.GovState, now: nat, op: GovOp, g': Governance.GovState)
    requires IndexOwned(g) && GovStep(g, now, op) == Ok(g')
    ensures IndexOwned(g')
  {
    hide Governance.AssertRouteTermsValid;
  }

  /** With all index entries in place, the check a listing passes is the owner's guard. */
  lemma OwnedMeansGuarded(g: Governance.GovState, now: nat, op: GovOp)
    requires IndexOwned(g) && op.Whitelist? && GovStep(g, now, op).Ok?
    ensures NoRival(g, op.route)
  {
    hide Governance.AssertRouteTermsValid;
  }

  lemma BuyKeepsOwned(w: World, op: Op, w': World)
    requires BuyMoves(w, op, w') && IndexOwned(w.chain.gov)
    ensures IndexOwned(w'.chain.gov)
  {
    hide BuyInsurance, Total, Bought;
    var terms := PurchaseShape(w, w'.chain, op.who, op.key, op.pair);
  }

  /** Only the ledger takes index entries away: every other step leaves all of them in place. */
  lemma StepKeepsOwned(w: World, op: Op)
    requires Inv(w) && IndexOwned(w.chain.gov) && !op.Lapse?
    ensures IndexOwned(Attempt(w, op).chain.gov)
  {
    hide Inv, Step, IndexOwned, KeeperKeeps, EnvironmentMoves, AggregatorMoves, KeeperMoves, BuyMoves, ClaimMoves, UpkeepMoves;
    hide OwnerMoves, LpMoves, GovStep;
    var w' := Attempt(w, op);
    if Step(w, op).Ok? {
      StepSorts(w, op, w');
      if IsKeeperOp(op) {
        KeeperOpKeeps(w, op, w');
        KeepersLeaveGov(w, w');
      } else if op.Buy? {
        BuyKeepsOwned(w, op, w');
      } else if op.Gov? {
        GovKeepsOwned(w.chain.gov, w.now, op.gov, w'.chain.gov);
      } else {
        OthersLeaveGov(w, op, w');
      }
    }
  }

  lemma KeepersLeaveGov(w: World, w': World)
    requires KeeperKeeps(w, w')
    ensures w'.chain.gov == w.chain.gov
  {
  }

  lemma OthersLeaveGov(w: World, op: Op, w': World)
    requires (EnvironmentMoves(w, op, w') && !op.Lapse?) || AggregatorMoves(w, op, w') || ClaimMoves(w, op, w')
          || UpkeepMoves(w, op, w') || OwnerMoves(w, op, w') || LpMoves(w, op, w')
    ensures w'.chain.gov == w.chain.gov
  {
    hide Transfer, OracleStep, ClaimStep, PoolStep, OwnerStep, LpStep;
  }

  // --- what the contracts refuse by themselves ---

  lemma ListingAllowed(w: World, op: Op)
    requires IndexOwned(w.chain.gov) && op.Gov?
    ensures Allowed(w, op)
  {
    hide Step, GovStep, IndexOwned, NoRival;
    if Step(w, op).Ok? && op.gov.Whitelist? {
      StepSorts(w, op, Attempt(w, op));
      OwnedMeansGuarded(w.chain.gov, w.now, op.gov);
    }
  }

  lemma RowOpAllowed(w: World, op: Op)
    requires Inv(w) && NothingLost(w) && !op.Gov?
    ensures Allowed(w, op)
  {
    hide Step, Total, Oracle.SetLanded, BankSide, CounterExact;
    if Step(w, op).Ok? && (op.SetCancelled? || op.EvictMissingFlight?) {
      StepSorts(w, op, Attempt(w, op));
      assert FlightOk(w, op.key);
    }
  }

  ghost predicate Lossless(ops: seq<Op>) {
    forall i :: 0 <= i < |ops| ==> !ops[i].Archive? && !ops[i].Lapse?
  }

  lemma {:induction false} LosslessRun(w: World, ops: seq<Op>)
    requires Inv(w) && NothingLost(w) && IndexOwned(w.chain.gov) && Lossless(ops)
    ensures AllAdmissible(w, ops)
    decreases |ops|
  {
    hide Inv, Attempt, NothingLost, IndexOwned, Allowed;
    if ops != [] {
      assert !ops[0].Archive? && !ops[0].Lapse?;
      if ops[0].Gov? { ListingAllowed(w, ops[0]); } else { RowOpAllowed(w, ops[0]); }
      AttemptKeeps(w, ops[0]);
      StepLosesNothing(w, ops[0]);
      StepKeepsOwned(w, ops[0]);
      LosslessRun(Attempt(w, ops[0]), ops[1..]);
    }
  }

  lemma InitialHasAll(w: World)
    requires Initial(w)
    ensures NothingLost(w) && IndexOwned(w.chain.gov)
  {
  }

  /** As long as nothing is archived and no index entry lapses, every run from deployment
      reaches a reachable state, whatever anybody attempts: all guarantees hold with no
      undertaking at all. */
  lemma NoUndertakingNeeded(w: World, ops: seq<Op>)
    requires Initial(w) && Lossless(ops)
    ensures AllAdmissible(w, ops) && Reachable(After(w, ops))
  {
    hide Inv, Initial, After, AllAdmissible, NothingLost, IndexOwned, Lossless;
    InitialInv(w);
    InitialHasAll(w);
    LosslessRun(w, ops);
  }

  // --- archival without lapse: the owner's guard is not needed ---

  predicate AllRowsAdmissible(w: World, ops: seq<Op>)
    decreases |ops|
  {
    ops == [] || ((ops[0].Gov? || Allowed(w, ops[0])) && AllRowsAdmissible(Attempt(w, ops[0]), ops[1..]))
  }

  ghost predicate NoLapse(ops: seq<Op>) {
    forall i :: 0 <= i < |ops| ==> !ops[i].Lapse?
  }

  /** Without lapses only the undertakings about rows remain. */
  lemma {:induction false} NoGuardNeeded(w: World, ops: seq<Op>)
    requires Inv(w) && IndexOwned(w.chain.gov) && AllRowsAdmissible(w, ops)
    requires NoLapse(ops)
    ensures AllAdmissible(w, ops)
    decreases |ops|
  {
    hide Inv, Attempt, IndexOwned, Allowed;
    if ops != [] {
      assert !ops[0].Lapse?;
      if ops[0].Gov? { ListingAllowed(w, ops[0]); }
      AttemptKeeps(w, ops[0]);
      StepKeepsOwned(w, ops[0]);
      NoGuardNeeded(Attempt(w, ops[0]), ops[1..]);
    }
  }

  /** In runs in which no index entry lapses, the contract's own index check alone keeps every
      bucket to one route. */
  lemma OneRouteByIndexAlone(w: World, ops: seq<Op>, x: Sale, y: Sale)
    requires Initial(w) && AllRowsAdmissible(w, ops)
    requires NoLapse(ops)
    requires x in After(w, ops).log.sales && y in After(w, ops).log.sales && x.key == y.key
    ensures x.pair == y.pair
  {
    hide Inv, Initial, After, AllAdmissible, AllRowsAdmissible, NothingLost, IndexOwned;
    InitialInv(w);
    InitialHasAll(w);
    NoGuardNeeded(w, ops);
    OneRoutePerBucket(After(w, ops), x, y);
  }

  /** Draining after any run without archival frees everything: then no row is missing and
      nothing was evicted. Where index entries lapse too, listings must be guarded. */
  lemma DrainWithoutArchival(w0: World, ops: seq<Op>, w: World)
    requires Initial(w0) && w == After(w0, ops) && forall i :: 0 <= i < |ops| ==> !ops[i].Archive?
    requires AllAdmissible(w0, ops) || forall i :: 0 <= i < |ops| ==> !ops[i].Lapse?
    requires forall k :: Listed(w, k) ==> Overdue(w, k)
    ensures var w' := Drained(w);
            && (forall k :: Listed(w, k) ==> RowOf(w', k).status.Settled?)
            && w'.chain.oracle.pending == 0 && w'.chain.vault.locked == 0
  {
    hide Inv, Total, Drained, FullSweep, After, AllAdmissible;
    if !AllAdmissible(w0, ops) {
      NoUndertakingNeeded(w0, ops);
    }
    InitialInv(w0);
    RunLosesNothing(w0, ops);
    DrainTheorem(w);
    DrainFreesAll(w);
  }
}
