/** Liveness of the bounded sweeps: once every listed flight is past its timeouts, a fixed
    number of calls settles all of them and frees all collateral, from any cursors. */
module Drain {
  import opened Results
  import opened Types
  import opened ActiveSet
  import opened Token
  import opened MapSums
  import opened BucketSums
  import Governance
  import Oracle
  import opened Controller
  import opened World
  import opened Invariant
  import opened SweepSteps
  import opened SettleSteps
  import opened BuySteps
  import opened PoolSteps
  import opened Changes
  import opened Keepers
  import opened Preservation
  import opened Runs

  // The two keeper sweeps, seen alike: each moves listed flights that are ready past its goal.
  datatype Pass = Classifying | Settling

  function OpOf(p: Pass): Op {
    if p.Classifying? then Op.ClassifyFlights else Op.ExecuteSettlements
  }

  function CursorOf(p: Pass, w: World): nat {
    if p.Classifying? then w.chain.ctrl.classifyCursor else w.chain.ctrl.settleCursor
  }

  predicate Ready(p: Pass, w: World, k: Key) {
    if p.Classifying? then Due(w, k) || (k in w.chain.oracle.rows && Done(w, k)) else k in w.chain.oracle.rows && Done(w, k)
  }

  predicate Past(p: Pass, w: World, k: Key) {
    if p.Classifying? then Done(w, k) else RowOf(w, k).status.Settled?
  }

  // The calls of one pass: failed ones would be rolled back.
  function Rounds(w: World, p: Pass, calls: nat): World {
    if calls == 0 then w else Attempt(Rounds(w, p, calls - 1), OpOf(p))
  }

  const BATCH: nat := 8

  ghost predicate SameBook(w: World, w': World) {
    && w'.now == w.now && w'.archive == w.archive && w'.log == w.log
    && w'.chain.oracle.active == w.chain.oracle.active
    && w'.chain.oracle.rows.Keys == w.chain.oracle.rows.Keys
  }

  predicate Stays(w: World, w': World, k: Key) {
    && RowOf(w', k) == RowOf(w, k)
    && (k in w.chain.pool.configs ==> k in w'.chain.pool.configs && w'.chain.pool.configs[k] == w.chain.pool.configs[k])
  }

  // A flight passes the goal when it is ready, and otherwise nothing happens to it.
  predicate Advances(p: Pass, w: World, w': World, k: Key) {
    SameDelay(w, w', k) && (Stays(w, w', k) || (Ready(p, w, k) && Past(p, w', k)))
  }

  ghost predicate Progress(p: Pass, w: World, w': World) {
    && SameBook(w, w') && UnlistedKept(w, w')
    && (forall k :: Advances(p, w, w', k))
  }

  function WindowOf(p: Pass, w: World): seq<Key> {
    Window(w.chain.oracle.active, CursorOf(p, w), BATCH)
  }

  ghost predicate RoundOk(p: Pass, w: World, w': World) {
    && Progress(p, w, w') && (forall k :: k in WindowOf(p, w) && Ready(p, w, k) ==> Past(p, w', k))
    && (|w.chain.oracle.active| > 0 ==> CursorOf(p, w') == NextCursor(CursorOf(p, w), BATCH, |w.chain.oracle.active|))
  }

  ghost predicate ClassifiesWindow(w: World, w': World) {
    Controller.ClassifyFlights(w.chain, w.now) == Ok(w'.chain) && w' == On(w, w'.chain)
  }

  ghost predicate SettlesWindow(w: World, w': World) {
    SettleWindow(w.chain, w.now, BATCH) == Ok(w'.chain) && w' == On(w, w'.chain)
  }

  lemma ClassifyRound(w: World, w': World)
    requires Inv(w) && ClassifiesWindow(w, w')
    ensures RoundOk(Classifying, w, w')
  {
    hide Inv, ClassifyKeys, Onward;
    var a := w.chain.oracle.active;
    if |a| != 0 {
      ClassifyKeysKeeps(w, WindowOf(Classifying, w));
      var w1 := On(w, ClassifyKeys(w.chain, w.now, WindowOf(Classifying, w)).value);
      assert forall k :: RowOf(w', k) == RowOf(w1, k);
    }
  }

  lemma SettleRound(w: World, w': World)
    requires Inv(w) && SettlesWindow(w, w')
    ensures RoundOk(Settling, w, w')
  {
    hide Inv, SettleKeys, Evolves, RestingKept, Tokens, ReserveCarried, VaultUsable;
    InvGivesUsable(w);
    var a, expiry := w.chain.oracle.active, w.now + w.chain.ctrl.claimWindow;
    if |a| != 0 {
      SettleKeysKeeps(w, WindowOf(Settling, w), expiry);
      var w1 := On(w, SettleKeys(w.chain, w.now, WindowOf(Settling, w), expiry).value);
      assert forall k :: RowOf(w', k) == RowOf(w1, k);
      forall k ensures Advances(Settling, w, w', k) {
        assert SettlesOrStays(w, w1, k);
      }
    }
  }

  // A keeper call always commits.
  lemma Round(p: Pass, w: World)
    requires Inv(w)
    ensures Step(w, OpOf(p)).Ok? && Inv(Attempt(w, OpOf(p))) && RoundOk(p, w, Attempt(w, OpOf(p)))
  {
    hide Inv, RoundOk, KeeperKeeps, VaultUsable, SettleWindow, Controller.ClassifyFlights;
    hide EnvironmentStep, OracleStep, BuyStep, ClaimStep, PoolStep, OwnerStep, GovStep, LpStep;
    InvGivesUsable(w);
    if p.Classifying? {
      ClassifySweepKeeps(w);
      ClassifyRound(w, Attempt(w, OpOf(p)));
    } else {
      SettleSweepKeeps(w, BATCH);
      SettleRound(w, Attempt(w, OpOf(p)));
    }
  }

  lemma ProgressTransitive(p: Pass, w1: World, w2: World, w3: World)
    requires Progress(p, w1, w2) && Progress(p, w2, w3)
    ensures Progress(p, w1, w3)
  {
    forall k ensures Advances(p, w1, w3, k) {
      assert Advances(p, w1, w2, k) && Advances(p, w2, w3, k);
    }
  }

  lemma NoProgress(p: Pass, w: World)
    ensures Progress(p, w, w)
  {
  }

  lemma {:induction false} RoundsProgress(p: Pass, w: World, first: nat, calls: nat)
    requires Inv(w) && first <= calls
    ensures Inv(Rounds(w, p, calls))
    ensures Progress(p, w, Rounds(w, p, calls)) && Progress(p, Rounds(w, p, first), Rounds(w, p, calls))
    decreases calls
  {
    hide Inv, Attempt, Progress;
    if calls == 0 {
      NoProgress(p, w);
    } else {
      var before, after := Rounds(w, p, calls - 1), Rounds(w, p, calls);
      RoundsProgress(p, w, 0, calls - 1);
      Round(p, before);
      ProgressTransitive(p, w, before, after);
      if first < calls {
        RoundsProgress(p, w, first, calls - 1);
        ProgressTransitive(p, Rounds(w, p, first), before, after);
      } else {
        NoProgress(p, after);
      }
    }
  }

  lemma {:induction false} RoundsCursor(p: Pass, w: World, calls: nat)
    requires Inv(w) && |w.chain.oracle.active| > 0
    ensures CursorOf(p, Rounds(w, p, calls)) == CursorAfter(CursorOf(p, w), BATCH, |w.chain.oracle.active|, calls)
    decreases calls
  {
    hide Inv, Attempt, Ready, Past, UnlistedKept;
    if calls > 0 {
      RoundsCursor(p, w, calls - 1);
      RoundsProgress(p, w, 0, calls - 1);
      Round(p, Rounds(w, p, calls - 1));
    }
  }

  // As many calls as reach every slot, wherever the cursor stands.
  function Calls(w: World): nat {
    FullSweep(|w.chain.oracle.active|, BATCH)
  }

  /** A full sweep brings every ready listed flight past the goal of the pass, from any cursor. */
  lemma FullPass(p: Pass, w: World)
    requires Inv(w) && forall k :: Listed(w, k) ==> Ready(p, w, k)
    ensures var w' := Rounds(w, p, Calls(w));
            Inv(w') && Progress(p, w, w') && forall k :: Listed(w, k) ==> Past(p, w', k)
  {
    hide Inv, Attempt, Ready, Past, Progress, Calls;
    RoundsProgress(p, w, 0, Calls(w));
    forall k | Listed(w, k) ensures Past(p, Rounds(w, p, Calls(w)), k) {
      FlightReached(p, w, k);
    }
  }

  lemma FlightReached(p: Pass, w: World, k: Key)
    requires Inv(w) && Listed(w, k) && Ready(p, w, k)
    ensures Past(p, Rounds(w, p, Calls(w)), k)
  {
    hide Inv, Attempt, Ready, Past, FullSweep, UnlistedKept;
    var a, m := w.chain.oracle.active, Calls(w);
    var i := IndexOf(a, k);
    var j := SweepReaches(CursorOf(p, w), BATCH, |a|, i);
    RoundsProgress(p, w, 0, j);
    StaysReady(p, w, Rounds(w, p, j), k);
    RoundsCursor(p, w, j);
    SlotInWindow(a, CursorOf(p, Rounds(w, p, j)), i);
    Round(p, Rounds(w, p, j));
    RoundsProgress(p, w, j + 1, m);
    StaysPast(p, Rounds(w, p, j + 1), Rounds(w, p, m), k);
  }

  lemma StaysReady(p: Pass, w: World, w': World, k: Key)
    requires Progress(p, w, w') && Ready(p, w, k)
    ensures Ready(p, w', k)
  {
    assert Advances(p, w, w', k);
  }

  lemma StaysPast(p: Pass, w: World, w': World, k: Key)
    requires Progress(p, w, w') && Past(p, w, k)
    ensures Past(p, w', k)
  {
    assert Advances(p, w, w', k);
  }

  lemma SlotInWindow(a: seq<Key>, cursor: nat, i: nat)
    requires WindowStart(cursor, |a|) <= i < WindowStop(cursor, BATCH, |a|)
    ensures i < |a| && a[i] in Window(a, cursor, BATCH)
  {
    assert Window(a, cursor, BATCH)[i - WindowStart(cursor, |a|)] == a[i];
  }

  // --- what draining needs from the run ---

  // No row was ever archived: every listed flight has its row and nothing was evicted.
  ghost predicate NothingLost(w: World) {
    w.archive == map[] && w.log.evicted == {} && forall k :: Listed(w, k) ==> k in w.chain.oracle.rows
  }

  lemma {:induction false} PruneKeepsMembership(o: Oracle.OracleState, now: nat, active: seq<Key>, window: seq<Key>)
    ensures forall k :: k in Oracle.PruneKeys(o, now, active, window) ==> k in active
    decreases |window|
  {
    if window != [] {
      PruneKeepsMembership(o, now, if Oracle.AgedOut(o, now, window[0]) then SwapRemove(active, window[0]) else active, window[1..]);
    }
  }

  lemma AggregatorLosesNothing(w: World, op: Op, w': World)
    requires NothingLost(w) && AggregatorMoves(w, op, w')
    ensures NothingLost(w')
  {
    hide IndexOf;
    if op.PruneSettled? {
      PruneKeepsMembership(w.chain.oracle, w.now, w.chain.oracle.active,
                           Window(w.chain.oracle.active, w.chain.oracle.pruneCursor, MAX_PRUNE_BATCH));
    }
  }

  lemma BuyLosesNothing(w: World, op: Op, w': World)
    requires NothingLost(w) && BuyMoves(w, op, w')
    ensures NothingLost(w')
  {
    hide BuyInsurance, Total, PoolJoined, Transfer;
    var terms := PurchaseShape(w, w'.chain, op.who, op.key, op.pair);
  }

  lemma EnvironmentLosesNothing(w: World, op: Op, w': World)
    requires NothingLost(w) && EnvironmentMoves(w, op, w') && !op.Archive?
    ensures NothingLost(w')
  {
    hide Transfer, Governance.LapseIndex;
  }

  lemma StepLosesNothing(w: World, op: Op)
    requires Inv(w) && NothingLost(w) && !op.Archive?
    ensures NothingLost(Attempt(w, op))
  {
    hide Inv, Step, Tokens, Evolves, RestingKept, ReserveCarried, EnvironmentMoves, AggregatorMoves, KeeperMoves, BuyMoves;
    hide ClaimStep, PoolStep, OwnerStep, GovStep, LpStep;
    var w' := Attempt(w, op);
    if Step(w, op).Ok? {
      StepSorts(w, op, w');
      if IsEnvironmentOp(op) {
        EnvironmentLosesNothing(w, op, w');
      } else if IsAggregatorOp(op) {
        AggregatorLosesNothing(w, op, w');
      } else if IsKeeperOp(op) {
        KeeperOpKeeps(w, op, w');
      } else if op.Buy? {
        BuyLosesNothing(w, op, w');
      }
    }
  }

  ghost predicate NoArchival(ops: seq<Op>) {
    forall i :: 0 <= i < |ops| ==> !ops[i].Archive?
  }

  lemma {:induction false} RunLosesNothing(w: World, ops: seq<Op>)
    requires Inv(w) && NothingLost(w) && AllAdmissible(w, ops) && NoArchival(ops)
    ensures NothingLost(After(w, ops))
    decreases |ops|
  {
    hide Inv, Attempt, NothingLost, Allowed;
    if ops != [] {
      AttemptKeeps(w, ops[0]);
      StepLosesNothing(w, ops[0]);
      RunLosesNothing(Attempt(w, ops[0]), ops[1..]);
    }
  }

  // --- the theorem ---

  function Drained(w: World): World {
    Rounds(Rounds(w, Classifying, Calls(w)), Settling, Calls(w))
  }

  // The collateral of an evicted flight waits for its own exit.
  function EvictedBuckets(w: World): map<Key, FlightConfig> {
    map k | k in w.chain.pool.configs && k in w.log.evicted :: w.chain.pool.configs[k]
  }

  lemma {:induction false} TotalRestrict<K(!new), V>(m: map<K, V>, part: map<K, V>, weight: V -> int)
    requires forall k :: k in part ==> k in m && part[k] == m[k]
    requires forall k :: k in m && k !in part ==> weight(m[k]) == 0
    ensures Total(part, weight) == Total(m, weight)
    decreases |m|
  {
    hide Total;
    if k :| k in m {
      SmallerMap(m, k);
      TotalRemove(m, weight, k);
      TotalRestrict(m - {k}, part - {k}, weight);
      if k in part {
        TotalRemove(part, weight, k);
      } else {
        assert part - {k} == part;
      }
    } else {
      assert part == m;
    }
  }

  // With every listed flight settled nothing is public, and only evicted buckets hold collateral.
  lemma OnlyEvictedOpen(w: World)
    requires Inv(w) && forall k :: Listed(w, k) ==> RowOf(w, k).status.Settled?
    ensures w.chain.oracle.pending == 0 && w.chain.vault.locked == Total(EvictedBuckets(w), Collateral)
  {
    hide Total;
    assert PublicFlights(w) == {};
    forall k | k in w.chain.pool.configs && k !in EvictedBuckets(w) ensures Collateral(w.chain.pool.configs[k]) == 0 {
      assert FlightOk(w, k);
    }
    TotalRestrict(w.chain.pool.configs, EvictedBuckets(w), Collateral);
  }

  // --- flight by flight: no timeouts to wait for once the outcome was reported ---

  // How the flight ended was reported, or it is too late for that.
  predicate OutcomeKnown(w: World, k: Key) {
    k in w.log.outcomes || TimedOut(w, k)
  }

  function ClosesAs(w: World, k: Key): SettlementStatus
    requires k in w.chain.pool.configs
  {
    if WasCancelled(w, k) then SettledCancelled else if LandedLate(w, k) then SettledDelayed else SettledOnTime
  }

  lemma KnownMeansReady(w: World, k: Key)
    requires FlightOk(w, k) && Listed(w, k) && k in w.chain.oracle.rows
    ensures Tracked(w, k) && (Ready(Classifying, w, k) <==> OutcomeKnown(w, k))
  {
  }

  lemma SettledAsKnown(w: World, k: Key)
    requires FlightOk(w, k) && Tracked(w, k) && RowOf(w, k).status.Settled?
    ensures w.chain.pool.configs[k].status == ClosesAs(w, k)
  {
  }

  // The two passes, for one flight.
  lemma PassesReach(w: World, k: Key)
    requires Inv(w) && Listed(w, k) && k in w.chain.oracle.rows
    ensures var w' := Drained(w);
            && Inv(w') && SameBook(w, w') && SameDelay(w, w', k)
            && (if Ready(Classifying, w, k) then RowOf(w', k).status.Settled? else Stays(w, w', k))
  {
    hide Inv, Rounds, FullSweep;
    var m := Calls(w);
    var w1 := Rounds(w, Classifying, m);
    var w2 := Rounds(w1, Settling, m);
    RoundsProgress(Classifying, w, 0, m);
    RoundsProgress(Settling, w1, 0, m);
    assert Advances(Classifying, w, w1, k) && Advances(Settling, w1, w2, k);
    if Ready(Classifying, w, k) {
      FlightReached(Classifying, w, k);
      FlightReached(Settling, w1, k);
    }
  }

  /** The same number of calls settles each listed flight with a row whose outcome is known at
      the start, the way that outcome says, however long its timeouts have still to run; and
      does nothing to a flight whose outcome is not known. */
  lemma KnownOutcomesSettle(w: World, k: Key)
    requires Reachable(w) && Listed(w, k) && k in w.chain.oracle.rows
    ensures k in w.chain.pool.configs
    ensures var w' := Drained(w);
            && k in w'.chain.pool.configs
            && (OutcomeKnown(w, k) ==> RowOf(w', k).status.Settled? && w'.chain.pool.configs[k].status == ClosesAs(w, k))
            && (!OutcomeKnown(w, k) ==> RowOf(w', k) == RowOf(w, k) && w'.chain.pool.configs[k] == w.chain.pool.configs[k])
  {
    hide Reachable, CounterExact, BankSide, Drained, Progress, FlightOk;
    ReachableInv(w);
    assert FlightOk(w, k);
    KnownMeansReady(w, k);
    PassesReach(w, k);
    assert FlightOk(Drained(w), k);
    if OutcomeKnown(w, k) {
      SettledAsKnown(Drained(w), k);
    }
  }

  lemma AllReady(w: World)
    requires Coherent(w) && forall k :: Listed(w, k) ==> k in w.chain.oracle.rows && Overdue(w, k)
    ensures forall k :: Listed(w, k) ==> Ready(Classifying, w, k)
  {
    forall k | Listed(w, k) ensures Ready(Classifying, w, k) {
      assert FlightOk(w, k);
      OverdueIsDue(w, k);
    }
  }

  lemma EvictedUnlisted(w: World)
    requires Coherent(w)
    ensures forall k :: k in w.log.evicted ==> !Listed(w, k)
  {
    forall k | k in w.log.evicted ensures !Listed(w, k) {
      assert FlightOk(w, k);
    }
  }

  /** From any reachable state in which every listed flight has its row and is past its last
      timeout, ceil(n/8) + 1 classification calls and as many settlement calls settle every
      listed flight and clear the barrier. What stays locked is exactly the collateral of the
      evicted buckets that still wait for their own settlement. */
  lemma DrainTheorem(w: World)
    requires Reachable(w) && forall k :: Listed(w, k) ==> k in w.chain.oracle.rows && Overdue(w, k)
    ensures var w' := Drained(w);
            && Inv(w') && w'.chain.oracle.active == w.chain.oracle.active
            && (forall k :: Listed(w, k) ==> RowOf(w', k).status.Settled?)
            && w'.chain.oracle.pending == 0
            && w'.chain.vault.locked == Total(EvictedBuckets(w), Collateral)
  {
    hide Reachable, Coherent, CounterExact, BankSide, Total, Rounds, FullSweep;
    ReachableInv(w);
    AllReady(w);
    FullPass(Classifying, w);
    var m := Calls(w);
    var w1 := Rounds(w, Classifying, m);
    forall k | Listed(w1, k) ensures Ready(Settling, w1, k) {
      assert Listed(w, k) && Past(Classifying, w1, k);
    }
    FullPass(Settling, w1);
    var w2 := Rounds(w1, Settling, m);
    forall k | Listed(w, k) ensures RowOf(w2, k).status.Settled? {
      assert Past(Settling, w2, k);
    }
    OnlyEvictedOpen(w2);
    EvictedUnlisted(w);
    assert EvictedBuckets(w2) == EvictedBuckets(w);
  }

  /** Everything is free once no evicted bucket is open. */
  lemma DrainFreesAll(w: World)
    requires Reachable(w) && forall k :: Listed(w, k) ==> k in w.chain.oracle.rows && Overdue(w, k)
    ensures Drained(w).chain.vault.locked == 0
       <==> forall k :: k in w.log.evicted && k in w.chain.pool.configs ==> !w.chain.pool.configs[k].status.Open?
  {
    hide Reachable, OracleSide, PoolOk, MoneyOk, SalesOk, PaymentsOk, RoutesOk, Total, Drained, Collateral;
    DrainTheorem(w);
    ReachableInv(w);
    forall k | k in EvictedBuckets(w)
      ensures Collateral(EvictedBuckets(w)[k]) >= 0 && (Collateral(EvictedBuckets(w)[k]) > 0 <==> w.chain.pool.configs[k].status.Open?)
    {
      CollateralOfBucket(w, k);
    }
    if forall k :: k in EvictedBuckets(w) ==> !w.chain.pool.configs[k].status.Open? {
      TotalZero(EvictedBuckets(w), Collateral);
    } else {
      var k :| k in EvictedBuckets(w) && w.chain.pool.configs[k].status.Open?;
      TotalMember(EvictedBuckets(w), Collateral, k);
    }
  }

  lemma CollateralOfBucket(w: World, k: Key)
    requires PoolOk(w.chain.pool, w.now) && k in w.chain.pool.configs
    ensures var c := w.chain.pool.configs[k]; Collateral(c) >= 0 && (Collateral(c) > 0 <==> c.status.Open?)
  {
    assert PoolKeyOk(w.chain.pool, w.now, k);
    WeightsOfBucket(w.chain.pool, w.now, k);
  }

  /** None of those calls, nor any keeper sweep in any reachable state, aborts. */
  lemma SweepsNeverAbort(w: World, limit: nat)
    requires Reachable(w)
    ensures Controller.ClassifyFlights(w.chain, w.now).Ok?
    ensures Controller.ExecuteSettlements(w.chain, w.now).Ok?
    ensures Controller.ExecuteSettlementsBounded(w.chain, w.now, limit).Ok?
  {
    hide Inv, Reachable, SettleWindow, Controller.ClassifyFlights;
    ReachableInv(w);
    ClassifySweepKeeps(w);
    SettleSweepKeeps(w, MAX_SETTLE_BATCH);
    SettleSweepKeeps(w, Max(1, Min(limit, MAX_SETTLE_BATCH)));
  }
}
