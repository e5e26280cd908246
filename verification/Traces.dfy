/** Runs read off their calls: which accepted calls explain what a state holds, and which
    calls, by being missing, exclude it. */
module Traces {
  import opened Results
  import opened Types
  import opened Token
  import Governance
  import Oracle
  import opened Controller
  import opened World
  import opened Invariant
  import opened BuySteps
  import opened GovSteps
  import opened EntryPoints
  import opened Changes
  import opened Keepers
  import opened Preservation
  import opened Runs
  import opened Guarantees

  // --- a run, call by call ---

  // Call `i` is `ops[i]`; it was accepted or not; it led from `states[i]` to `states[i + 1]`.
  datatype Trail = Trail(ops: seq<Op>, accepted: seq<bool>, states: seq<World>)

  predicate Aligned(t: Trail) {
    |t.accepted| == |t.ops| && |t.states| == |t.ops| + 1
  }

  predicate MadeAt(t: Trail, i: nat)
    requires Aligned(t)
  {
    i < |t.ops| ==>
      && Allowed(t.states[i], t.ops[i]) && t.states[i + 1] == Attempt(t.states[i], t.ops[i])
      && (t.accepted[i] <==> Step(t.states[i], t.ops[i]).Ok?)
  }

  ghost predicate IsTrail(t: Trail) {
    Aligned(t) && forall i :: 0 <= i < |t.ops| ==> MadeAt(t, i)
  }

  // A trail that starts at deployment.
  ghost predicate Deployed(t: Trail) {
    IsTrail(t) && Initial(t.states[0])
  }

  /** Every run has a trail. */
  lemma {:induction false} TrailOf(w: World, ops: seq<Op>) returns (t: Trail)
    requires AllAdmissible(w, ops)
    ensures IsTrail(t) && t.ops == ops && t.states[0] == w && t.states[|ops|] == After(w, ops)
    decreases |ops|
  {
    hide Allowed, Attempt, Step;
    if ops == [] {
      t := Trail([], [], [w]);
    } else {
      var rest := TrailOf(Attempt(w, ops[0]), ops[1..]);
      t := Trail(ops, [Step(w, ops[0]).Ok?] + rest.accepted, [w] + rest.states);
      forall i: nat | i < |ops| ensures MadeAt(t, i) {
        assert i > 0 ==> MadeAt(rest, i - 1);
      }
    }
  }

  // --- what one call changes of what is traced ---

  function WindowOf(w: World, k: Key): Option<nat> {
    if k in w.chain.oracle.sales then Some(w.chain.oracle.sales[k]) else None
  }

  predicate MovesWindow(op: Op, k: Key) {
    (op.OpenSale? && op.key == k) || op == Op.CloseSale(k) || op == Op.SetCancelled(k)
  }

  // A landing, or the cancellation of a flight that has a row.
  predicate Reports(w: World, op: Op, k: Key) {
    (op.SetLanded? && op.key == k) || (op == Op.SetCancelled(k) && k in w.chain.oracle.rows)
  }

  function Reported(op: Op): Outcome
    requires op.SetLanded? || op.SetCancelled?
  {
    if op.SetLanded? then Arrival(op.ata) else Cancellation
  }

  datatype Standing = Missing | Disabled | Approved

  // Whether a route is stored, and approved.
  function Stands(w: World, r: Governance.RouteKey): Standing {
    if r !in w.chain.gov.routes then Missing else if w.chain.gov.routes[r].approved then Approved else Disabled
  }

  predicate Lists(op: Op, r: Governance.RouteKey) {
    op.Gov? && op.gov.Whitelist? && op.gov.route == r
  }

  predicate WindowFollows(w: World, op: Op, w': World, k: Key) {
    WindowOf(w', k) == if MovesWindow(op, k) then (if op.OpenSale? then Some(op.expiresAt) else None) else WindowOf(w, k)
  }

  predicate ReportsFollow(w: World, op: Op, w': World, k: Key) {
    && (if op.SetEstimatedArrival? && op.key == k then k in w'.log.etas && w'.log.etas[k] == op.eta
        else (k in w'.log.etas <==> k in w.log.etas) && (k in w.log.etas ==> w'.log.etas[k] == w.log.etas[k]))
    && (if Reports(w, op, k) then k in w'.log.outcomes && w'.log.outcomes[k] == Reported(op)
        else (k in w'.log.outcomes <==> k in w.log.outcomes) && (k in w.log.outcomes ==> w'.log.outcomes[k] == w.log.outcomes[k]))
  }

  // An accepted listing finds the route missing or approved already.
  predicate RouteFollows(w: World, op: Op, w': World, r: Governance.RouteKey) {
    if Lists(op, r) then Stands(w', r) == Approved && Stands(w, r) != Disabled
    else if op == Gov(Enable(r)) then Stands(w', r) == Approved
    else if op == Gov(Disable(r)) then Stands(w', r) == Disabled
    else if op == Gov(Remove(r)) then Stands(w', r) == Missing
    else Stands(w', r) == Stands(w, r)
  }

  // A purchase finds its sale open and its route approved, and is recorded with its time.
  predicate SaleFollows(w: World, op: Op, w': World, x: Sale) {
    if op == Buy(x.who, x.key, x.pair) then
      && x.key in w.chain.oracle.sales && w.now < w.chain.oracle.sales[x.key]
      && Stands(w, Governance.RouteKey(x.key.id, x.pair)) == Approved
      && (x in w'.log.sales && x !in w.log.sales ==> x.time == w.now)
    else x in w'.log.sales ==> x in w.log.sales
  }

  ghost predicate Follows(w: World, op: Op, w': World) {
    && (forall k :: WindowFollows(w, op, w', k)) && (forall k :: ReportsFollow(w, op, w', k))
    && (forall r :: RouteFollows(w, op, w', r)) && (forall x :: SaleFollows(w, op, w', x))
  }

  // Nothing that is traced here changes.
  predicate Quiet(w: World, w': World) {
    && w'.chain.oracle.sales == w.chain.oracle.sales && w'.chain.gov.routes == w.chain.gov.routes
    && w'.log.sales == w.log.sales && w'.log.etas == w.log.etas && w'.log.outcomes == w.log.outcomes
  }

  lemma QuietFollows(w: World, op: Op, w': World)
    requires Quiet(w, w') && !IsAggregatorOp(op) && !op.Buy? && !op.Gov?
    ensures Follows(w, op, w')
  {
  }

  lemma OthersAreQuiet(w: World, op: Op, w': World)
    requires EnvironmentMoves(w, op, w') || ClaimMoves(w, op, w') || UpkeepMoves(w, op, w') || OwnerMoves(w, op, w') || LpMoves(w, op, w')
    ensures Quiet(w, w')
  {
    hide Transfer, ClaimStep, PoolStep, OwnerStep, LpStep;
  }

  lemma KeepersAreQuiet(w: World, w': World)
    requires KeeperKeeps(w, w')
    ensures Quiet(w, w')
  {
    hide Evolves, RestingKept, Tokens, ReserveCarried;
  }

  lemma OracleFollows(w: World, op: Op, w': World)
    requires AggregatorMoves(w, op, w')
    ensures Follows(w, op, w')
  {
    hide OracleStep;
    OracleMovesWindows(w, op, w');
  }

  lemma OracleMovesWindows(w: World, op: Op, w': World)
    requires AggregatorMoves(w, op, w')
    ensures forall k :: WindowFollows(w, op, w', k)
  {
    hide Oracle.OpenSale, Oracle.CloseSale, Oracle.SetCancelled, Oracle.SetEstimatedArrival, Oracle.SetLanded, OracleLog;
    if op.OpenSale? || op.CloseSale? {
      SaleWindows(w.chain.oracle, w.now, op.key, if op.OpenSale? then op.expiresAt else 0);
    } else if op.SetCancelled? {
      CancellationStored(w.chain.oracle, op.key);
    } else if op.SetEstimatedArrival? {
      EstimateStored(w.chain.oracle, op.key, op.eta);
    } else if op.SetLanded? {
      LandingStored(w.chain.oracle, op.key, op.ata);
    }
  }

  lemma BuyFollows(w: World, op: Op, w': World)
    requires BuyMoves(w, op, w')
    ensures Follows(w, op, w')
  {
    hide BuyInsurance, Transfer, PoolJoined, SaleOpen;
    var t := PurchaseShape(w, w'.chain, op.who, op.key, op.pair);
    AdmittedIsOnSale(w.chain, w.now, op.who, op.key, op.pair);
    forall x ensures SaleFollows(w, op, w', x) {
      assert x in w'.log.sales ==> x in w.log.sales || x == Sale(op.who, op.key, op.pair, w.now, x.premium);
    }
  }

  lemma AdmittedIsOnSale(c: Chain, now: nat, who: Person, k: Key, pair: Governance.Pair)
    requires AdmitBuyer(c, now, who, k, pair).Ok?
    ensures k in c.oracle.sales && now < c.oracle.sales[k]
    ensures var r := Governance.RouteKey(k.id, pair); r in c.gov.routes && c.gov.routes[r].approved
  {
    hide CheckSaleWindow, BindTerms, Governance.TermsValid, Governance.ResolveTerms;
    SaleWindowExact(c, now, k);
  }

  lemma GovFollows(w: World, op: Op, w': World)
    requires GovMoves(w, op, w')
    ensures Follows(w, op, w')
  {
    hide GovStep;
    forall r ensures RouteFollows(w, op, w', r) {
      GovMovesRoute(w, op, w', r);
    }
  }

  lemma GovMovesRoute(w: World, op: Op, w': World, r: Governance.RouteKey)
    requires GovMoves(w, op, w')
    ensures RouteFollows(w, op, w', r)
  {
    hide Governance.AssertRouteTermsValid, Governance.AssertTermsValid, Governance.TermsValid, Governance.ResolveTerms, Governance.ApplyUpdate;
  }

  lemma StepFollows(w: World, op: Op, w': World)
    requires Inv(w) && Step(w, op) == Ok(w')
    ensures Follows(w, op, w')
  {
    hide Inv, Step, Quiet, Follows, KeeperKeeps, EnvironmentMoves, AggregatorMoves, KeeperMoves, BuyMoves, ClaimMoves, UpkeepMoves;
    hide OwnerMoves, GovMoves, LpMoves;
    StepSorts(w, op, w');
    if IsAggregatorOp(op) {
      OracleFollows(w, op, w');
    } else if op.Buy? {
      BuyFollows(w, op, w');
    } else if op.Gov? {
      GovFollows(w, op, w');
    } else {
      if IsKeeperOp(op) {
        KeeperOpKeeps(w, op, w');
        KeepersAreQuiet(w, w');
      } else {
        OthersAreQuiet(w, op, w');
      }
      QuietFollows(w, op, w');
    }
  }

  // --- the trail of a run ---

  // What a call of a trail did, if it was accepted.
  ghost predicate CallAt(t: Trail, i: nat)
    requires Aligned(t)
  {
    i < |t.ops| ==> if t.accepted[i] then Follows(t.states[i], t.ops[i], t.states[i + 1]) else t.states[i + 1] == t.states[i]
  }

  // The part of a trail that the explanations below are about.
  ghost predicate Traced(t: Trail) {
    Aligned(t) && forall i :: 0 <= i < |t.ops| ==> CallAt(t, i)
  }

  lemma {:induction false} InvAlong(t: Trail, n: nat)
    requires IsTrail(t) && Inv(t.states[0]) && n <= |t.ops|
    ensures Inv(t.states[n])
  {
    hide Inv, Allowed, Attempt, Step;
    if n > 0 {
      InvAlong(t, n - 1);
      assert MadeAt(t, n - 1);
      AttemptKeeps(t.states[n - 1], t.ops[n - 1]);
    }
  }

  lemma TrailTraced(t: Trail)
    requires IsTrail(t) && Inv(t.states[0])
    ensures Traced(t)
  {
    hide Inv, Allowed, Step, Follows;
    forall i: nat | i < |t.ops| ensures CallAt(t, i) {
      InvAlong(t, i);
      assert MadeAt(t, i);
      if t.accepted[i] {
        StepFollows(t.states[i], t.ops[i], t.states[i + 1]);
      }
    }
  }

  lemma DeployedTraced(t: Trail)
    requires Deployed(t)
    ensures Traced(t) && Inv(t.states[|t.ops|])
    ensures var w := t.states[0];
            w.chain.oracle.sales == map[] && w.log.sales == [] && w.log.etas == map[] && w.log.outcomes == map[]
  {
    hide Inv, MadeAt;
    InitialInv(t.states[0]);
    TrailTraced(t);
    InvAlong(t, |t.ops|);
  }

  // --- windows ---

  // Call `i` opened the window of `k` up to `end`, and none of the calls up to `n` moved it since.
  ghost predicate Opened(t: Trail, n: nat, k: Key, end: nat, i: nat)
    requires Aligned(t)
  {
    && i < n <= |t.ops| && t.accepted[i] && t.ops[i] == Op.OpenSale(k, end)
    && forall m :: i < m < n && t.accepted[m] ==> !MovesWindow(t.ops[m], k)
  }

  /** At every point of a run a flight has a window up to `end` if and only if some accepted
      call opened it up to `end` and no accepted call opened, closed or cancelled it since. */
  lemma {:induction false} WindowExplained(t: Trail, n: nat, k: Key, end: nat)
    requires Traced(t) && n <= |t.ops| && k !in t.states[0].chain.oracle.sales
    ensures WindowOf(t.states[n], k) == Some(end) <==> exists i :: Opened(t, n, k, end, i)
    decreases n
  {
    hide WindowOf, Opened;
    if n == 0 {
      NoneOpened(t, k, end);
    } else {
      var last := n - 1;
      WindowExplained(t, last, k, end);
      assert CallAt(t, last);
      assert t.accepted[last] ==> WindowFollows(t.states[last], t.ops[last], t.states[n], k);
      hide Follows, CallAt;
      OpenedLater(t, last, n, k, end);
    }
  }

  lemma NoneOpened(t: Trail, k: Key, end: nat)
    requires Aligned(t) && k !in t.states[0].chain.oracle.sales
    ensures WindowOf(t.states[0], k) == None && forall i :: !Opened(t, 0, k, end, i)
  {
  }

  lemma OpenedLater(t: Trail, last: nat, n: nat, k: Key, end: nat)
    requires Aligned(t) && last < |t.ops| && n == last + 1
    ensures t.accepted[last] && MovesWindow(t.ops[last], k)
        ==> ((exists i :: Opened(t, n, k, end, i)) <==> t.ops[last] == Op.OpenSale(k, end))
    ensures !(t.accepted[last] && MovesWindow(t.ops[last], k))
        ==> ((exists i :: Opened(t, n, k, end, i)) <==> exists i :: Opened(t, last, k, end, i))
  {
    if t.accepted[last] && t.ops[last] == Op.OpenSale(k, end) {
      assert Opened(t, n, k, end, last);
    } else if !(t.accepted[last] && MovesWindow(t.ops[last], k)) {
      if i :| Opened(t, last, k, end, i) {
        assert Opened(t, n, k, end, i);
      }
      if i :| Opened(t, n, k, end, i) {
        assert Opened(t, last, k, end, i);
      }
    }
  }

  // --- sales ---

  ghost predicate MadeBy(t: Trail, x: Sale, j: nat)
    requires Aligned(t)
  {
    j < |t.ops| && t.accepted[j] && t.ops[j] == Buy(x.who, x.key, x.pair) && x.time == t.states[j].now
  }

  lemma {:induction false} SaleExplained(t: Trail, n: nat, x: Sale) returns (j: nat)
    requires Traced(t) && n <= |t.ops| && x !in t.states[0].log.sales && x in t.states[n].log.sales
    ensures j < n && MadeBy(t, x, j)
    decreases n
  {
    assert CallAt(t, n - 1);
    assert t.accepted[n - 1] ==> SaleFollows(t.states[n - 1], t.ops[n - 1], t.states[n], x);
    if x in t.states[n - 1].log.sales {
      j := SaleExplained(t, n - 1, x);
    } else {
      j := n - 1;
    }
  }

  /** Every recorded sale was made by an accepted purchase, at a time inside a window that an
      accepted call had opened and no accepted call had closed, cancelled or replaced. */
  lemma SoldInsideWindow(t: Trail, x: Sale) returns (i: nat, j: nat, end: nat)
    requires Deployed(t) && x in t.states[|t.ops|].log.sales
    ensures MadeBy(t, x, j) && Opened(t, j, x.key, end, i) && x.time < end
  {
    hide Deployed, Inv, IsTrail;
    DeployedTraced(t);
    j := SaleExplained(t, |t.ops|, x);
    assert CallAt(t, j) && SaleFollows(t.states[j], t.ops[j], t.states[j + 1], x);
    end := t.states[j].chain.oracle.sales[x.key];
    WindowExplained(t, j, x.key, end);
    i :| Opened(t, j, x.key, end, i);
  }

  // --- reports ---

  ghost predicate EstimatedBy(t: Trail, n: nat, k: Key, eta: nat, i: nat)
    requires Aligned(t)
  {
    i < n <= |t.ops| && t.accepted[i] && t.ops[i] == Op.SetEstimatedArrival(k, eta)
  }

  ghost predicate ReportedBy(t: Trail, n: nat, k: Key, outcome: Outcome, j: nat)
    requires Aligned(t)
  {
    && j < n <= |t.ops| && t.accepted[j]
    && t.ops[j] == (match outcome case Arrival(ata) => Op.SetLanded(k, ata) case Cancellation => Op.SetCancelled(k))
  }

  // Up to call `n` nobody reported how `k` ended.
  ghost predicate Unreported(t: Trail, n: nat, k: Key)
    requires Aligned(t)
  {
    forall j :: 0 <= j < n <= |t.ops| && t.accepted[j] ==> !Reports(t.states[j], t.ops[j], k)
  }

  lemma {:induction false} EstimateExplained(t: Trail, n: nat, k: Key) returns (i: nat)
    requires Traced(t) && n <= |t.ops| && k !in t.states[0].log.etas && k in t.states[n].log.etas
    ensures EstimatedBy(t, n, k, t.states[n].log.etas[k], i)
    decreases n
  {
    assert CallAt(t, n - 1);
    assert t.accepted[n - 1] ==> ReportsFollow(t.states[n - 1], t.ops[n - 1], t.states[n], k);
    if t.accepted[n - 1] && t.ops[n - 1].SetEstimatedArrival? && t.ops[n - 1].key == k {
      i := n - 1;
    } else {
      i := EstimateExplained(t, n - 1, k);
    }
  }

  lemma {:induction false} OutcomeExplained(t: Trail, n: nat, k: Key) returns (j: nat)
    requires Traced(t) && n <= |t.ops| && k !in t.states[0].log.outcomes && k in t.states[n].log.outcomes
    ensures ReportedBy(t, n, k, t.states[n].log.outcomes[k], j)
    decreases n
  {
    assert CallAt(t, n - 1);
    assert t.accepted[n - 1] ==> ReportsFollow(t.states[n - 1], t.ops[n - 1], t.states[n], k);
    if t.accepted[n - 1] && Reports(t.states[n - 1], t.ops[n - 1], k) {
      j := n - 1;
    } else {
      j := OutcomeExplained(t, n - 1, k);
    }
  }

  lemma {:induction false} SilenceExplained(t: Trail, n: nat, k: Key)
    requires Traced(t) && n <= |t.ops| && k !in t.states[n].log.outcomes
    ensures Unreported(t, n, k)
    decreases n
  {
    if n > 0 {
      assert CallAt(t, n - 1);
      assert t.accepted[n - 1] ==> ReportsFollow(t.states[n - 1], t.ops[n - 1], t.states[n], k);
      SilenceExplained(t, n - 1, k);
    }
  }

  ghost predicate LandedAfter(t: Trail, k: Key, eta: nat, ata: nat)
    requires Aligned(t)
  {
    (exists i :: EstimatedBy(t, |t.ops|, k, eta, i)) && (exists j :: ReportedBy(t, |t.ops|, k, Arrival(ata), j))
  }

  /** How a bucket was settled, read off the calls of the run: as delayed after an accepted
      landing the locked number of hours past an accepted estimate; as cancelled after an accepted
      cancellation; on time after a landing before that, or when nothing was reported at all, or
      for an evicted flight. */
  lemma SettlementExplained(t: Trail, k: Key)
    requires Deployed(t) && k in t.states[|t.ops|].chain.pool.configs
    ensures var w := t.states[|t.ops|]; var c := w.chain.pool.configs[k];
            match c.status
            case Open => true
            case SettledDelayed => exists eta: nat, ata: nat :: LandedAfter(t, k, eta, ata) && ata >= eta + Hours(c.delayHours)
            case SettledCancelled => exists j :: ReportedBy(t, |t.ops|, k, Cancellation, j)
            case SettledOnTime =>
              || k in w.log.evicted
              || (exists eta: nat, ata: nat :: LandedAfter(t, k, eta, ata) && ata < eta + Hours(c.delayHours))
              || Unreported(t, |t.ops|, k)
  {
    hide Deployed, IsTrail, Inv, CallAt, EstimatedBy, ReportedBy, Unreported;
    DeployedTraced(t);
    var w := t.states[|t.ops|];
    BucketIsJustified(w, k);
    if k in w.log.etas {
      var i := EstimateExplained(t, |t.ops|, k);
    }
    if k in w.log.outcomes {
      var j := OutcomeExplained(t, |t.ops|, k);
    } else {
      SilenceExplained(t, |t.ops|, k);
    }
    assert k in w.log.etas && k in w.log.outcomes && w.log.outcomes[k].Arrival?
      ==> LandedAfter(t, k, w.log.etas[k], w.log.outcomes[k].ata);
  }

  lemma BucketIsJustified(w: World, k: Key)
    requires Inv(w) && k in w.chain.pool.configs
    ensures BucketJustified(w, k)
  {
    hide BankSide, CounterExact;
    assert FlightOk(w, k);
  }

  // --- routes ---

  ghost predicate Removed(t: Trail, from: nat, n: nat, r: Governance.RouteKey, m: nat)
    requires Aligned(t)
  {
    from < m < n <= |t.ops| && t.accepted[m] && t.ops[m] == Gov(Remove(r))
  }

  // Enabled again, or listed anew after it was removed.
  ghost predicate Reopened(t: Trail, from: nat, n: nat, r: Governance.RouteKey, i: nat)
    requires Aligned(t)
  {
    && from < i < n <= |t.ops| && t.accepted[i]
    && (t.ops[i] == Gov(Enable(r)) || (Lists(t.ops[i], r) && exists m :: Removed(t, from, i, r, m)))
  }

  // While the route is approved again it was reopened, and while it is gone it was removed.
  ghost predicate DisabledSince(t: Trail, from: nat, n: nat, r: Governance.RouteKey, s: Standing)
    requires Aligned(t)
  {
    && (s == Approved ==> exists i :: Reopened(t, from, n, r, i))
    && (s == Missing ==> exists m :: Removed(t, from, n, r, m))
  }

  lemma {:induction false} StaysDisabled(t: Trail, from: nat, n: nat, r: Governance.RouteKey)
    requires Traced(t) && from < n <= |t.ops| && t.accepted[from] && t.ops[from] == Gov(Disable(r))
    ensures DisabledSince(t, from, n, r, Stands(t.states[n], r))
    decreases n
  {
    hide Stands, Reopened, Removed, DisabledSince;
    var last := n - 1;
    assert CallAt(t, last);
    assert t.accepted[last] ==> RouteFollows(t.states[last], t.ops[last], t.states[n], r);
    var s := Stands(t.states[last], r);
    if last == from {
      NeverOff(t, from, n, r);
    } else {
      StaysDisabled(t, from, last, r);
      Longer(t, from, last, r, s);
      if t.accepted[last] {
        LastCall(t, from, last, r, s);
      }
    }
  }

  lemma NeverOff(t: Trail, from: nat, n: nat, r: Governance.RouteKey)
    requires Aligned(t)
    ensures DisabledSince(t, from, n, r, Disabled)
  {
  }

  lemma Longer(t: Trail, from: nat, last: nat, r: Governance.RouteKey, s: Standing)
    requires Aligned(t) && last < |t.ops| && DisabledSince(t, from, last, r, s)
    ensures DisabledSince(t, from, last + 1, r, s)
  {
    if s == Approved {
      var i :| Reopened(t, from, last, r, i);
      assert Reopened(t, from, last + 1, r, i);
    } else if s == Missing {
      var m :| Removed(t, from, last, r, m);
      assert Removed(t, from, last + 1, r, m);
    }
  }

  lemma LastCall(t: Trail, from: nat, last: nat, r: Governance.RouteKey, s: Standing)
    requires Aligned(t) && from < last < |t.ops| && t.accepted[last] && DisabledSince(t, from, last, r, s)
    ensures DisabledSince(t, from, last + 1, r, Disabled)
    ensures t.ops[last] == Gov(Remove(r)) ==> DisabledSince(t, from, last + 1, r, Missing)
    ensures t.ops[last] == Gov(Enable(r)) || (Lists(t.ops[last], r) && s != Disabled) ==> DisabledSince(t, from, last + 1, r, Approved)
  {
    if t.ops[last] == Gov(Remove(r)) {
      assert Removed(t, from, last + 1, r, last);
    } else if t.ops[last] == Gov(Enable(r)) {
      assert Reopened(t, from, last + 1, r, last);
    } else if Lists(t.ops[last], r) && s == Missing {
      var m :| Removed(t, from, last, r, m);
      assert Reopened(t, from, last + 1, r, last);
    } else if Lists(t.ops[last], r) && s == Approved {
      Longer(t, from, last, r, s);
    }
  }

  /** After an accepted disabling no purchase under that route commits until the route is
      enabled again, or removed and listed anew. */
  lemma DisabledSellsNothing(t: Trail, from: nat, j: nat, r: Governance.RouteKey) returns (i: nat)
    requires IsTrail(t) && Inv(t.states[0]) && from < j < |t.ops|
    requires t.accepted[from] && t.ops[from] == Gov(Disable(r))
    requires t.accepted[j] && t.ops[j].Buy? && r == Governance.RouteKey(t.ops[j].key.id, t.ops[j].pair)
    ensures Reopened(t, from, j, r, i)
  {
    hide Inv, MadeAt, Reopened, Removed;
    TrailTraced(t);
    StaysDisabled(t, from, j, r);
    var op := t.ops[j];
    assert CallAt(t, j) && SaleFollows(t.states[j], op, t.states[j + 1], Sale(op.who, op.key, op.pair, t.states[j].now, 0));
    i :| Reopened(t, from, j, r, i);
  }
}
