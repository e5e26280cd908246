/** Classification, pruning and eviction keep the oracle side of the invariant;
    classification of a listed flight never aborts. */
module SweepSteps {
  import opened Results
  import opened Types
  import opened ActiveSet
  import Oracle
  import opened Controller
  import opened World
  import opened Invariant
  import opened RowSteps
  import opened MapSums
  import opened Changes

  // --- classification ---

  // Classified or settled: the keeper's first pass has nothing left to do.
  predicate Done(w: World, k: Key) {
    Classified(RowOf(w, k).status) || RowOf(w, k).status.Settled?
  }

  // Past every timeout a row of this flight can wait for.
  predicate Overdue(w: World, k: Key) {
    w.now >= k.date + MAX_SCHEDULED_ARRIVAL_AFTER_DATE + Max(STALE_TIMEOUT, ACTIVE_TIMEOUT)
  }

  // Cancelled, landed, or without an outcome 14 days after the estimated arrival, or after
  // the date if there is no estimate.
  predicate Due(w: World, k: Key) {
    k in w.chain.oracle.rows
    && var d := w.chain.oracle.rows[k];
       || d.status.Cancelled? || d.status.Landed?
       || (d.status.Active? && w.now >= d.eta + Days(14))
       || (d.status.NotInitiated? && w.now >= k.date + Days(14))
  }

  // What a due row becomes when the flight's policies pay from this many hours of delay on.
  function Verdict(d: FlightData, delayHours: nat): FlightStatus {
    if d.status.Cancelled? then ToBeSettledCancelled
    else if d.status.Landed? && d.ata >= d.eta + Hours(delayHours) then ToBeSettledDelayed
    else ToBeSettledOnTime
  }

  // The verdict is written over the status, and a void counts as a new outcome.
  predicate Classifies(w: World, w': World, k: Key)
    requires k in w.chain.oracle.rows && k in w.chain.pool.configs
  {
    var d := w.chain.oracle.rows[k];
    w' == On(w, w.chain.(oracle := w.chain.oracle.(
      rows := w.chain.oracle.rows[k := FlightData(Verdict(d, w.chain.pool.configs[k].delayHours), d.eta, d.ata, d.settledAt)],
      pending := w.chain.oracle.pending + (if d.status.NotInitiated? || d.status.Active? then 1 else 0))))
  }

  ghost predicate OnlyClassifies(w: World, w': World) {
    && w' == On(w, w.chain.(oracle := w.chain.oracle.(rows := w'.chain.oracle.rows, pending := w'.chain.oracle.pending)))
    && w'.chain.oracle.rows.Keys == w.chain.oracle.rows.Keys
    && (forall j :: RowOf(w', j) == RowOf(w, j) || (Due(w, j) && Done(w', j)))
    && (forall j :: Onward(RowOf(w, j).status, RowOf(w', j).status))
  }

  lemma DelayIsInSeconds(eta: nat, ata: nat, hours: nat)
    requires hours > 0
    ensures DelayReached(FlightData(Landed, eta, ata, 0), hours) <==> ata >= eta + Hours(hours)
  {
  }

  /** Classifying a listed flight never aborts. It writes something if and only if the flight
      is due, and then exactly the verdict. */
  lemma ClassifyOneKeeps(w: World, k: Key)
    requires Inv(w) && Listed(w, k)
    ensures k in w.chain.pool.configs
    ensures var r := ClassifyOne(w.chain, w.now, k);
            r.Ok? && var w' := On(w, r.value.0);
            && Inv(w') && OnlyClassifies(w, w') && (r.value.1 <==> Due(w, k))
            && (if Due(w, k) then Classifies(w, w', k) && Done(w', k) else w' == w)
  {
    hide Total, PoolKeyOk, MoneyOk, SalesOk, PaymentsOk, RoutesOk, ClassifyOne;
    assert FlightOk(w, k) && PoolKeyOk(w.chain.pool, w.now, k);
    PendingBounded(w);
    ClassifyOneEffect(w, k);
    var w' := On(w, ClassifyOne(w.chain, w.now, k).value.0);
    if Due(w, k) {
      RowRewritten(w, w', k);
      BankFrame(w, w');
    }
  }

  // A classification that is due is accepted by the oracle and justified by the facts.
  lemma ClassifyOneEffect(w: World, k: Key)
    requires FlightOk(w, k) && PoolKeyOk(w.chain.pool, w.now, k) && Listed(w, k)
    requires w.chain.oracle.pending < U64_MAX
    ensures k in w.chain.pool.configs
    ensures var r := ClassifyOne(w.chain, w.now, k);
            r.Ok? && var w' := On(w, r.value.0);
            && OnlyClassifies(w, w') && (r.value.1 <==> Due(w, k))
            && (if Due(w, k) then
                  Classifies(w, w', k) && SameElsewhere(w, w', k) && FlightOk(w', k) && Done(w', k)
                  && w'.chain.oracle.active == w.chain.oracle.active
                  && w'.chain.oracle.pending == RowSteps.CounterAfter(w, w', k)
                else w' == w)
  {
    hide Total, PoolKeyOk;
    TargetIsVerdict(w, k);
    hide ClassificationTarget;
    if Due(w, k) {
      VerdictWritten(w, k);
    }
  }

  lemma TargetIsVerdict(w: World, k: Key)
    requires FlightOk(w, k) && PoolKeyOk(w.chain.pool, w.now, k) && Listed(w, k)
    ensures k in w.chain.pool.configs
    ensures ClassificationTarget(w.chain, w.now, k)
         == if Due(w, k) then Some(Verdict(w.chain.oracle.rows[k], w.chain.pool.configs[k].delayHours)) else None
  {
    assert k in w.chain.pool.configs && w.chain.pool.configs[k].delayHours > 0;
    assert k in w.chain.oracle.rows ==> RowShape(k, w.chain.oracle.rows[k]);
    hide FlightOk, PoolKeyOk;
    var d := Oracle.GetFlightData(w.chain.oracle, k);
    DelayIsInSeconds(d.eta, d.ata, w.chain.pool.configs[k].delayHours);
  }

  lemma VerdictWritten(w: World, k: Key)
    requires FlightOk(w, k) && Listed(w, k) && k in w.chain.pool.configs && Due(w, k)
    requires w.chain.oracle.pending < U64_MAX
    ensures var status := Verdict(w.chain.oracle.rows[k], w.chain.pool.configs[k].delayHours);
            var o := Oracle.SetToBeSettled(w.chain.oracle, w.now, k, status);
            o.Ok? && var w' := WithOracle(w, o.value);
            && Classifies(w, w', k)
            && OnlyClassifies(w, w') && SameElsewhere(w, w', k) && FlightOk(w', k) && Done(w', k)
            && w'.chain.oracle.active == w.chain.oracle.active
            && w'.chain.oracle.pending == RowSteps.CounterAfter(w, w', k)
  {
  }

  // Past its last timeout a flight is due, or was classified before.
  lemma OverdueIsDue(w: World, k: Key)
    requires FlightOk(w, k) && Listed(w, k) && k in w.chain.oracle.rows && Overdue(w, k)
    ensures Due(w, k) || Done(w, k)
  {
    assert Tracked(w, k);
  }

  ghost predicate KeysDone(w: World, w': World, keys: seq<Key>) {
    forall k :: k in keys && Due(w, k) ==> Done(w', k)
  }

  lemma NoneClassified(w: World)
    ensures OnlyClassifies(w, w) && KeysDone(w, w, [])
  {
  }

  // A row that was rewritten is no longer due.
  lemma ThenClassified(w: World, w1: World, w2: World, keys: seq<Key>)
    requires keys != [] && OnlyClassifies(w, w1) && OnlyClassifies(w1, w2) && KeysDone(w1, w2, keys[1..])
    requires Due(w, keys[0]) ==> Done(w1, keys[0])
    ensures OnlyClassifies(w, w2) && KeysDone(w, w2, keys)
  {
    assert forall k :: k in keys <==> k == keys[0] || k in keys[1..];
    assert forall j :: RowOf(w1, j) == RowOf(w, j) ==> (Due(w1, j) <==> Due(w, j));
    assert forall j :: Done(w1, j) ==> !Due(w1, j);
  }

  lemma ClassifiedListed(w: World, w1: World, keys: seq<Key>)
    requires OnlyClassifies(w, w1) && forall k :: k in keys ==> Listed(w, k)
    ensures forall k :: k in keys ==> Listed(w1, k)
  {
  }

  lemma {:induction false} ClassifyKeysKeeps(w: World, keys: seq<Key>)
    requires Inv(w) && forall k :: k in keys ==> Listed(w, k)
    ensures var r := ClassifyKeys(w.chain, w.now, keys);
            r.Ok? && Inv(On(w, r.value)) && OnlyClassifies(w, On(w, r.value)) && KeysDone(w, On(w, r.value), keys)
    decreases |keys|
  {
    hide Total, ClassifyOne, Inv, OnlyClassifies, KeysDone, OracleSide, Classifies, Done;
    if keys == [] {
      NoneClassified(w);
    } else {
      ClassifyOneKeeps(w, keys[0]);
      var w1 := On(w, ClassifyOne(w.chain, w.now, keys[0]).value.0);
      ClassifiedListed(w, w1, keys[1..]);
      ClassifyKeysKeeps(w1, keys[1..]);
      ThenClassified(w, w1, On(w, ClassifyKeys(w.chain, w.now, keys).value), keys);
    }
  }

  // --- leaving the list ---

  lemma SettledRowLeaves(w: World, k: Key)
    requires OracleSide(w)
    requires k in w.chain.oracle.rows && w.chain.oracle.rows[k].status.Settled?
    ensures OracleSide(WithOracle(w, w.chain.oracle.(active := SwapRemove(w.chain.oracle.active, k))))
  {
    SwapRemoveElements(w.chain.oracle.active, k);
    var w' := WithOracle(w, w.chain.oracle.(active := SwapRemove(w.chain.oracle.active, k)));
    assert forall j :: Listed(w', j) <==> j in Elements(w'.chain.oracle.active);
    assert forall j :: Listed(w, j) <==> j in Elements(w.chain.oracle.active);
    assert FlightOk(w, k);
    assert SameElsewhere(w, w', k);
    OneFlight(w, w', k);
    CounterMoves(w, w', k);
  }

  lemma {:induction false} PruneKeysKeeps(w: World, active: seq<Key>, window: seq<Key>)
    requires OracleSide(WithOracle(w, w.chain.oracle.(active := active)))
    ensures OracleSide(WithOracle(w, w.chain.oracle.(active := Oracle.PruneKeys(w.chain.oracle, w.now, active, window))))
    decreases |window|
  {
    if window != [] {
      var o := w.chain.oracle;
      if Oracle.AgedOut(o, w.now, window[0]) {
        SettledRowLeaves(WithOracle(w, o.(active := active)), window[0]);
        PruneKeysKeeps(w, SwapRemove(active, window[0]), window[1..]);
      } else {
        PruneKeysKeeps(w, active, window[1..]);
      }
    }
  }

  lemma EvictKeeps(w: World, k: Key, flag: bool, o: Oracle.OracleState)
    requires OracleSide(w) && Oracle.EvictMissingFlight(w.chain.oracle, k, flag) == Ok(o)
    requires Admissible(w, EvictMissingFlight(k, flag))
    ensures OracleSide(WithOracle(w, o).(log := w.log.(evicted := w.log.evicted + {k})))
  {
    SwapRemoveElements(w.chain.oracle.active, k);
    var w' := WithOracle(w, o).(log := w.log.(evicted := w.log.evicted + {k}));
    assert forall j :: Listed(w', j) <==> j in Elements(w'.chain.oracle.active);
    assert forall j :: Listed(w, j) <==> j in Elements(w.chain.oracle.active);
    assert FlightOk(w, k);
    assert SameElsewhere(w, w', k);
    OneFlight(w, w', k);
    CounterMoves(w, w', k);
  }
}
