/** The oracle's own entry points keep the invariant: each rewrites one row. */
module RowSteps {
  import opened Results
  import opened Types
  import opened ActiveSet
  import Oracle
  import opened World
  import opened Invariant

  lemma BankFrame(w: World, w': World)
    requires BankSide(w)
    requires w'.now == w.now && w'.chain == w.chain.(oracle := w'.chain.oracle)
    requires w'.log == w.log.(etas := w'.log.etas, outcomes := w'.log.outcomes, evicted := w'.log.evicted)
    ensures BankSide(w')
  {
    assert forall x :: SaleOk(w, x) ==> SaleOk(w', x);
  }

  lemma SubsetCount<T>(a: set<T>, b: set<T>)
    requires a <= b
    ensures |a| <= |b|
  {
    assert b == a + (b - a);
  }

  /** The pending counter never comes near the value at which it would saturate. */
  lemma PendingBounded(w: World)
    requires OracleSide(w)
    ensures w.chain.oracle.pending <= |w.chain.oracle.active| <= MAX_ACTIVE_FLIGHTS < U64_MAX
  {
    assert forall k :: k in PublicFlights(w) ==> k in Elements(w.chain.oracle.active);
    SubsetCount(PublicFlights(w), Elements(w.chain.oracle.active));
    ElementsCount(w.chain.oracle.active);
  }

  /** ... and it never counts down from zero: there is an outcome to take off the count
      whenever the settlement of an unevicted flight, or an eviction that rightly claims an
      outcome, is accepted. (The controller settles listed flights only.) */
  lemma PendingPositive(w: World, k: Key)
    requires OracleSide(w)
    ensures Oracle.Increment(w.chain.oracle.pending) == w.chain.oracle.pending + 1
    ensures Oracle.SetSettled(w.chain.oracle, w.now, k).Ok? && k !in w.log.evicted ==> w.chain.oracle.pending > 0
    ensures Oracle.EvictMissingFlight(w.chain.oracle, k, true).Ok? && PublicUnsettled(RowOf(w, k).status)
        ==> w.chain.oracle.pending > 0
  {
    PendingBounded(w);
    assert FlightOk(w, k);
    if Listed(w, k) && PublicUnsettled(RowOf(w, k).status) {
      assert k in PublicFlights(w);
    }
  }

  predicate SameAt(w: World, w': World, j: Key) {
    && (Listed(w', j) <==> Listed(w, j))
    && (j in w'.chain.oracle.rows <==> j in w.chain.oracle.rows)
    && RowOf(w', j) == RowOf(w, j)
    && (j in w'.archive <==> j in w.archive) && (j in w.archive ==> w'.archive[j] == w.archive[j])
    && (j in w'.log.evicted <==> j in w.log.evicted)
    && (j in w'.chain.pool.configs <==> j in w.chain.pool.configs)
    && (j in w.chain.pool.configs ==> w'.chain.pool.configs[j] == w.chain.pool.configs[j])
    && (j in w'.log.etas <==> j in w.log.etas) && (j in w.log.etas ==> w'.log.etas[j] == w.log.etas[j])
    && (j in w'.log.outcomes <==> j in w.log.outcomes)
    && (j in w.log.outcomes ==> w'.log.outcomes[j] == w.log.outcomes[j])
  }

  ghost predicate SameElsewhere(w: World, w': World, k: Key) {
    w'.now == w.now && forall j :: j != k ==> SameAt(w, w', j)
  }

  lemma FlightFrame(w: World, w': World, j: Key)
    requires FlightOk(w, j) && SameAt(w, w', j) && w'.now >= w.now
    ensures FlightOk(w', j)
  {
  }

  // A step that touches one flight only has to re-establish the facts of that flight.
  lemma OneFlight(w: World, w': World, k: Key)
    requires Coherent(w) && SameElsewhere(w, w', k) && FlightOk(w', k)
    requires NoDuplicates(w'.chain.oracle.active) && |w'.chain.oracle.active| <= MAX_ACTIVE_FLIGHTS
    ensures Coherent(w')
  {
    forall j ensures FlightOk(w', j) {
      if j != k {
        assert FlightOk(w, j) && SameAt(w, w', j);
        FlightFrame(w, w', j);
      }
    }
  }

  predicate Counts(w: World, k: Key) {
    Listed(w, k) && PublicUnsettled(RowOf(w, k).status)
  }

  lemma PublicChange(w: World, w': World, k: Key)
    requires SameElsewhere(w, w', k)
    ensures PublicFlights(w') == if Counts(w', k) then PublicFlights(w) + {k} else PublicFlights(w) - {k}
  {
    forall j ensures j in PublicFlights(w') <==>
      j in (if Counts(w', k) then PublicFlights(w) + {k} else PublicFlights(w) - {k})
    {
      assert j != k ==> SameAt(w, w', j);
    }
  }

  function CounterAfter(w: World, w': World, k: Key): nat {
    if Counts(w', k) && !Counts(w, k) then Oracle.Increment(w.chain.oracle.pending)
    else if Counts(w, k) && !Counts(w', k) then Oracle.Decrement(w.chain.oracle.pending)
    else w.chain.oracle.pending
  }

  lemma CounterMoves(w: World, w': World, k: Key)
    requires OracleSide(w) && SameElsewhere(w, w', k)
    requires w'.chain.oracle.pending == CounterAfter(w, w', k)
    ensures CounterExact(w')
  {
    PublicChange(w, w', k);
    PendingBounded(w);
    assert Counts(w, k) <==> k in PublicFlights(w);
  }

  // One row changed and the counter moved with it.
  lemma RowRewritten(w: World, w': World, k: Key)
    requires OracleSide(w) && SameElsewhere(w, w', k) && FlightOk(w', k)
    requires w'.chain.oracle.active == w.chain.oracle.active
    requires w'.chain.oracle.pending == CounterAfter(w, w', k)
    ensures OracleSide(w')
  {
    OneFlight(w, w', k);
    CounterMoves(w, w', k);
  }

  function WithOracle(w: World, o: Oracle.OracleState): World {
    On(w, w.chain.(oracle := o))
  }

  function WithReport(w: World, k: Key, eta: nat): World {
    w.(log := w.log.(etas := w.log.etas[k := eta]))
  }

  function WithOutcome(w: World, k: Key, outcome: Outcome): World {
    w.(log := w.log.(outcomes := w.log.outcomes[k := outcome]))
  }

  lemma EstimatedArrivalKeeps(w: World, k: Key, eta: nat, o: Oracle.OracleState)
    requires OracleSide(w) && Oracle.SetEstimatedArrival(w.chain.oracle, k, eta) == Ok(o)
    ensures OracleSide(WithReport(WithOracle(w, o), k, eta))
  {
    assert FlightOk(w, k);
    RowRewritten(w, WithReport(WithOracle(w, o), k, eta), k);
  }

  lemma LandedKeeps(w: World, k: Key, ata: nat, o: Oracle.OracleState)
    requires OracleSide(w) && Oracle.SetLanded(w.chain.oracle, k, ata) == Ok(o)
    requires Admissible(w, SetLanded(k, ata))
    ensures OracleSide(WithOutcome(WithOracle(w, o), k, Arrival(ata)))
  {
    assert FlightOk(w, k);
    RowRewritten(w, WithOutcome(WithOracle(w, o), k, Arrival(ata)), k);
  }

  lemma CancelledKeeps(w: World, k: Key, o: Oracle.OracleState)
    requires OracleSide(w) && Oracle.SetCancelled(w.chain.oracle, k) == Ok(o)
    requires Admissible(w, SetCancelled(k))
    ensures var w' := WithOracle(w, o);
            OracleSide(if k in w.chain.oracle.rows then WithOutcome(w', k, Cancellation) else w')
  {
    hide CounterExact, NoDuplicates;
    assert FlightOk(w, k);
    hide Coherent;
    var w' := WithOracle(w, o);
    if k in w.chain.oracle.rows {
      RowRewritten(w, WithOutcome(w', k, Cancellation), k);
    } else {
      RowRewritten(w, w', k);
    }
  }

  // The ledger may archive any row and bring it back.
  lemma ArchiveKeeps(w: World, w': World, k: Key)
    requires OracleSide(w)
    requires w'.now == w.now && w'.log == w.log
    requires w'.chain == w.chain.(oracle := w.chain.oracle.(rows := w'.chain.oracle.rows))
    requires
      || (k in w.chain.oracle.rows && w'.chain.oracle.rows == w.chain.oracle.rows - {k}
          && w'.archive == w.archive[k := w.chain.oracle.rows[k]])
      || (k !in w.chain.oracle.rows && k in w.archive && w'.archive == w.archive
          && w'.chain.oracle.rows == w.chain.oracle.rows[k := w.archive[k]])
    ensures OracleSide(w')
  {
    assert FlightOk(w, k);
    RowRewritten(w, w', k);
  }
}
