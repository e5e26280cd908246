/** A purchase keeps the invariant. */
module BuySteps {
  import opened Results
  import opened Types
  import opened ActiveSet
  import opened Token
  import opened MapSums
  import Governance
  import Oracle
  import Pool
  import Vault
  import opened Controller
  import opened World
  import opened Invariant
  import opened RowSteps
  import opened BucketSums

  // The bucket a buyer of `k` joins; the first buyer opens it.
  function BucketBefore(p: Pool.PoolState, k: Key, terms: Terms): FlightConfig {
    if k in p.configs then p.configs[k]
    else FlightConfig(terms.premium, terms.payoff, terms.delayHours, 0, 0, Open, 0)
  }

  // One more buyer at the bucket's own terms.
  predicate PoolJoined(p: Pool.PoolState, p': Pool.PoolState, who: Person, k: Key, terms: Terms) {
    var before := BucketBefore(p, k, terms);
    && 0 < terms.premium < terms.payoff && terms.delayHours > 0
    && before.status.Open? && before.premium == terms.premium && before.payoff == terms.payoff
    && who !in Pool.At(p.buyers, k)
    && p' == p.(configs := p.configs[k := before.(buyerCount := before.buyerCount + 1)],
                buyers := p.buyers[k := Pool.At(p.buyers, k) + {who}],
                active := if k in p.configs then p.active else p.active + [k])
  }

  // The flight is listed with its first sale.
  predicate OracleJoined(c: Chain, o: Oracle.OracleState, k: Key) {
    && (k in c.oracle.rows || k !in c.pool.configs)
    && o == (if k in c.oracle.rows then c.oracle
             else c.oracle.(rows := c.oracle.rows[k := Oracle.BLANK], active := c.oracle.active + [k]))
    && (k !in c.oracle.rows ==> k !in c.oracle.active && |c.oracle.active| < MAX_ACTIVE_FLIGHTS)
  }

  // What a successful purchase at `terms` changes.
  predicate Bought(w: World, c: Chain, who: Person, k: Key, terms: Terms) {
    && PoolJoined(w.chain.pool, c.pool, who, k, terms)
    && OracleJoined(w.chain, c.oracle, k)
    && c.vault == w.chain.vault.(locked := w.chain.vault.locked + terms.payoff) && c.vault.locked <= c.vault.tma
    && Transfer(w.chain.balances, who, PoolAddress, terms.premium) == Ok(c.balances)
    && c.ctrl == w.chain.ctrl.(approvals := c.ctrl.approvals,
                               travelerFlights := AppendTravelerFlight(w.chain.ctrl.travelerFlights, who, k),
                               sold := w.chain.ctrl.sold + 1, collected := w.chain.ctrl.collected + terms.premium)
  }

  // The gates that matter later.
  predicate Gated(w: World, c: Chain, k: Key, pair: Governance.Pair) {
    var status := Oracle.GetFlightData(w.chain.oracle, k).status;
    && (status.NotInitiated? || status.Active?)
    && w.now < k.date <= w.now + MAX_BOOK_AHEAD && StartsDay(k.date)
    && Governance.RouteKey(k.id, pair) in w.chain.gov.routes
    && (k.id in w.chain.gov.index ==> w.chain.gov.index[k.id] == pair)
    && c.gov == w.chain.gov.(index := w.chain.gov.index[k.id := pair])
  }

  lemma PurchaseShape(w: World, c: Chain, who: Person, k: Key, pair: Governance.Pair) returns (terms: Terms)
    requires BuyInsurance(w.chain, w.now, who, k, pair) == Ok(c)
    ensures Bought(w, c, who, k, terms) && Gated(w, c, k, pair)
    ensures AdmitBuyer(w.chain, w.now, who, k, pair).Ok? && terms == AdmitBuyer(w.chain, w.now, who, k, pair).value.1
  {
    hide Total, RegisterSale, TakePremium, AdmitBuyer;
    var (c1, t) := AdmitBuyer(w.chain, w.now, who, k, pair).value;
    terms := t;
    AdmissionShape(w, c1, who, k, pair, terms);
    SaleShape(w, c1, c, who, k, terms);
  }

  lemma AdmissionShape(w: World, c1: Chain, who: Person, k: Key, pair: Governance.Pair, terms: Terms)
    requires AdmitBuyer(w.chain, w.now, who, k, pair) == Ok((c1, terms))
    ensures Gated(w, c1, k, pair)
    ensures c1 == w.chain.(gov := c1.gov, ctrl := w.chain.ctrl.(approvals := c1.ctrl.approvals))
    ensures k in w.chain.pool.configs ==> k in w.chain.oracle.rows
  {
    hide Governance.TermsValid, Governance.ResolveTerms;
  }

  lemma SaleShape(w: World, c1: Chain, c: Chain, who: Person, k: Key, terms: Terms)
    requires c1 == w.chain.(gov := c1.gov, ctrl := w.chain.ctrl.(approvals := c1.ctrl.approvals))
    requires RegisterSale(c1, k, terms).Ok? && TakePremium(RegisterSale(c1, k, terms).value, who, k, terms) == Ok(c)
    requires k in w.chain.pool.configs ==> k in w.chain.oracle.rows
    ensures Bought(w, c, who, k, terms) && c.gov == c1.gov
  {
    hide Total, Vault.RequiredReserve, Bought, Pool.RegisterFlight, Pool.AddBuyer, Oracle.RegisterFlight, Transfer;
    JoinsBucket(w.chain.pool, Pool.RegisterFlight(w.chain.pool, k, terms).value, c.pool, who, k, terms);
    JoinsOracle(w.chain, c.oracle, k);
    PurchaseEffect(w, c, who, k, terms);
  }

  lemma JoinsBucket(p: Pool.PoolState, p1: Pool.PoolState, p2: Pool.PoolState, who: Person, k: Key, terms: Terms)
    requires Pool.RegisterFlight(p, k, terms) == Ok(p1) && Pool.AddBuyer(p1, k, who) == Ok(p2)
    ensures PoolJoined(p, p2, who, k, terms)
  {
  }

  lemma JoinsOracle(c: Chain, o: Oracle.OracleState, k: Key)
    requires Oracle.RegisterFlight(c.oracle, k) == Ok(o) && (k in c.pool.configs ==> k in c.oracle.rows)
    ensures OracleJoined(c, o, k)
  {
  }

  lemma PurchaseEffect(w: World, c: Chain, who: Person, k: Key, terms: Terms)
    requires PoolJoined(w.chain.pool, c.pool, who, k, terms) && OracleJoined(w.chain, c.oracle, k)
    requires Transfer(w.chain.balances, who, PoolAddress, terms.premium) == Ok(c.balances)
    requires Vault.IncreaseLocked(w.chain.vault, terms.payoff) == Ok(c.vault)
    requires c.ctrl == w.chain.ctrl.(approvals := c.ctrl.approvals,
                               travelerFlights := AppendTravelerFlight(w.chain.ctrl.travelerFlights, who, k),
                               sold := w.chain.ctrl.sold + 1, collected := w.chain.ctrl.collected + terms.premium)
    ensures Bought(w, c, who, k, terms)
  {
    hide Transfer;
  }

  function Recorded(w: World, c: Chain, x: Sale): World {
    On(w, c).(log := w.log.(sales := w.log.sales + [x]))
  }

  lemma BuyKeepsRows(w: World, c: Chain, who: Person, k: Key, pair: Governance.Pair, terms: Terms, x: Sale)
    requires OracleSide(w) && PoolOk(w.chain.pool, w.now)
    requires Bought(w, c, who, k, terms) && Gated(w, c, k, pair)
    ensures OracleSide(Recorded(w, c, x))
    ensures k in w.chain.oracle.rows ==> k in w.chain.pool.configs
  {
    var w' := Recorded(w, c, x);
    BuyKeepsOthers(w, c, who, k, terms, x);
    BuyKeepsFlight(w, c, who, k, pair, terms, x);
    if k !in w.chain.oracle.rows {
      AppendElements(w.chain.oracle.active, k);
      OneFlight(w, w', k);
      CounterMoves(w, w', k);
    } else {
      RowRewritten(w, w', k);
    }
  }

  lemma BuyKeepsOthers(w: World, c: Chain, who: Person, k: Key, terms: Terms, x: Sale)
    requires Bought(w, c, who, k, terms)
    ensures SameElsewhere(w, Recorded(w, c, x), k)
  {
    hide Total;
  }

  lemma BuyKeepsFlight(w: World, c: Chain, who: Person, k: Key, pair: Governance.Pair, terms: Terms, x: Sale)
    requires OracleSide(w) && PoolOk(w.chain.pool, w.now)
    requires Bought(w, c, who, k, terms) && Gated(w, c, k, pair)
    ensures FlightOk(Recorded(w, c, x), k)
    ensures k in w.chain.oracle.rows ==> k in w.chain.pool.configs
    ensures Counts(Recorded(w, c, x), k) <==> Counts(w, k)
  {
    hide Total;
    assert FlightOk(w, k) && PoolKeyOk(w.chain.pool, w.now, k);
  }

  lemma BuyKeepsPool(w: World, c: Chain, who: Person, k: Key, terms: Terms)
    requires PoolOk(w.chain.pool, w.now) && Bought(w, c, who, k, terms)
    ensures PoolOk(c.pool, w.now)
  {
    assert PoolKeyOk(w.chain.pool, w.now, k);
    forall j ensures PoolKeyOk(c.pool, w.now, j) {
      assert PoolKeyOk(w.chain.pool, w.now, j);
    }
  }

  lemma OneMoreBuyer(c: FlightConfig)
    requires c.status.Open?
    ensures var d := c.(buyerCount := c.buyerCount + 1);
            && Escrow(d) == Escrow(c) + c.premium && Collateral(d) == Collateral(c) + c.payoff
            && Policies(d) == Policies(c) + 1 && Premiums(d) == Premiums(c) + c.premium
            && Payouts(d) == Payouts(c) == 0
  {
  }

  lemma FreshBucket(terms: Terms)
    ensures var c := FlightConfig(terms.premium, terms.payoff, terms.delayHours, 0, 0, Open, 0);
            Escrow(c) == Collateral(c) == Policies(c) == Premiums(c) == 0
  {
  }

  lemma BuyMovesSums(w: World, c: Chain, who: Person, k: Key, terms: Terms)
    requires Bought(w, c, who, k, terms)
    ensures && Total(c.pool.configs, Escrow) == Total(w.chain.pool.configs, Escrow) + terms.premium
            && Total(c.pool.configs, Collateral) == Total(w.chain.pool.configs, Collateral) + terms.payoff
            && Total(c.pool.configs, Policies) == Total(w.chain.pool.configs, Policies) + 1
            && Total(c.pool.configs, Premiums) == Total(w.chain.pool.configs, Premiums) + terms.premium
            && Total(c.pool.configs, Payouts) == Total(w.chain.pool.configs, Payouts)
  {
    hide Total;
    var before := BucketBefore(w.chain.pool, k, terms);
    OneMoreBuyer(before);
    FreshBucket(terms);
    SumsMove(w.chain.pool.configs, k, before.(buyerCount := before.buyerCount + 1));
  }

  lemma BuyKeepsMoney(w: World, c: Chain, who: Person, k: Key, terms: Terms, x: Sale)
    requires MoneyOk(w) && Bought(w, c, who, k, terms)
    ensures MoneyOk(Recorded(w, c, x))
  {
    hide Total;
    BuyMovesSums(w, c, who, k, terms);
    var w' := Recorded(w, c, x);
    assert PoolFunded(w') && CollateralExact(w');
    assert VaultFunded(w') && VaultSolvent(w');
  }

  lemma LastNAppend<T>(s: seq<T>, x: T, n: nat)
    requires n > 0
    ensures LastN(s + [x], n) == (if |LastN(s, n)| >= n then LastN(s, n)[1..] else LastN(s, n)) + [x]
  {
  }

  lemma BuyKeepsSaleFacts(w: World, c: Chain, who: Person, k: Key, pair: Governance.Pair, terms: Terms, y: Sale)
    requires Bought(w, c, who, k, terms) && Gated(w, c, k, pair)
    requires y == Sale(who, k, pair, w.now, terms.premium) || SaleOk(w, y)
    ensures SaleOk(Recorded(w, c, Sale(who, k, pair, w.now, terms.premium)), y)
  {
  }

  lemma BuyKeepsSales(w: World, c: Chain, who: Person, k: Key, pair: Governance.Pair, terms: Terms)
    requires SalesOk(w) && Bought(w, c, who, k, terms) && Gated(w, c, k, pair)
    ensures SalesOk(Recorded(w, c, Sale(who, k, pair, w.now, terms.premium)))
  {
    var x := Sale(who, k, pair, w.now, terms.premium);
    hide Total;
    var w' := Recorded(w, c, x);
    BuyMovesSums(w, c, who, k, terms);
    assert w'.log.sales[..|w'.log.sales| - 1] == w.log.sales;
    forall y | y in w'.log.sales ensures SaleOk(w', y) {
      BuyKeepsSaleFacts(w, c, who, k, pair, terms, y);
    }
    forall a ensures FlightsOf(w'.chain.ctrl.travelerFlights, a) == LastN(FlightsSold(w'.log.sales, a), MAX_TRAVELER_FLIGHTS) {
      LastNAppend(FlightsSold(w.log.sales, a), k, MAX_TRAVELER_FLIGHTS);
    }
  }

  lemma BuyKeepsPayments(w: World, c: Chain, who: Person, k: Key, terms: Terms, x: Sale)
    requires PoolOk(w.chain.pool, w.now) && PaymentsOk(w) && Bought(w, c, who, k, terms)
    ensures PaymentsOk(Recorded(w, c, x))
  {
    assert PoolKeyOk(w.chain.pool, w.now, k);
  }

  // An earlier sale of the same flight is younger than the retirement period, so the
  // flight id still belongs to its pair.
  lemma BuyKeepsRoutes(w: World, c: Chain, who: Person, k: Key, pair: Governance.Pair, terms: Terms)
    requires SalesOk(w) && RoutesOk(w) && Bought(w, c, who, k, terms) && Gated(w, c, k, pair)
    ensures RoutesOk(Recorded(w, c, Sale(who, k, pair, w.now, terms.premium)))
  {
    var x := Sale(who, k, pair, w.now, terms.premium);
    var w' := Recorded(w, c, x);
    forall y | y in w'.log.sales ensures Reserved(w'.chain.gov, w'.now, y) && (y.key == k ==> y.pair == pair) {
      if y != x {
        assert y in w.log.sales && SaleOk(w, y) && Reserved(w.chain.gov, w.now, y);
        assert y.key.id == k.id ==> !IdFree(w.chain.gov, k.id);
      }
    }
  }

  lemma BuyKeeps(w: World, who: Person, k: Key, pair: Governance.Pair, c: Chain)
    requires Inv(w) && BuyInsurance(w.chain, w.now, who, k, pair) == Ok(c)
    ensures k in c.pool.configs
    ensures Inv(Recorded(w, c, Sale(who, k, pair, w.now, c.pool.configs[k].premium)))
  {
    var terms := PurchaseShape(w, c, who, k, pair);
    var x := Sale(who, k, pair, w.now, terms.premium);
    BuyKeepsRows(w, c, who, k, pair, terms, x);
    BuyKeepsPool(w, c, who, k, terms);
    BuyKeepsMoney(w, c, who, k, terms, x);
    BuyKeepsSales(w, c, who, k, pair, terms);
    BuyKeepsPayments(w, c, who, k, terms, x);
    BuyKeepsRoutes(w, c, who, k, pair, terms);
  }
}
