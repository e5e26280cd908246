/** Reachable states in which the exact conditions of the other modules are met and missed:
    what the theorems exclude does happen, at concrete inputs. */
module Witnesses {
  import opened Results
  import opened Types
  import opened ActiveSet
  import Governance
  import Oracle
  import Pool
  import Token
  import Vault
  import opened Controller
  import opened World
  import opened Invariant
  import opened RowSteps
  import opened BuySteps
  import opened Changes
  import opened Keepers
  import opened Runs
  import opened Guarantees
  import opened ListingOrder
  import opened Eviction
  import opened Reserve
  import opened Scenario

  // --- a bucket that mixes two physical routes ---

  const RIVAL_PAIR: Governance.Pair := Governance.Pair("A", "C")
  const RIVAL_ROUTE: Governance.RouteKey := Governance.RouteKey("F", RIVAL_PAIR)
  const LIST_RIVAL: Op := Gov(Whitelist(RIVAL_ROUTE, None, None, None))

  function Lapsed(): World {
    var c := Sold().chain;
    On(Sold(), c.(gov := c.gov.(index := map[])))
  }

  function RivalListed(): World {
    var c := Lapsed().chain;
    On(Lapsed(), c.(gov := c.gov.(routes := map[ROUTE := LISTED, RIVAL_ROUTE := LISTED], index := map["F" := RIVAL_PAIR])))
  }

  lemma ReachSoldState()
    ensures Reachable(Sold())
  {
    hide Reachable, Leads, Deployed, Sold;
    var ops := ReachSold();
    LeadsReaches(Deployed(), ops, Sold());
  }

  lemma ReachLandedState()
    ensures Reachable(FlightLanded())
  {
    hide Reachable, Leads, Deployed, FlightLanded;
    var ops := ReachLanded();
    LeadsReaches(Deployed(), ops, FlightLanded());
  }

  lemma ReachableUsable(w: World)
    requires Reachable(w)
    ensures VaultUsable(w.chain.vault)
  {
    hide Reachable, Inv;
    ReachableInv(w);
    InvGivesUsable(w);
  }

  lemma TheIndexLapses()
    ensures Reachable(Lapsed())
  {
    hide Reachable, EnvironmentMoves, Sold, AggregatorMoves, KeeperMoves, BuyMoves, ClaimMoves, UpkeepMoves, OwnerMoves;
    hide GovMoves, LpMoves;
    ReachSoldState();
    IndexGone();
    MoveReaches(Sold(), Lapse("F"), Lapsed());
  }

  lemma IndexGone()
    ensures EnvironmentMoves(Sold(), Lapse("F"), Lapsed())
  {
    assert Sold().chain.gov.index - {"F"} == map[];
  }

  lemma TheRivalIsListed()
    ensures GovMoves(Lapsed(), LIST_RIVAL, RivalListed()) && !Admissible(Lapsed(), LIST_RIVAL)
  {
    hide Governance.WhitelistRoute;
    RivalPasses();
    assert ROUTE in Lapsed().chain.gov.routes && ROUTE.id == RIVAL_ROUTE.id;
  }

  lemma RivalPasses()
    ensures Governance.WhitelistRoute(Lapsed().chain.gov, START, RIVAL_ROUTE, None, None, None) == Ok(RivalListed().chain.gov)
  {
    var g := Lapsed().chain.gov;
    assert g.routes[RIVAL_ROUTE := LISTED] == RivalListed().chain.gov.routes;
    assert g.index["F" := RIVAL_PAIR] == RivalListed().chain.gov.index;
  }

  lemma TheRivalBuys()
    ensures BuyInsurance(RivalListed().chain, START, RIVAL, FLIGHT, RIVAL_PAIR).Ok?
  {
    var c, terms := RivalListed().chain, Terms(1, 2, 1);
    assert StartsDay(FLIGHT.date) && c.gov.index["F" := RIVAL_PAIR] == c.gov.index;
    assert Governance.TermsValid(c.gov, terms) && Governance.ResolveTerms(c.gov, LISTED) == terms;
    assert Governance.ReadRouteStatus(c.gov, RIVAL_ROUTE) == (c.gov, Governance.Active(terms));
    assert CheckSaleWindow(c, START, FLIGHT).Ok? && BindTerms(c, FLIGHT, terms) == Ok(terms);
    assert AdmitBuyer(c, START, RIVAL, FLIGHT, RIVAL_PAIR) == Ok((c, terms));
    hide AdmitBuyer;
    assert RegisterSale(c, FLIGHT, terms) == Ok(c);
    hide RegisterSale;
    assert Token.Transfer(c.balances, RIVAL, PoolAddress, 1).Ok?;
    assert TakePremium(c, RIVAL, FLIGHT, terms).Ok?;
  }

  lemma TheRivalSale() returns (w: World, x: Sale, y: Sale)
    ensures BuyMoves(RivalListed(), Buy(RIVAL, FLIGHT, RIVAL_PAIR), w)
    ensures x in w.log.sales && y in w.log.sales && x.key == y.key && x.pair != y.pair
  {
    hide BuyInsurance;
    TheRivalBuys();
    x := Sale(TRAVELER, FLIGHT, PAIR, START, 1);
    w := BuyStep(RivalListed(), RIVAL, FLIGHT, RIVAL_PAIR).value;
    y := w.log.sales[1];
    assert w.log.sales == [x, y] && y.key == FLIGHT && y.pair == RIVAL_PAIR;
  }

  /** Without the owner's guard a bucket does mix routes: after a lapse in a reachable state
      the contracts accept the second route and sell the same flight under it. */
  lemma UnguardedListingMixesBucket() returns (x: Sale, y: Sale)
    ensures Reachable(Lapsed()) && !Admissible(Lapsed(), LIST_RIVAL)
    ensures var w := After(Lapsed(), [LIST_RIVAL, Buy(RIVAL, FLIGHT, RIVAL_PAIR)]);
            x in w.log.sales && y in w.log.sales && x.key == y.key && x.pair != y.pair
  {
    hide Reachable, EnvironmentMoves, AggregatorMoves, KeeperMoves, BuyMoves, ClaimMoves, UpkeepMoves, OwnerMoves;
    hide GovMoves, LpMoves, Step, Admissible, VaultUsable, Sold;
    TheIndexLapses();
    ReachableUsable(Lapsed());
    TheRivalIsListed();
    MoveSteps(Lapsed(), LIST_RIVAL, RivalListed());
    var buy, w;
    buy := Buy(RIVAL, FLIGHT, RIVAL_PAIR);
    w, x, y := TheRivalSale();
    MoveSteps(RivalListed(), buy, w);
    var ops := [LIST_RIVAL, buy];
    assert ops[1..] == [buy] && ops[1..][1..] == [];
    assert After(Lapsed(), ops) == After(RivalListed(), ops[1..]);
    assert After(RivalListed(), ops[1..]) == After(w, []);
  }

  /** A raise can leave the reserve uncovered: it is checked at the next purchase only. */
  lemma RaiseUncovers() returns (w: World, op: Op)
    ensures Reachable(w) && ReserveMet(w.chain.vault) && RaisesRatio(w, op)
    ensures !ReserveMet(Attempt(w, op).chain.vault)
  {
    hide Reachable, Step, EnvironmentMoves, AggregatorMoves, KeeperMoves, BuyMoves, ClaimMoves, UpkeepMoves, OwnerMoves;
    hide GovMoves, LpMoves;
    ReachSoldState();
    w, op := Sold(), SetSolvencyRatio(MAX_SOLVENCY_RATIO);
    ReachableUsable(w);
    hide VaultUsable;
    RatioRaised(w, MAX_SOLVENCY_RATIO);
    MoveSteps(w, op, Raised(w, MAX_SOLVENCY_RATIO));
  }

  function Raised(w: World, ratio: nat): World {
    On(w, w.chain.(ctrl := w.chain.ctrl.(ratio := ratio), vault := w.chain.vault.(ratio := ratio)))
  }

  lemma RatioRaised(w: World, ratio: nat)
    requires MIN_SOLVENCY_RATIO <= ratio <= MAX_SOLVENCY_RATIO
    ensures OwnerMoves(w, SetSolvencyRatio(ratio), Raised(w, ratio))
  {
  }

  // --- flights whose rows were archived ---

  function Lost(w: World): World {
    On(w, w.chain.(oracle := w.chain.oracle.(rows := map[]))).(archive := w.chain.oracle.rows)
  }

  lemma RowIsArchived(w: World, data: FlightData)
    requires w.chain.oracle.rows == map[FLIGHT := data] && w.archive == map[]
    ensures EnvironmentMoves(w, Op.Archive(FLIGHT), Lost(w))
  {
    assert w.chain.oracle.rows - {FLIGHT} == map[];
    assert w.archive[FLIGHT := data] == w.chain.oracle.rows;
  }

  function Gone(w: World, flag: bool): World {
    On(w, w.chain.(oracle := w.chain.oracle.(active := [], pending := if flag then 0 else w.chain.oracle.pending)))
      .(log := w.log.(evicted := {FLIGHT}))
  }

  lemma ListingIsEvicted(w: World, flag: bool)
    requires w.chain.oracle.rows == map[] && w.chain.oracle.active == [FLIGHT] && w.log.evicted == {}
    requires w.chain.oracle.pending == if flag then 1 else 0
    ensures AggregatorMoves(w, Op.EvictMissingFlight(FLIGHT, flag), Gone(w, flag))
  {
    assert SwapRemove([FLIGHT], FLIGHT) == [];
    assert w.log.evicted + {FLIGHT} == {FLIGHT};
  }

  lemma LateFlightIsLost()
    ensures Reachable(Lost(FlightLanded()))
    ensures var w := Lost(FlightLanded()); Listed(w, FLIGHT) && FLIGHT !in w.chain.oracle.rows && RightFlag(w, FLIGHT)
  {
    hide Reachable, EnvironmentMoves, AggregatorMoves, KeeperMoves, BuyMoves, ClaimMoves, UpkeepMoves, OwnerMoves;
    hide GovMoves, LpMoves;
    ReachLandedState();
    RowIsArchived(FlightLanded(), Late(Landed));
    MoveReaches(FlightLanded(), Op.Archive(FLIGHT), Lost(FlightLanded()));
  }

  /** A wrong eviction flag breaks the counter in a reachable state. */
  lemma WrongFlagHappens() returns (w: World)
    ensures Reachable(w) && Listed(w, FLIGHT) && Oracle.EvictMissingFlight(w.chain.oracle, FLIGHT, false).Ok?
    ensures !CounterExact(WithOracle(w, Oracle.EvictMissingFlight(w.chain.oracle, FLIGHT, false).value))
  {
    hide Reachable, CounterExact;
    LateFlightIsLost();
    w := Lost(FlightLanded());
    WrongFlagBreaksCounter(w, FLIGHT, false);
  }

  lemma SoldFlightIsLost()
    ensures Reachable(Lost(Sold()))
    ensures var w := Lost(Sold()); Listed(w, FLIGHT) && FLIGHT !in w.chain.oracle.rows && !RightFlag(w, FLIGHT)
  {
    hide Reachable, EnvironmentMoves, AggregatorMoves, KeeperMoves, BuyMoves, ClaimMoves, UpkeepMoves, OwnerMoves;
    hide GovMoves, LpMoves;
    ReachSoldState();
    RowIsArchived(Sold(), Oracle.BLANK);
    MoveReaches(Sold(), Op.Archive(FLIGHT), Lost(Sold()));
  }

  /** So does a cancellation written over an archived row. */
  lemma UncountedCancellationHappens() returns (w: World)
    ensures Reachable(w) && Listed(w, FLIGHT) && Oracle.SetCancelled(w.chain.oracle, FLIGHT).Ok?
    ensures !CounterExact(WithOracle(w, Oracle.SetCancelled(w.chain.oracle, FLIGHT).value))
  {
    hide Reachable, CounterExact;
    SoldFlightIsLost();
    w := Lost(Sold());
    CancellationOverArchivedRow(w, FLIGHT);
  }

  /** A cancellation between eviction and settlement locks a bucket until the ledger archives
      its row. */
  lemma StuckBucketHappens() returns (w: World)
    ensures Reachable(w) && Stuck(w, FLIGHT)
  {
    hide Reachable, EnvironmentMoves, AggregatorMoves, KeeperMoves, BuyMoves, ClaimMoves, UpkeepMoves, OwnerMoves;
    hide GovMoves, LpMoves;
    LateFlightIsLost();
    var w0 := Lost(FlightLanded());
    var evict, cancel := Op.EvictMissingFlight(FLIGHT, true), Op.SetCancelled(FLIGHT);
    ListingIsEvicted(w0, true);
    MoveReaches(w0, evict, Gone(w0, true));
    w := Tombstoned(Gone(w0, true));
    TombstoneIsWritten(Gone(w0, true));
    MoveReaches(Gone(w0, true), cancel, w);
  }

  function Tombstoned(w: World): World {
    On(w, w.chain.(oracle := w.chain.oracle.(rows := map[FLIGHT := Oracle.BLANK.(status := Cancelled)],
                                             sales := w.chain.oracle.sales - {FLIGHT})))
  }

  lemma TombstoneIsWritten(w: World)
    requires w.chain.oracle.rows == map[]
    ensures AggregatorMoves(w, Op.SetCancelled(FLIGHT), Tombstoned(w))
  {
    assert w.chain.oracle.rows[FLIGHT := Oracle.BLANK.(status := Cancelled)] == Tombstoned(w).chain.oracle.rows;
  }

  const DEPARTED: FlightData := FlightData(FlightStatus.Active, DAY, 0, 0)

  function Returned(w: World): World {
    On(w, w.chain.(oracle := w.chain.oracle.(rows := w.archive)))
  }

  lemma RowIsRestored(w: World, data: FlightData)
    requires w.chain.oracle.rows == map[] && w.archive == map[FLIGHT := data]
    ensures EnvironmentMoves(w, Op.Restore(FLIGHT), Returned(w))
  {
    assert w.chain.oracle.rows[FLIGHT := data] == w.archive;
  }

  // A departed flight whose row is archived, whose listing is evicted, and whose row comes back.
  lemma RestoredRowHappens() returns (w: World)
    ensures Reachable(w) && !Listed(w, FLIGHT) && FLIGHT in w.chain.oracle.rows
    ensures w.chain.oracle.rows[FLIGHT] == DEPARTED
  {
    hide Reachable, EnvironmentMoves, AggregatorMoves, KeeperMoves, BuyMoves, ClaimMoves, UpkeepMoves, OwnerMoves;
    hide GovMoves, LpMoves;
    ReachSoldState();
    TheFlightLandsLate();
    MoveReaches(Sold(), Op.SetEstimatedArrival(FLIGHT, DAY), Departed());
    RowIsArchived(Departed(), DEPARTED);
    var w1 := Lost(Departed());
    MoveReaches(Departed(), Op.Archive(FLIGHT), w1);
    ListingIsEvicted(w1, false);
    var w2 := Gone(w1, false);
    MoveReaches(w1, Op.EvictMissingFlight(FLIGHT, false), w2);
    RowIsRestored(w2, DEPARTED);
    w := Returned(w2);
    MoveReaches(w2, Op.Restore(FLIGHT), w);
  }

  /** A landing written to such a row counts an outcome that nothing will ever settle. */
  lemma UnlistedLandingHappens() returns (w: World)
    ensures Reachable(w) && FLIGHT in w.log.evicted && Oracle.SetLanded(w.chain.oracle, FLIGHT, DAY).Ok?
    ensures !CounterExact(WithOracle(w, Oracle.SetLanded(w.chain.oracle, FLIGHT, DAY).value))
  {
    hide Reachable, CounterExact;
    w := RestoredRowHappens();
    OutcomeOnUnlistedRow(w, FLIGHT, DAY);
  }

  // --- four listed buckets ---

  function FlightNo(i: nat): Key {
    Key("F", Days(i + 1))
  }

  function Flights(n: nat): (s: seq<Key>)
    ensures |s| == n && forall i :: 0 <= i < n ==> s[i] == FlightNo(i)
  {
    seq(n, i requires 0 <= i < n => FlightNo(i))
  }

  predicate FreeToSell(c: CtrlState, g: Governance.GovState) {
    !c.gated && c.minLead == 0 && c.ratio == 100 && g == OnSale().chain.gov
  }

  predicate MoneySoFar(v: Vault.VaultState, b: Token.Balances, n: nat) {
    v.tma == 10 && v.locked == 2 * n && Token.BalanceOf(b, TRAVELER) == 4 - n
  }

  ghost predicate BookSoFar(rows: map<Key, FlightData>, listed: seq<Key>, p: Pool.PoolState, n: nat) {
    && p.active == listed == Flights(n)
    && (forall k :: k in p.configs <==> k in Flights(n))
    && (forall k :: k in rows <==> k in Flights(n))
    && (forall k :: k in rows ==> rows[k] == Oracle.BLANK)
    && (forall k :: k !in Flights(n) ==> Pool.At(p.buyers, k) == {})
  }

  // After `n` sales of different dates to the same traveler.
  ghost predicate SoldSoFar(w: World, n: nat) {
    && w.now == START && FreeToSell(w.chain.ctrl, w.chain.gov)
    && MoneySoFar(w.chain.vault, w.chain.balances, n)
    && BookSoFar(w.chain.oracle.rows, w.chain.oracle.active, w.chain.pool, n)
  }

  lemma NothingSoldYet()
    ensures SoldSoFar(OnSale(), 0)
  {
    assert Flights(0) == [];
  }

  lemma NewDate(n: nat)
    requires n < 4
    ensures FlightNo(n) !in Flights(n) && StartsDay(FlightNo(n).date)
    ensures START < DAY <= FlightNo(n).date <= START + MAX_BOOK_AHEAD
    ensures Flights(n) + [FlightNo(n)] == Flights(n + 1)
  {
  }

  function Offering(w: World, k: Key): World {
    On(w, w.chain.(oracle := w.chain.oracle.(sales := w.chain.oracle.sales[k := DAY])))
  }

  // The next date can be sold.
  ghost predicate ForSale(w: World, n: nat) {
    n < 4 && SoldSoFar(w, n) && Oracle.IsSaleOpen(w.chain.oracle, START, FlightNo(n))
  }

  lemma NotYetSold(rows: map<Key, FlightData>, listed: seq<Key>, p: Pool.PoolState, n: nat)
    requires n < 4 && BookSoFar(rows, listed, p, n)
    ensures FlightNo(n) !in rows && FlightNo(n) !in listed && FlightNo(n) !in p.configs && Pool.At(p.buyers, FlightNo(n)) == {}
    ensures FlightNo(n) !in p.active && |p.active| == |listed| == n
  {
    NewDate(n);
  }

  lemma SaleOpens(w: World, n: nat)
    requires n < 4 && SoldSoFar(w, n)
    ensures AggregatorMoves(w, Op.OpenSale(FlightNo(n), DAY), Offering(w, FlightNo(n))) && ForSale(Offering(w, FlightNo(n)), n)
  {
    hide BookSoFar, MoneySoFar, FreeToSell, FlightNo;
    NewDate(n);
    NotYetSold(w.chain.oracle.rows, w.chain.oracle.active, w.chain.pool, n);
  }

  lemma RouteReadsActive(c: Chain)
    requires c.gov == OnSale().chain.gov
    ensures Governance.ReadRouteStatus(c.gov, ROUTE) == (c.gov, Governance.Active(Terms(1, 2, 1)))
    ensures Governance.TermsValid(c.gov, Terms(1, 2, 1))
  {
    var terms := Terms(1, 2, 1);
    assert c.gov.index["F" := PAIR] == c.gov.index;
    assert Governance.TermsValid(c.gov, terms) && Governance.ResolveTerms(c.gov, LISTED) == terms;
  }

  lemma SaleAdmitted(w: World, n: nat)
    requires ForSale(w, n)
    ensures AdmitBuyer(w.chain, START, TRAVELER, FlightNo(n), PAIR) == Ok((w.chain, Terms(1, 2, 1)))
  {
    hide BookSoFar, Governance.ReadRouteStatus;
    var k := FlightNo(n);
    NewDate(n);
    NotYetSold(w.chain.oracle.rows, w.chain.oracle.active, w.chain.pool, n);
    RouteReadsActive(w.chain);
    assert CheckSaleWindow(w.chain, START, k).Ok?;
    assert BindTerms(w.chain, k, Terms(1, 2, 1)) == Ok(Terms(1, 2, 1));
    assert w.chain.(gov := w.chain.gov, ctrl := w.chain.ctrl.(approvals := w.chain.ctrl.approvals)) == w.chain;
  }

  lemma SaleAccepted(w: World, n: nat)
    requires ForSale(w, n)
    ensures BuyInsurance(w.chain, START, TRAVELER, FlightNo(n), PAIR).Ok?
  {
    hide AdmitBuyer, FlightNo, BookSoFar;
    var c, k, terms := w.chain, FlightNo(n), Terms(1, 2, 1);
    SaleAdmitted(w, n);
    NotYetSold(c.oracle.rows, c.oracle.active, c.pool, n);
    assert RegisterSale(c, k, terms).Ok?;
    var c2 := RegisterSale(c, k, terms).value;
    assert Pool.AddBuyer(c2.pool, k, TRAVELER).Ok?;
    hide RegisterSale, Pool.AddBuyer;
    assert TakePremium(c2, TRAVELER, k, terms).Ok?;
  }

  lemma PurchaseAtTerms(w: World, c: Chain, k: Key)
    requires BuyInsurance(w.chain, w.now, TRAVELER, k, PAIR) == Ok(c)
    requires AdmitBuyer(w.chain, w.now, TRAVELER, k, PAIR) == Ok((w.chain, Terms(1, 2, 1)))
    ensures Bought(w, c, TRAVELER, k, Terms(1, 2, 1)) && Gated(w, c, k, PAIR)
  {
    hide BuyInsurance, AdmitBuyer, Bought, Gated;
    var terms := PurchaseShape(w, c, TRAVELER, k, PAIR);
  }

  lemma OneMoreSold(w: World, n: nat, w': World)
    requires ForSale(w, n) && BuyMoves(w, Buy(TRAVELER, FlightNo(n), PAIR), w')
    ensures SoldSoFar(w', n + 1)
  {
    hide BuyInsurance, AdmitBuyer, FlightNo, BookSoFar, PoolJoined, OracleJoined;
    SaleAdmitted(w, n);
    PurchaseAtTerms(w, w'.chain, FlightNo(n));
    assert w.chain.gov.index["F" := PAIR] == w.chain.gov.index;
    BookGrows(w.chain, w'.chain, n);
  }

  lemma BookGrows(c: Chain, c': Chain, n: nat)
    requires n < 4 && BookSoFar(c.oracle.rows, c.oracle.active, c.pool, n)
    requires PoolJoined(c.pool, c'.pool, TRAVELER, FlightNo(n), Terms(1, 2, 1)) && OracleJoined(c, c'.oracle, FlightNo(n))
    ensures BookSoFar(c'.oracle.rows, c'.oracle.active, c'.pool, n + 1)
  {
    NewDate(n);
    hide Flights;
    assert forall k :: k in Flights(n + 1) <==> k in Flights(n) || k == FlightNo(n);
  }

  lemma FourSold() returns (w: World)
    ensures Reachable(w) && SoldSoFar(w, 4)
  {
    hide Reachable, Leads, SoldSoFar, OnSale;
    var ops := ReachOnSale();
    LeadsReaches(Deployed(), ops, OnSale());
    NothingSoldYet();
    w := OnSale();
    for n := 0 to 4
      invariant Reachable(w) && SoldSoFar(w, n)
    {
      w := NextSold(w, n);
    }
  }

  lemma NextSold(w: World, n: nat) returns (w': World)
    requires n < 4 && Reachable(w) && SoldSoFar(w, n)
    ensures Reachable(w') && SoldSoFar(w', n + 1)
  {
    hide Reachable, SoldSoFar, FlightNo, ForSale, EnvironmentMoves, AggregatorMoves, KeeperMoves, BuyMoves, ClaimMoves;
    hide UpkeepMoves, OwnerMoves, GovMoves, LpMoves;
    var k, w1 := FlightNo(n), Offering(w, FlightNo(n));
    SaleOpens(w, n);
    MoveReaches(w, Op.OpenSale(k, DAY), w1);
    w' := SaleIsMade(w1, n);
    MoveReaches(w1, Buy(TRAVELER, k, PAIR), w');
    OneMoreSold(w1, n, w');
  }

  lemma SaleIsMade(w: World, n: nat) returns (w': World)
    requires ForSale(w, n)
    ensures BuyMoves(w, Buy(TRAVELER, FlightNo(n), PAIR), w')
  {
    hide BuyInsurance, FlightNo, BookSoFar;
    SaleAccepted(w, n);
    w' := BuyStep(w, TRAVELER, FlightNo(n), PAIR).value;
  }

  function WithRow(w: World, k: Key, status: FlightStatus, pending: nat): World {
    On(w, w.chain.(oracle := w.chain.oracle.(rows := w.chain.oracle.rows[k := Oracle.BLANK.(status := status)], pending := pending,
                                             sales := w.chain.oracle.sales - {k})))
  }

  // The flight is cancelled, and the cancellation is the recorded outcome.
  function Called(w: World, k: Key): World {
    WithRow(w, k, Cancelled, Oracle.Increment(w.chain.oracle.pending))
      .(log := w.log.(outcomes := w.log.outcomes[k := Cancellation]))
  }

  lemma FlightIsCalled(w: World, k: Key)
    requires k in w.chain.oracle.rows && w.chain.oracle.rows[k] == Oracle.BLANK
    ensures AggregatorMoves(w, Op.SetCancelled(k), Called(w, k))
  {
  }

  lemma CallIsClassified(w: World, k: Key)
    requires VaultUsable(w.chain.vault) && Listed(w, k)
    requires k in w.chain.oracle.rows && w.chain.oracle.rows[k] == Oracle.BLANK.(status := Cancelled)
    requires k !in w.chain.oracle.sales
    ensures KeeperMoves(w, Op.ClassifyFlight(k), WithRow(w, k, ToBeSettledCancelled, w.chain.oracle.pending))
  {
    hide VaultUsable;
    assert w.chain.oracle.sales - {k} == w.chain.oracle.sales;
  }

  lemma ListedNotEvicted(w: World, k: Key)
    requires Reachable(w) && Listed(w, k)
    ensures k !in w.log.evicted
  {
    hide Reachable, BankSide, CounterExact;
    ReachableInv(w);
    assert FlightOk(w, k);
  }

  function CalledAndClassified(w: World, k: Key): World {
    var w1 := Called(w, k);
    WithRow(w1, k, ToBeSettledCancelled, w1.chain.oracle.pending)
  }

  lemma CancelAndClassify(w: World, k: Key)
    requires Reachable(w) && CanCancel(w, k)
    ensures Reachable(CalledAndClassified(w, k)) && Settleable(CalledAndClassified(w, k), k)
  {
    hide Reachable, VaultUsable, EnvironmentMoves, AggregatorMoves, KeeperMoves, BuyMoves, ClaimMoves, UpkeepMoves;
    hide OwnerMoves, GovMoves, LpMoves;
    var w1 := Called(w, k);
    ListedNotEvicted(w, k);
    FlightIsCalled(w, k);
    MoveReaches(w, Op.SetCancelled(k), w1);
    ReachableUsable(w1);
    CallIsClassified(w1, k);
    MoveReaches(w1, Op.ClassifyFlight(k), CalledAndClassified(w, k));
  }

  // Four flights are listed, and the first two can be cancelled.
  lemma FourListed() returns (w: World)
    ensures Reachable(w) && CanCancel(w, FlightNo(0)) && CanCancel(w, FlightNo(1))
    ensures w.chain.pool.active == Flights(4)
  {
    hide Reachable;
    w := FourSold();
    assert Flights(4)[0] == FlightNo(0) && Flights(4)[1] == FlightNo(1);
  }

  predicate CanCancel(w: World, k: Key) {
    && Listed(w, k) && k in w.chain.pool.active && k in w.chain.pool.configs
    && k in w.chain.oracle.rows && w.chain.oracle.rows[k] == Oracle.BLANK
  }

  /** Two orders of settling the same two flights of a reachable state leave the pool's
      listing in different orders. */
  lemma ListingOrderShows() returns (w: World, a: Key, b: Key)
    ensures Reachable(w) && Settleable(w, a) && Settleable(w, b) && a != b
    ensures After(w, [Op.SettleFlight(a), Op.SettleFlight(b)]).chain.pool.active
         != After(w, [Op.SettleFlight(b), Op.SettleFlight(a)]).chain.pool.active
  {
    hide Reachable, After;
    var w0 := FourListed();
    a, b := FlightNo(0), FlightNo(1);
    CancelAndClassify(w0, a);
    var w1 := CalledAndClassified(w0, a);
    CancelAndClassify(w1, b);
    w := CalledAndClassified(w1, b);
    assert Flights(4)[0] == a && Flights(4)[1] == b;
    assert IndexOf(w.chain.pool.active, a) == 0 && IndexOf(w.chain.pool.active, b) == 1;
    ListingOrderExactly(w, a, b);
  }
}
