/** One run from deployment in which every stage happens: an underwriter enters, a policy is
    sold, the flight lands late, and the traveler is paid. The theorems about runs are not
    about an empty protocol. */
module Scenario {
  import opened Results
  import opened Types
  import opened ActiveSet
  import Governance
  import Oracle
  import Pool
  import Token
  import Vault
  import opened Controller
  import opened World
  import opened Invariant
  import opened Runs

  const LP: Person := User(1)
  const TRAVELER: Person := User(2)
  const RIVAL: Person := User(3)
  const PAIR: Governance.Pair := Governance.Pair("A", "B")
  const ROUTE: Governance.RouteKey := Governance.RouteKey("F", PAIR)
  const FLIGHT: Key := Key("F", DAY)
  const START: nat := Vault.LP_PRICING_DELAY
  const LISTED: Governance.RouteTerms := Governance.RouteTerms(None, None, None, true)
  const EXPIRY: nat := START + DAY

  function Deployed(): World {
    World(0,
      Chain(Oracle.OracleState(map[], [], 0, 0, map[]),
            Pool.PoolState(map[], map[], map[], [], 0),
            Vault.VaultState(0, 0, 100, 0, map[], [], [], map[], 0, 0),
            map[LP := 10, TRAVELER := 4, RIVAL := 1],
            Governance.GovState(map[], map[], map[], 1, 2, 1, 0, 100),
            CtrlState(100, 0, DAY, 0, 0, 0, 0, 0, false, map[], map[])),
      map[], Log([], [], map[], map[], {}, 0, 0))
  }

  function Entering(): World {
    var c := Deployed().chain;
    On(Deployed(), c.(balances := map[LP := 0, TRAVELER := 4, RIVAL := 1, VaultAddress := 10],
                      vault := c.vault.(entries := [Vault.Request(0, LP, 10, 0)], nextId := 1)))
  }

  function Funded(): World {
    var c := Entering().chain;
    On(Entering(), c.(vault := c.vault.(tma := 10, supply := 10_000, shares := map[LP := 10_000], entries := []))).(now := START)
  }

  function OnSale(): World {
    var c := Funded().chain;
    On(Funded(), c.(gov := c.gov.(routes := map[ROUTE := LISTED], index := map["F" := PAIR]),
                    oracle := c.oracle.(sales := map[FLIGHT := DAY])))
  }

  function Bucket(status: SettlementStatus, claims: nat, expiry: nat): FlightConfig {
    FlightConfig(1, 2, 1, 1, claims, status, expiry)
  }

  function Sold(): World {
    var w := OnSale();
    var c := w.chain;
    On(w, c.(oracle := c.oracle.(rows := map[FLIGHT := Oracle.BLANK], active := [FLIGHT]),
             pool := c.pool.(configs := map[FLIGHT := Bucket(Open, 0, 0)], buyers := map[FLIGHT := {TRAVELER}], active := [FLIGHT]),
             vault := c.vault.(locked := 2),
             balances := map[LP := 0, TRAVELER := 3, RIVAL := 1, VaultAddress := 10, PoolAddress := 1],
             ctrl := c.ctrl.(sold := 1, collected := 1, travelerFlights := map[TRAVELER := [FLIGHT]])))
      .(log := w.log.(sales := [Sale(TRAVELER, FLIGHT, PAIR, START, 1)]))
  }

  function Late(status: FlightStatus): FlightData {
    FlightData(status, DAY, DAY + HOUR, 0)
  }

  function FlightLanded(): World {
    var w := Sold();
    On(w, w.chain.(oracle := w.chain.oracle.(rows := map[FLIGHT := Late(Landed)], pending := 1)))
      .(log := w.log.(etas := map[FLIGHT := DAY], outcomes := map[FLIGHT := Arrival(DAY + HOUR)]))
  }

  function BucketSettled(): World {
    var w := FlightLanded();
    var c := w.chain;
    On(w, c.(oracle := c.oracle.(rows := map[FLIGHT := Late(Settled).(settledAt := START)], pending := 0),
             pool := c.pool.(configs := map[FLIGHT := Bucket(SettledDelayed, 0, EXPIRY)], active := []),
             vault := c.vault.(tma := 9, locked := 0),
             balances := map[LP := 0, TRAVELER := 3, RIVAL := 1, VaultAddress := 9, PoolAddress := 2],
             ctrl := c.ctrl.(distributed := 2)))
  }

  function Paid(): World {
    var w := BucketSettled();
    On(w, w.chain.(pool := w.chain.pool.(configs := map[FLIGHT := Bucket(SettledDelayed, 1, EXPIRY)], claimed := map[FLIGHT := {TRAVELER}]),
                   balances := map[LP := 0, TRAVELER := 5, RIVAL := 1, VaultAddress := 9, PoolAddress := 0]))
      .(log := w.log.(payments := [Payment(TRAVELER, FLIGHT, 2)]))
  }

  lemma TheDepositIsWorthShares()
    ensures Vault.ToShares(10, 0, 0) == 10_000
  {
  }

  lemma TheMinimumIsZero()
    ensures Vault.EffectiveRequestMinimum(Deployed().chain.vault, 0, Vault.MAX_DEPOSIT_QUEUE_LEN) == 0
  {
  }

  lemma TheTokensArrive()
    ensures Token.Transfer(Deployed().chain.balances, LP, VaultAddress, 10) == Ok(Entering().chain.balances)
  {
    assert Deployed().chain.balances[LP := 0][VaultAddress := 10] == Entering().chain.balances;
  }

  lemma TheDepositIsQueued()
    ensures Vault.RequestDeposit(Deployed().chain.vault, Deployed().chain.balances, 0, LP, 10)
         == Ok((Entering().chain.vault, Entering().chain.balances))
  {
    hide Token.Transfer, Vault.EffectiveRequestMinimum, Vault.ToShares;
    TheTokensArrive();
    TheMinimumIsZero();
    TheDepositIsWorthShares();
    var q := Deployed().chain.vault.entries;
    assert q + [Vault.Request(0, LP, 10, 0)] == Entering().chain.vault.entries;
    assert Vault.CountOwned(q, LP) == 0;
  }

  lemma AnUnderwriterEnters()
    ensures LpMoves(Deployed(), Lp(RequestDeposit(LP, 10)), Entering())
  {
    hide Vault.RequestDeposit;
    TheDepositIsQueued();
  }

  function Waiting(): World {
    Entering().(now := START)
  }

  lemma TheEntryIsMinted()
    ensures KeeperMoves(Waiting(), Op.RunQueueMaintenance, Funded())
  {
    hide Vault.ProcessDepositQueue;
    var f := Funded().chain;
    assert Vault.ProcessWithdrawalQueue(f.vault, START, false) == Ok(f.vault);
    hide Vault.ProcessWithdrawalQueue;
    DepositsAreMinted();
    assert Controller.RunQueueMaintenance(Waiting().chain, START) == Ok(f);
  }

  lemma DepositsAreMinted()
    ensures Vault.ProcessDepositQueue(Entering().chain.vault, Entering().chain.balances, START, false)
         == Ok((Funded().chain.vault, Entering().chain.balances))
  {
    var v, b := Entering().chain.vault, Entering().chain.balances;
    var q := v.entries;
    assert Vault.PositiveAmounts(q) && q[..1] == q && q[1..] == [];
    assert Vault.ToShares(10, 0, 0) == 10_000;
    var m0 := Vault.Mint(0, 0, map[], b, [], false);
    var m1 := Vault.Mint(10, 10_000, map[LP := 10_000], b, [], false);
    var none: map<Address, nat> := map[];
    assert none[LP := 10_000] == m1.shares;
    assert Vault.EntryStep(m0, q[0], START) == Ok(m1);
    assert Vault.MintEntries(m1, [], START) == Ok(m1);
    assert Vault.MintEntries(m0, q, START) == Ok(m1);
    assert m1.kept + q[1..] == [];
  }

  function RouteListed(): World {
    var c := Funded().chain;
    On(Funded(), c.(gov := OnSale().chain.gov))
  }

  lemma ARouteGoesOnSale()
    ensures GovMoves(Funded(), Gov(Whitelist(ROUTE, None, None, None)), RouteListed())
    ensures AggregatorMoves(RouteListed(), Op.OpenSale(FLIGHT, DAY), OnSale())
  {
    assert Governance.WhitelistRoute(Funded().chain.gov, START, ROUTE, None, None, None) == Ok(OnSale().chain.gov);
    assert Oracle.OpenSale(RouteListed().chain.oracle, START, FLIGHT, DAY) == Ok(OnSale().chain.oracle);
  }

  lemma TheBuyerIsAdmitted()
    ensures AdmitBuyer(OnSale().chain, START, TRAVELER, FLIGHT, PAIR) == Ok((OnSale().chain, Terms(1, 2, 1)))
  {
    var c, terms := OnSale().chain, Terms(1, 2, 1);
    assert StartsDay(FLIGHT.date) && c.gov.index["F" := PAIR] == c.gov.index;
    assert Governance.TermsValid(c.gov, terms) && Governance.ResolveTerms(c.gov, LISTED) == terms;
    assert Governance.ReadRouteStatus(c.gov, ROUTE) == (c.gov, Governance.Active(terms));
    assert CheckSaleWindow(c, START, FLIGHT).Ok?;
  }

  function Registered(): Chain {
    var c := OnSale().chain;
    c.(oracle := Sold().chain.oracle,
       pool := c.pool.(configs := map[FLIGHT := Bucket(Open, 0, 0).(buyerCount := 0)], active := [FLIGHT]))
  }

  lemma TheFlightIsRegistered()
    ensures RegisterSale(OnSale().chain, FLIGHT, Terms(1, 2, 1)) == Ok(Registered())
  {
    var c := OnSale().chain;
    assert c.pool.configs[FLIGHT := Bucket(Open, 0, 0).(buyerCount := 0)] == Registered().pool.configs;
    assert c.oracle.rows[FLIGHT := Oracle.BLANK] == Sold().chain.oracle.rows;
    assert c.pool.active + [FLIGHT] == [FLIGHT];
  }

  lemma TheBuyerIsAdded()
    ensures Pool.AddBuyer(Registered().pool, FLIGHT, TRAVELER) == Ok(Sold().chain.pool)
  {
    var p, d := Registered().pool, Sold().chain.pool;
    assert p.configs[FLIGHT := Bucket(Open, 0, 0)] == d.configs;
    assert p.buyers[FLIGHT := {TRAVELER}] == d.buyers;
    assert Pool.At(p.buyers, FLIGHT) + {TRAVELER} == {TRAVELER};
  }

  lemma ThePremiumIsPaid()
    ensures Token.Transfer(Registered().balances, TRAVELER, PoolAddress, 1) == Ok(Sold().chain.balances)
  {
    assert Registered().balances[TRAVELER := 3][PoolAddress := 1] == Sold().chain.balances;
  }

  lemma ThePremiumIsTaken()
    ensures TakePremium(Registered(), TRAVELER, FLIGHT, Terms(1, 2, 1)) == Ok(Sold().chain)
  {
    var c := Registered();
    ThePremiumIsPaid();
    hide Token.Transfer;
    TheBuyerIsAdded();
    TheFlightIsRemembered(c.ctrl.travelerFlights);
    hide Pool.AddBuyer, AppendTravelerFlight;
  }

  lemma TheFlightIsRemembered(m: map<Address, seq<Key>>)
    requires m == map[]
    ensures AppendTravelerFlight(m, TRAVELER, FLIGHT) == map[TRAVELER := [FLIGHT]]
  {
    assert FlightsOf(m, TRAVELER) + [FLIGHT] == [FLIGHT];
    assert m[TRAVELER := [FLIGHT]] == map[TRAVELER := [FLIGHT]];
  }

  lemma APolicyIsSold()
    ensures BuyMoves(OnSale(), Buy(TRAVELER, FLIGHT, PAIR), Sold())
  {
    hide AdmitBuyer, RegisterSale, TakePremium;
    TheBuyerIsAdmitted();
    TheFlightIsRegistered();
    ThePremiumIsTaken();
    assert BuyInsurance(OnSale().chain, START, TRAVELER, FLIGHT, PAIR) == Ok(Sold().chain);
    assert OnSale().log.sales + [Sale(TRAVELER, FLIGHT, PAIR, START, 1)] == Sold().log.sales;
  }

  function Departed(): World {
    var w := Sold();
    On(w, w.chain.(oracle := w.chain.oracle.(rows := map[FLIGHT := FlightData(FlightStatus.Active, DAY, 0, 0)])))
      .(log := w.log.(etas := map[FLIGHT := DAY]))
  }

  lemma TheFlightLandsLate()
    ensures AggregatorMoves(Sold(), Op.SetEstimatedArrival(FLIGHT, DAY), Departed())
    ensures AggregatorMoves(Departed(), Op.SetLanded(FLIGHT, DAY + HOUR), FlightLanded())
    ensures Admissible(Departed(), Op.SetLanded(FLIGHT, DAY + HOUR))
  {
    assert Sold().chain.oracle.rows[FLIGHT := FlightData(FlightStatus.Active, DAY, 0, 0)] == Departed().chain.oracle.rows;
    assert Departed().chain.oracle.rows[FLIGHT := Late(Landed)] == FlightLanded().chain.oracle.rows;
    assert Sold().log.etas[FLIGHT := DAY] == Departed().log.etas;
    assert Departed().log.outcomes[FLIGHT := Arrival(DAY + HOUR)] == FlightLanded().log.outcomes;
  }

  function FlightClassified(): World {
    var w := FlightLanded();
    On(w, w.chain.(oracle := w.chain.oracle.(rows := map[FLIGHT := Late(ToBeSettledDelayed)])))
  }

  lemma TheFlightIsClassified()
    ensures KeeperMoves(FlightLanded(), Op.ClassifyFlight(FLIGHT), FlightClassified())
  {
    var c := FlightLanded().chain;
    assert ClassificationTarget(c, START, FLIGHT) == Some(ToBeSettledDelayed);
    assert c.oracle.rows[FLIGHT := Late(ToBeSettledDelayed)] == FlightClassified().chain.oracle.rows;
  }

  lemma ClaimsOpen()
    ensures OpenClaims(FlightClassified().chain, START, FLIGHT, EXPIRY, SettledDelayed)
         == Ok(BucketSettled().chain.(oracle := FlightClassified().chain.oracle, ctrl := FlightClassified().chain.ctrl))
  {
    var c, d := FlightClassified().chain, BucketSettled().chain;
    assert c.balances[VaultAddress := 9][PoolAddress := 2] == d.balances;
    assert Token.Transfer(c.balances, VaultAddress, PoolAddress, 1) == Ok(d.balances);
    assert Vault.SendPayout(c.vault, c.balances, PoolAddress, 1) == Ok((c.vault.(tma := 9), d.balances));
    assert c.pool.configs[FLIGHT := Bucket(SettledDelayed, 0, EXPIRY)] == d.pool.configs;
    assert SwapRemove([FLIGHT], FLIGHT) == [];
    assert Pool.SettleWithClaimWindow(c.pool, d.balances, START, FLIGHT, EXPIRY, SettledDelayed) == Ok(d.pool);
    hide Vault.SendPayout, Pool.SettleWithClaimWindow;
  }

  lemma TheBucketSettles()
    ensures KeeperMoves(FlightClassified(), Op.SettleFlight(FLIGHT), BucketSettled())
  {
    hide SettleOne;
    TheFlightSettles();
  }

  lemma TheFlightSettles()
    ensures SettleOne(FlightClassified().chain, START, FLIGHT, EXPIRY) == Ok((BucketSettled().chain, true))
  {
    ClaimsOpen();
    hide OpenClaims;
    var o := FlightClassified().chain.oracle;
    assert o.rows[FLIGHT := Late(Settled).(settledAt := START)] == BucketSettled().chain.oracle.rows;
    assert Oracle.SetSettled(o, START, FLIGHT) == Ok(BucketSettled().chain.oracle);
    hide Oracle.SetSettled;
  }

  lemma TheClaimIsAccepted()
    ensures Pool.Claim(BucketSettled().chain.pool, BucketSettled().chain.balances, START, TRAVELER, FLIGHT)
         == Ok((Paid().chain.pool, Paid().chain.balances))
  {
    var c, d := BucketSettled().chain, Paid().chain;
    assert c.balances[PoolAddress := 0][TRAVELER := 5] == d.balances;
    assert Token.Transfer(c.balances, PoolAddress, TRAVELER, 2) == Ok(d.balances);
    hide Token.Transfer;
    FirstClaim(c.pool, c.balances, d.balances);
    assert d.pool == c.pool.(configs := d.pool.configs, claimed := d.pool.claimed);
  }

  lemma FirstClaim(p: Pool.PoolState, b: Token.Balances, b': Token.Balances)
    requires p.configs == map[FLIGHT := Bucket(SettledDelayed, 0, EXPIRY)]
    requires p.buyers == map[FLIGHT := {TRAVELER}] && p.claimed == map[]
    requires Token.Transfer(b, PoolAddress, TRAVELER, 2) == Ok(b')
    ensures Pool.Claim(p, b, START, TRAVELER, FLIGHT)
         == Ok((p.(configs := map[FLIGHT := Bucket(SettledDelayed, 1, EXPIRY)], claimed := map[FLIGHT := {TRAVELER}]), b'))
  {
    hide Token.Transfer;
    assert p.configs[FLIGHT := Bucket(SettledDelayed, 1, EXPIRY)] == map[FLIGHT := Bucket(SettledDelayed, 1, EXPIRY)];
    assert Pool.At(p.claimed, FLIGHT) + {TRAVELER} == {TRAVELER};
    assert p.claimed[FLIGHT := {TRAVELER}] == map[FLIGHT := {TRAVELER}];
  }

  lemma TheTravelerIsPaid()
    ensures ClaimMoves(BucketSettled(), Op.Claim(TRAVELER, FLIGHT), Paid())
  {
    hide Pool.Claim;
    TheClaimIsAccepted();
    assert BucketSettled().log.payments + [Payment(TRAVELER, FLIGHT, 2)] == Paid().log.payments;
  }

  // --- the run ---

  lemma ReachOnSale() returns (ops: seq<Op>)
    ensures Leads(Deployed(), ops, OnSale())
  {
    hide Leads, EnvironmentMoves, AggregatorMoves, KeeperMoves, BuyMoves, ClaimMoves, UpkeepMoves, OwnerMoves, GovMoves, LpMoves;
    hide Initial, Deployed, Entering, Waiting, Funded, RouteListed, OnSale, NoRival;
    var entry, tick, mint := Lp(RequestDeposit(LP, 10)), Tick(START), Op.RunQueueMaintenance;
    var list, open := Gov(Whitelist(ROUTE, None, None, None)), Op.OpenSale(FLIGHT, DAY);
    DeploymentIsInitial();
    NoOps(Deployed());
    AnUnderwriterEnters();
    OneMore(Deployed(), [], Deployed(), entry, Entering());
    TimePasses();
    OneMore(Deployed(), [] + [entry], Entering(), tick, Waiting());
    TheEntryIsMinted();
    OneMore(Deployed(), [] + [entry] + [tick], Waiting(), mint, Funded());
    ARouteGoesOnSale();
    TheRouteIsGuarded();
    OneMore(Deployed(), [] + [entry] + [tick] + [mint], Funded(), list, RouteListed());
    ops := [] + [entry] + [tick] + [mint] + [list] + [open];
    OneMore(Deployed(), [] + [entry] + [tick] + [mint] + [list], RouteListed(), open, OnSale());
  }

  lemma DeploymentIsInitial()
    ensures Initial(Deployed())
  {
  }

  lemma TimePasses()
    ensures EnvironmentMoves(Entering(), Tick(START), Waiting())
  {
  }

  lemma TheRouteIsGuarded()
    ensures Admissible(Funded(), Gov(Whitelist(ROUTE, None, None, None)))
  {
  }

  lemma ReachSold() returns (ops: seq<Op>)
    ensures Leads(Deployed(), ops, Sold())
  {
    hide Leads, EnvironmentMoves, AggregatorMoves, KeeperMoves, BuyMoves, ClaimMoves, UpkeepMoves, OwnerMoves, GovMoves, LpMoves;
    hide Deployed, OnSale, Sold;
    var before := ReachOnSale();
    APolicyIsSold();
    ops := before + [Buy(TRAVELER, FLIGHT, PAIR)];
    OneMore(Deployed(), before, OnSale(), Buy(TRAVELER, FLIGHT, PAIR), Sold());
  }

  lemma ReachLanded() returns (ops: seq<Op>)
    ensures Leads(Deployed(), ops, FlightLanded())
  {
    hide Leads, EnvironmentMoves, AggregatorMoves, KeeperMoves, BuyMoves, ClaimMoves, UpkeepMoves, OwnerMoves, GovMoves, LpMoves;
    hide Deployed, Sold, Departed, FlightLanded;
    var before := ReachSold();
    var depart, land := Op.SetEstimatedArrival(FLIGHT, DAY), Op.SetLanded(FLIGHT, DAY + HOUR);
    TheFlightLandsLate();
    OneMore(Deployed(), before, Sold(), depart, Departed());
    OneMore(Deployed(), before + [depart], Departed(), land, FlightLanded());
    ops := before + [depart] + [land];
  }

  lemma ReachPaid() returns (ops: seq<Op>)
    ensures Leads(Deployed(), ops, Paid())
  {
    hide Leads, EnvironmentMoves, AggregatorMoves, KeeperMoves, BuyMoves, ClaimMoves, UpkeepMoves, OwnerMoves, GovMoves, LpMoves;
    hide Deployed, FlightLanded, FlightClassified, BucketSettled, Paid;
    var before := ReachLanded();
    var classify, settle, claim := Op.ClassifyFlight(FLIGHT), Op.SettleFlight(FLIGHT), Op.Claim(TRAVELER, FLIGHT);
    TheFlightIsClassified();
    TheBucketSettles();
    TheTravelerIsPaid();
    OneMore(Deployed(), before, FlightLanded(), classify, FlightClassified());
    OneMore(Deployed(), before + [classify], FlightClassified(), settle, BucketSettled());
    OneMore(Deployed(), before + [classify] + [settle], BucketSettled(), claim, Paid());
    ops := before + [classify] + [settle] + [claim];
  }

  /** Some run sells a policy and pays it out. */
  lemma SomeRunPays() returns (ops: seq<Op>)
    ensures Initial(Deployed()) && AllAdmissible(Deployed(), ops) && After(Deployed(), ops) == Paid()
    ensures PaidTo(After(Deployed(), ops).log.payments, FLIGHT, TRAVELER) == 2
    ensures Inv(After(Deployed(), ops))
  {
    hide Initial, After, AllAdmissible, Inv, Reachable;
    ops := ReachPaid();
    LeadsReaches(Deployed(), ops, Paid());
    ReachableInv(Paid());
    assert Paid().log.payments[..0] == [];
  }
}
