/** Runs from deployment: any sequence of steps, where a step that fails leaves no trace. */
module Runs {
  import opened Results
  import opened Types
  import opened Token
  import opened MapSums
  import Oracle
  import Pool
  import Vault
  import opened Controller
  import opened World
  import opened Invariant
  import opened Keepers
  import opened Preservation

  // The contracts as their constructors leave them; accounts may hold tokens, contracts do not.
  predicate Initial(w: World) {
    && w.chain.oracle == Oracle.OracleState(map[], [], 0, 0, map[])
    && w.chain.pool == Pool.PoolState(map[], map[], map[], [], 0)
    && w.chain.vault == Vault.VaultState(0, 0, 100, 0, map[], [], [], map[], 0, w.chain.vault.minRequest)
    && BalanceOf(w.chain.balances, PoolAddress) == BalanceOf(w.chain.balances, VaultAddress) == 0
    && w.chain.gov.routes == map[] && w.chain.gov.index == map[] && w.chain.gov.retired == map[]
    && w.chain.ctrl == CtrlState(100, w.chain.ctrl.minLead, w.chain.ctrl.claimWindow, 0, 0, 0, 0, 0, false, map[], map[])
    && ParametersOk(w.chain.ctrl)
    && w.archive == map[] && w.log == Log([], [], map[], map[], {}, 0, 0)
  }

  // Undertakings are about steps that are accepted: an attempt the contracts refuse does no harm.
  predicate Allowed(w: World, op: Op) {
    Step(w, op).Ok? ==> Admissible(w, op)
  }

  function After(w: World, ops: seq<Op>): World
    decreases |ops|
  {
    if ops == [] then w else After(Attempt(w, ops[0]), ops[1..])
  }

  predicate AllAdmissible(w: World, ops: seq<Op>)
    decreases |ops|
  {
    ops == [] || (Allowed(w, ops[0]) && AllAdmissible(Attempt(w, ops[0]), ops[1..]))
  }

  ghost predicate Reachable(w: World) {
    exists w0, ops :: Initial(w0) && AllAdmissible(w0, ops) && w == After(w0, ops)
  }

  lemma InitialInv(w: World)
    requires Initial(w)
    ensures Inv(w)
  {
    assert Total(w.chain.pool.configs, Escrow) == Total(w.chain.pool.configs, Collateral) == 0;
    assert Total(w.chain.pool.configs, Policies) == Total(w.chain.pool.configs, Premiums) == 0;
    assert Total(w.chain.pool.configs, Payouts) == 0 && ClaimableTotal(w.chain.vault) == 0;
    assert Total(w.chain.vault.shares, Id) == 0;
    hide Total;
    assert Coherent(w) && PublicFlights(w) == {};
    assert PoolOk(w.chain.pool, w.now) && MoneyOk(w);
    assert SalesOk(w) && PaymentsOk(w) && RoutesOk(w);
  }

  lemma MetIsAllowed(w: World, op: Op)
    requires Admissible(w, op)
    ensures Allowed(w, op)
  {
    hide Step, Admissible;
  }

  lemma AttemptKeeps(w: World, op: Op)
    requires Inv(w) && Allowed(w, op)
    ensures Inv(Attempt(w, op))
  {
    hide Inv, Step, Admissible;
    if Step(w, op).Ok? {
      StepKeeps(w, op);
    }
  }

  lemma {:induction false} RunKeeps(w: World, ops: seq<Op>)
    requires Inv(w) && AllAdmissible(w, ops)
    ensures Inv(After(w, ops))
    decreases |ops|
  {
    hide Inv, Attempt, Allowed;
    if ops != [] {
      AttemptKeeps(w, ops[0]);
      RunKeeps(Attempt(w, ops[0]), ops[1..]);
    }
  }

  /** The invariant of all four contracts, the token and the vault holds after every run. */
  lemma ReachableInv(w: World)
    requires Reachable(w)
    ensures Inv(w)
  {
    hide Inv, Initial, After, AllAdmissible;
    var w0, ops :| Initial(w0) && AllAdmissible(w0, ops) && w == After(w0, ops);
    InitialInv(w0);
    RunKeeps(w0, ops);
  }

  // --- putting runs together ---

  lemma {:induction false} RunConcat(w: World, a: seq<Op>, b: seq<Op>)
    ensures After(w, a + b) == After(After(w, a), b)
    ensures AllAdmissible(w, a + b) <==> AllAdmissible(w, a) && AllAdmissible(After(w, a), b)
    decreases |a|
  {
    hide Attempt, Allowed;
    if a == [] {
      assert a + b == b;
    } else {
      assert (a + b)[1..] == a[1..] + b;
      RunConcat(Attempt(w, a[0]), a[1..], b);
    }
  }

  lemma ReachableAfter(w: World, ops: seq<Op>)
    requires Reachable(w) && AllAdmissible(w, ops)
    ensures Reachable(After(w, ops))
  {
    hide Initial, After, AllAdmissible;
    var w0, before :| Initial(w0) && AllAdmissible(w0, before) && w == After(w0, before);
    RunConcat(w0, before, ops);
  }

  lemma MoveReaches(w: World, op: Op, w': World)
    requires Reachable(w) && Admissible(w, op) && Moves(w, op, w')
    ensures Reachable(w')
  {
    hide Reachable, Inv, Moves, Step, Admissible;
    ReachableInv(w);
    InvGivesUsable(w);
    MoveSteps(w, op, w');
    MetIsAllowed(w, op);
    assert [op][1..] == [] && After(w', []) == w' && AllAdmissible(w', []);
    assert AllAdmissible(w, [op]) && After(w, [op]) == w';
    ReachableAfter(w, [op]);
  }

  // A run from deployment and where it leads.
  ghost predicate Leads(w0: World, ops: seq<Op>, w: World) {
    Initial(w0) && AllAdmissible(w0, ops) && After(w0, ops) == w
  }

  lemma NoOps(w0: World)
    requires Initial(w0)
    ensures Leads(w0, [], w0)
  {
  }

  lemma OneMore(w0: World, ops: seq<Op>, w: World, op: Op, w': World)
    requires Leads(w0, ops, w) && Admissible(w, op) && Moves(w, op, w')
    ensures Leads(w0, ops + [op], w')
  {
    hide Initial, Inv, Moves, Step, Admissible;
    assert Reachable(w);
    ReachableInv(w);
    InvGivesUsable(w);
    MoveSteps(w, op, w');
    MetIsAllowed(w, op);
    assert [op][1..] == [] && After(w', []) == w' && AllAdmissible(w', []);
    assert AllAdmissible(w, [op]) && After(w, [op]) == w';
    RunConcat(w0, ops, [op]);
  }

  lemma LeadsReaches(w0: World, ops: seq<Op>, w: World)
    requires Leads(w0, ops, w)
    ensures Reachable(w)
  {
    hide Initial, After, AllAdmissible;
  }
}
