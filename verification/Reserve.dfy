/** Between increases of the solvency ratio the vault keeps the full reserve for its
    locked collateral, ceil(locked * ratio / 100), and not merely the collateral. */
module Reserve {
  import opened Results
  import opened Types
  import opened Token
  import opened MapSums
  import Governance
  import Oracle
  import Pool
  import Vault
  import opened Controller
  import opened World
  import opened Invariant
  import opened Changes
  import opened Keepers
  import opened Preservation
  import opened Runs

  lemma BuyMeetsReserve(w: World, op: Op, w': World)
    requires BuyMoves(w, op, w') && MoneyOk(w)
    ensures ReserveMet(w'.chain.vault)
  {
    hide Total, AdmitBuyer, RegisterSale, Pool.AddBuyer, Transfer;
    AdmissionLeavesVault(w.chain, w.now, op.who, op.key, op.pair);
  }

  lemma AdmissionLeavesVault(c: Chain, now: nat, who: Person, k: Key, pair: Governance.Pair)
    requires AdmitBuyer(c, now, who, k, pair).Ok?
    ensures var (c1, terms) := AdmitBuyer(c, now, who, k, pair).value;
            c1.vault == c.vault && c1.ctrl.ratio == c.ctrl.ratio
            && (RegisterSale(c1, k, terms).Ok? ==>
                  var c2 := RegisterSale(c1, k, terms).value; c2.vault == c.vault && c2.ctrl.ratio == c.ctrl.ratio)
  {
    hide BindTerms, Pool.RegisterFlight, Oracle.RegisterFlight, Governance.ReadRouteStatus, CheckSaleWindow;
  }

  lemma LpLeavesLocked(v: Vault.VaultState, b: Balances, now: nat, op: LpOp)
    requires v.tma >= 0 && LpStep(v, b, now, op).Ok?
    ensures var v' := LpStep(v, b, now, op).value.0;
            v'.tma == v.tma && v'.locked == v.locked && v'.ratio == v.ratio
  {
  }

  lemma LpKeepsReserve(w: World, op: Op, w': World)
    requires LpMoves(w, op, w') && ReserveMet(w.chain.vault)
    ensures ReserveMet(w'.chain.vault)
  {
    hide LpStep;
    LpLeavesLocked(w.chain.vault, w.chain.balances, w.now, op.lp);
  }

  predicate RaisesRatio(w: World, op: Op) {
    op.SetSolvencyRatio? && op.ratio > w.chain.vault.ratio
  }

  lemma OwnerKeepsReserve(w: World, op: Op, w': World)
    requires OwnerMoves(w, op, w') && ReserveMet(w.chain.vault) && !RaisesRatio(w, op)
    ensures ReserveMet(w'.chain.vault)
  {
    if op.SetSolvencyRatio? {
      Vault.Monotone'(op.ratio, w.chain.vault.ratio, w.chain.vault.locked);
    }
  }

  /** The full reserve survives every step but an increase of the ratio. */
  lemma StepKeepsReserve(w: World, op: Op)
    requires Inv(w) && ReserveMet(w.chain.vault) && !RaisesRatio(w, op)
    ensures ReserveMet(Attempt(w, op).chain.vault)
  {
    hide Inv, Step, ReserveMet, MoneyOk, KeeperKeeps, VaultUsable, EnvironmentMoves, AggregatorMoves, KeeperMoves, BuyMoves;
    hide ClaimMoves, UpkeepMoves, OwnerMoves, GovMoves, LpMoves;
    var w' := Attempt(w, op);
    if Step(w, op).Ok? {
      StepSorts(w, op, w');
      if IsKeeperOp(op) {
        KeeperOpKeeps(w, op, w');
        KeeperCarries(w, w');
      } else if op.Buy? {
        SolventMoney(w);
        BuyMeetsReserve(w, op, w');
      } else if IsOwnerOp(op) {
        OwnerKeepsReserve(w, op, w');
      } else if op.Lp? {
        LpKeepsReserve(w, op, w');
      } else {
        VaultUntouched(w, op, w');
      }
    }
  }

  lemma KeeperCarries(w: World, w': World)
    requires KeeperKeeps(w, w') && ReserveMet(w.chain.vault)
    ensures ReserveMet(w'.chain.vault)
  {
  }

  lemma VaultUntouched(w: World, op: Op, w': World)
    requires EnvironmentMoves(w, op, w') || AggregatorMoves(w, op, w') || ClaimMoves(w, op, w') || UpkeepMoves(w, op, w')
          || GovMoves(w, op, w')
    ensures w'.chain.vault == w.chain.vault
  {
    hide EnvironmentStep, OracleStep, ClaimStep, PoolStep, GovStep;
  }

  lemma SolventMoney(w: World)
    requires Inv(w)
    ensures MoneyOk(w)
  {
  }

  predicate NeverRaisesRatio(w: World, ops: seq<Op>)
    decreases |ops|
  {
    ops == [] || (!RaisesRatio(w, ops[0]) && NeverRaisesRatio(Attempt(w, ops[0]), ops[1..]))
  }

  // What is known of the reserve after a step: a purchase checks it, and a raise decides it anew.
  predicate CoveredBy(w: World, op: Op, was: bool) {
    if Step(w, op).Err? then was
    else if op.Buy? then true
    else if RaisesRatio(w, op) then ReserveMet(w.chain.vault.(ratio := op.ratio))
    else was
  }

  /** The last accepted raise left the reserve met, or a purchase was accepted since; without
      either, the reserve was met at the start. */
  predicate CoveredAfter(w: World, ops: seq<Op>, was: bool)
    decreases |ops|
  {
    if ops == [] then was else CoveredAfter(Attempt(w, ops[0]), ops[1..], CoveredBy(w, ops[0], was))
  }

  lemma {:induction false} RunKeepsReserve(w: World, ops: seq<Op>, was: bool)
    requires Inv(w) && (was ==> ReserveMet(w.chain.vault)) && AllAdmissible(w, ops) && CoveredAfter(w, ops, was)
    ensures ReserveMet(After(w, ops).chain.vault)
    decreases |ops|
  {
    hide Inv, Attempt, ReserveMet, Allowed, CoveredBy;
    if ops != [] {
      AttemptKeeps(w, ops[0]);
      CoveredByReserve(w, ops[0], was);
      RunKeepsReserve(Attempt(w, ops[0]), ops[1..], CoveredBy(w, ops[0], was));
    }
  }

  lemma CoveredByReserve(w: World, op: Op, was: bool)
    requires Inv(w) && (was ==> ReserveMet(w.chain.vault))
    ensures CoveredBy(w, op, was) ==> ReserveMet(Attempt(w, op).chain.vault)
  {
    hide Inv, Step, ReserveMet, MoneyOk, BuyMoves, OwnerMoves, EnvironmentMoves, AggregatorMoves, KeeperMoves, ClaimMoves, UpkeepMoves;
    hide GovMoves, LpMoves;
    var w' := Attempt(w, op);
    if Step(w, op).Ok? {
      StepSorts(w, op, w');
      if op.Buy? {
        SolventMoney(w);
        BuyMeetsReserve(w, op, w');
      } else if RaisesRatio(w, op) {
        RaiseDecidesReserve(w, op, w');
      } else if was {
        StepKeepsReserve(w, op);
      }
    }
  }

  lemma RaiseDecidesReserve(w: World, op: Op, w': World)
    requires OwnerMoves(w, op, w') && op.SetSolvencyRatio?
    ensures ReserveMet(w'.chain.vault) <==> ReserveMet(w.chain.vault.(ratio := op.ratio))
  {
  }

  lemma {:induction false} NoRaiseStaysCovered(w: World, ops: seq<Op>)
    requires NeverRaisesRatio(w, ops)
    ensures CoveredAfter(w, ops, true)
    decreases |ops|
  {
    hide Attempt, Step;
    if ops != [] {
      NoRaiseStaysCovered(Attempt(w, ops[0]), ops[1..]);
    }
  }
}
