/** Tokens are neither created nor destroyed: every step moves balances only. */
module Conservation {
  import opened Results
  import opened Types
  import opened Token
  import opened MapSums
  import Governance
  import Pool
  import Vault
  import opened Controller
  import opened World
  import opened Invariant
  import opened Changes
  import opened BuySteps
  import opened Keepers
  import opened Preservation
  import opened Runs

  ghost predicate SameTokens(w: World, w': World) {
    Tokens(w'.chain.balances) == Tokens(w.chain.balances)
  }

  lemma EnvironmentConserves(w: World, op: Op, w': World)
    requires EnvironmentMoves(w, op, w')
    ensures SameTokens(w, w')
  {
    hide Tokens, Transfer, Governance.LapseIndex;
    if op.Gift? {
      TransferConserves(w.chain.balances, op.who, op.to, op.amount);
    }
  }

  lemma BuyConserves(w: World, op: Op, w': World)
    requires BuyMoves(w, op, w')
    ensures SameTokens(w, w')
  {
    hide Total, Tokens, BuyInsurance, Transfer, PoolJoined, OracleJoined;
    var terms := PurchaseShape(w, w'.chain, op.who, op.key, op.pair);
    TransferConserves(w.chain.balances, op.who, PoolAddress, terms.premium);
  }

  lemma PoolMoveConserves(w: World, op: Op, w': World)
    requires ClaimMoves(w, op, w') || UpkeepMoves(w, op, w')
    ensures SameTokens(w, w')
  {
    hide Tokens, Transfer;
    if op.Claim? {
      TransferConserves(w.chain.balances, PoolAddress, op.who, w.chain.pool.configs[op.key].payoff);
    } else if op.WithdrawRecovered? {
      TransferConserves(w.chain.balances, PoolAddress, OWNER, op.sum);
    }
  }

  lemma LpConserves(v: Vault.VaultState, b: Balances, now: nat, op: LpOp)
    requires v.tma >= 0 && LpStep(v, b, now, op).Ok?
    ensures Tokens(LpStep(v, b, now, op).value.1) == Tokens(b)
  {
    hide Tokens, Transfer;
    match op
    case RequestDeposit(who, amount) => TransferConserves(b, who, VaultAddress, amount);
    case CancelDeposit(who, id) => TransferConserves(b, VaultAddress, who, v.entries[Vault.FindRequest(v.entries, id)].amount);
    case Collect(who) => TransferConserves(b, VaultAddress, who, Vault.ClaimableOf(v.claimable, who));
    case _ =>
  }

  lemma StepConserves(w: World, op: Op)
    requires Inv(w)
    ensures SameTokens(w, Attempt(w, op))
  {
    hide Inv, Step, Tokens, Evolves, RestingKept, ReserveCarried, OracleStep, GovStep, LpStep;
    hide EnvironmentMoves, KeeperMoves, BuyMoves, ClaimMoves, UpkeepMoves;
    var w' := Attempt(w, op);
    if Step(w, op).Ok? {
      StepSorts(w, op, w');
      if IsEnvironmentOp(op) {
        EnvironmentConserves(w, op, w');
      } else if IsKeeperOp(op) {
        KeeperOpKeeps(w, op, w');
      } else if op.Buy? {
        BuyConserves(w, op, w');
      } else if op.Claim? || IsUpkeepOp(op) {
        PoolMoveConserves(w, op, w');
      } else if op.Lp? {
        LpConserves(w.chain.vault, w.chain.balances, w.now, op.lp);
      }
    }
  }

  /** No run creates or destroys a token. */
  lemma {:induction false} RunConserves(w: World, ops: seq<Op>)
    requires Inv(w) && AllAdmissible(w, ops)
    ensures Tokens(After(w, ops).chain.balances) == Tokens(w.chain.balances)
    decreases |ops|
  {
    hide Inv, Attempt, Tokens, Allowed;
    if ops != [] {
      AttemptKeeps(w, ops[0]);
      StepConserves(w, ops[0]);
      RunConserves(Attempt(w, ops[0]), ops[1..]);
    }
  }
}
