/** Underwriter requests and queue maintenance keep the money identities. */
module LpSteps {
  import opened Results
  import opened Types
  import opened MapSums
  import opened Token
  import Vault
  import opened Controller
  import opened World
  import opened Invariant
  import opened VaultQueues

  function WithVault(w: World, v: Vault.VaultState, b: Balances): World {
    On(w, w.chain.(vault := v, balances := b))
  }

  // An LP step that leaves the pool's tokens and the solvency of the vault alone, and
  // accounts for every token it moves, keeps the money invariant.
  lemma MoneyAfterLp(w: World, v: Vault.VaultState, b: Balances)
    requires MoneyOk(w) && QueuesOk(v)
    requires v.locked == w.chain.vault.locked && v.ratio == w.chain.vault.ratio && v.locked <= v.tma
    requires BalanceOf(b, PoolAddress) == BalanceOf(w.chain.balances, PoolAddress)
    requires BalanceOf(b, VaultAddress) - v.tma - ClaimableTotal(v) - Vault.SumAmounts(v.entries)
          == BalanceOf(w.chain.balances, VaultAddress) - w.chain.vault.tma
             - ClaimableTotal(w.chain.vault) - Vault.SumAmounts(w.chain.vault.entries)
    ensures MoneyOk(WithVault(w, v, b))
  {
    hide Total;
  }

  lemma DepositRequests(w: World, who: Person, amount: int, id: nat, v: Vault.VaultState, b: Balances)
    requires MoneyOk(w)
    requires Vault.RequestDeposit(w.chain.vault, w.chain.balances, w.now, who, amount) == Ok((v, b))
          || Vault.CancelDeposit(w.chain.vault, w.chain.balances, who, id) == Ok((v, b))
    ensures MoneyOk(WithVault(w, v, b))
  {
    hide Total;
    var q := w.chain.vault.entries;
    var i := Vault.FindRequest(q, id);
    SumAppend(q, Vault.Request(w.chain.vault.nextId, who, amount, w.now));
    if i < |q| {
      SumWithout(q, i);
    }
    MoneyAfterLp(w, v, b);
  }

  lemma WithdrawalRequested(w: World, who: Person, amount: int, v: Vault.VaultState)
    requires MoneyOk(w) && Vault.RequestWithdrawal(w.chain.vault, w.now, who, amount) == Ok(v)
    ensures MoneyOk(WithVault(w, v, w.chain.balances))
  {
    hide Total;
    var q, from: Address := w.chain.vault.exits, who;
    RequestShape(w.chain.vault, w.now, who, amount, v);
    SumAppend(q, Vault.Request(w.chain.vault.nextId, who, amount, w.now));
    ConcatPositive(q, [Vault.Request(w.chain.vault.nextId, who, amount, w.now)]);
    TotalMove(w.chain.vault.shares, from, VaultAddress, amount);
    SharesArrive(w.chain.vault.shares, from, amount);
    MoneyAfterLp(w, v, w.chain.balances);
  }

  lemma RequestShape(v0: Vault.VaultState, now: nat, who: Person, amount: int, v: Vault.VaultState)
    requires v0.tma >= 0 && Vault.RequestWithdrawal(v0, now, who, amount) == Ok(v)
    ensures 0 < amount <= Vault.SharesOf(v0.shares, who)
    ensures v == v0.(shares := Vault.MoveShares(v0.shares, who, VaultAddress, amount),
                     exits := v0.exits + [Vault.Request(v0.nextId, who, amount, now)], nextId := v0.nextId + 1)
  {
    hide Vault.ToAssets, Vault.EffectiveRequestMinimum, Vault.CountOwned, Vault.MoveShares;
  }

  lemma SharesArrive(shares: map<Address, nat>, from: Address, amount: nat)
    requires from.User? && amount <= Vault.SharesOf(shares, from)
    ensures Vault.SharesOf(Vault.MoveShares(shares, from, VaultAddress, amount), VaultAddress)
         == Vault.SharesOf(shares, VaultAddress) + amount
  {
  }

  lemma WithdrawalCancelled(w: World, who: Person, id: nat, v: Vault.VaultState)
    requires MoneyOk(w) && Vault.CancelWithdrawal(w.chain.vault, who, id) == Ok(v)
    ensures MoneyOk(WithVault(w, v, w.chain.balances))
  {
    hide Total;
    var q := w.chain.vault.exits;
    var i := Vault.FindRequest(q, id);
    SumWithout(q, i);
    TotalMove(w.chain.vault.shares, VaultAddress, who, q[i].amount);
    SharesLeave(w.chain.vault.shares, who, q[i].amount);
    hide Vault.MoveShares;
    MoneyAfterLp(w, v, w.chain.balances);
  }

  lemma SharesLeave(shares: map<Address, nat>, to: Address, amount: nat)
    requires to.User? && amount <= Vault.SharesOf(shares, VaultAddress)
    ensures Vault.SharesOf(Vault.MoveShares(shares, VaultAddress, to, amount), VaultAddress)
         == Vault.SharesOf(shares, VaultAddress) - amount
  {
  }

  lemma CollectKeeps(w: World, who: Person, v: Vault.VaultState, b: Balances)
    requires MoneyOk(w) && Vault.Collect(w.chain.vault, w.chain.balances, who) == Ok((v, b))
    ensures MoneyOk(WithVault(w, v, b))
  {
    hide Total;
    var a: Address := who;
    TotalRemove(w.chain.vault.claimable, Id, a);
    MoneyAfterLp(w, v, b);
  }

  lemma LpKeeps(w: World, op: LpOp, v: Vault.VaultState, b: Balances)
    requires MoneyOk(w) && LpStep(w.chain.vault, w.chain.balances, w.now, op) == Ok((v, b))
    ensures MoneyOk(WithVault(w, v, b))
    ensures v.tma == w.chain.vault.tma
  {
    hide Total;
    match op
    case RequestDeposit(who, amount) => DepositRequests(w, who, amount, 0, v, b);
    case CancelDeposit(who, id) => DepositRequests(w, who, 0, id, v, b);
    case RequestWithdrawal(who, amount) => WithdrawalRequested(w, who, amount, v);
    case CancelWithdrawal(who, id) => WithdrawalCancelled(w, who, id, v);
    case Collect(who) => CollectKeeps(w, who, v, b);
    case TransferShares(who, to, count) =>
      TotalMove(w.chain.vault.shares, who, to, count);
      MoneyAfterLp(w, v, b);
    case SetMinRequest(min) => MoneyAfterLp(w, v, b);
  }

  /** Whoever is owed by the vault can always fetch it: credits are collectable and queued
      deposits cancellable without a shortfall. */
  lemma VaultDebtsAlwaysPayable(w: World, who: Person, id: nat)
    requires MoneyOk(w)
    ensures Vault.ClaimableOf(w.chain.vault.claimable, who) > 0
        ==> Vault.Collect(w.chain.vault, w.chain.balances, who).Ok?
    ensures var q := w.chain.vault.entries; var i := Vault.FindRequest(q, id);
            i < |q| && q[i].owner == who ==> Vault.CancelDeposit(w.chain.vault, w.chain.balances, who, id).Ok?
    ensures var q := w.chain.vault.exits; var i := Vault.FindRequest(q, id);
            i < |q| && q[i].owner == who ==> Vault.CancelWithdrawal(w.chain.vault, who, id).Ok?
  {
    hide Total;
    var v := w.chain.vault;
    SumNonNegative(v.entries);
    SumNonNegative(v.exits);
    TotalNonNegative(v.claimable, Id);
    if who in v.claimable {
      TotalMember(v.claimable, Id, who);
    }
  }

  /** Queue maintenance always commits; whatever the exits take, the reserve for the
      locked collateral stays, and the price of a share does not fall. */
  lemma MaintenanceKeeps(w: World)
    requires MoneyOk(w)
    ensures var r := Controller.RunQueueMaintenance(w.chain, w.now);
            && r.Ok? && MoneyOk(On(w, r.value))
            && r.value == w.chain.(vault := r.value.vault, balances := r.value.balances)
            && r.value.vault.tma >= Min(w.chain.vault.tma, Vault.RequiredReserve(w.chain.vault.locked, w.chain.vault.ratio))
            && (w.chain.oracle.pending > 0 ==> r.value == w.chain)
  {
    hide Total;
    var v, b, barrier := w.chain.vault, w.chain.balances, w.chain.oracle.pending > 0;
    TotalNonNegative(v.claimable, Id);
    DepositPass(v, b, w.now, barrier, ClaimableTotal(v) + w.log.vaultGifts);
    var (v1, b1) := Vault.ProcessDepositQueue(v, b, w.now, barrier).value;
    WithdrawalPass(v1, w.now, barrier);
    var v2 := Vault.ProcessWithdrawalQueue(v1, w.now, barrier).value;
    Vault.ReserveCoversLocked(v.locked, v.ratio);
    MoneyAfterLp(w, v2, b1);
  }

  lemma MaintenancePrice(w: World)
    requires MoneyOk(w)
    ensures var r := Controller.RunQueueMaintenance(w.chain, w.now);
            r.Ok? && PriceNotLower(w.chain.vault.tma, w.chain.vault.supply, r.value.vault.tma, r.value.vault.supply)
  {
    hide Total;
    var v, b, barrier := w.chain.vault, w.chain.balances, w.chain.oracle.pending > 0;
    TotalNonNegative(v.claimable, Id);
    MaintenanceKeeps(w);
    DepositPass(v, b, w.now, barrier, ClaimableTotal(v) + w.log.vaultGifts);
    var (v1, b1) := Vault.ProcessDepositQueue(v, b, w.now, barrier).value;
    DepositPassPrice(v, b, w.now, barrier);
    WithdrawalPassPrice(v1, w.now, barrier);
    var v2 := Vault.ProcessWithdrawalQueue(v1, w.now, barrier).value;
    PriceTransitive(v.tma, v.supply, v1.tma, v1.supply, v2.tma, v2.supply);
  }
}
