/** Person by person: what every call does to one's tokens, shares, credit and queued requests,
    and that no one's are touched by the calls of others but to be served or added to. */
module Holdings {
  import opened Results
  import opened Types
  import opened ActiveSet
  import opened Token
  import opened MapSums
  import Governance
  import Oracle
  import Pool
  import Vault
  import opened Controller
  import opened World
  import opened Invariant
  import opened BuySteps
  import opened PoolSteps
  import opened SettleSteps
  import opened SweepSteps
  import opened VaultQueues
  import opened QueueAccounts
  import opened LpSteps
  import opened EntryPoints
  import opened GovSteps
  import opened Changes
  import opened Keepers
  import opened Preservation
  import opened Runs
  import opened Guarantees

  type Shares = map<Address, nat>

  // --- underwriters' calls ---

  ghost predicate SharesPaid(s: Shares, s': Shares, from: Address, to: Address, count: int) {
    forall a :: Vault.SharesOf(s', a) == Vault.SharesOf(s, a) - (if a == from then count else 0) + (if a == to then count else 0)
  }

  // The first request in the queue with this id.
  predicate Finds(q: seq<Vault.Request>, id: nat, i: nat) {
    i < |q| && q[i].id == id && forall j :: 0 <= j < i ==> q[j].id != id
  }

  lemma {:induction false} FindRequestFinds(q: seq<Vault.Request>, id: nat)
    ensures var i := Vault.FindRequest(q, id);
            if i < |q| then Finds(q, id, i) else forall j :: 0 <= j < |q| ==> q[j].id != id
  {
    if q != [] && q[0].id != id {
      FindRequestFinds(q[1..], id);
      assert forall j :: 0 < j < |q| ==> q[j] == q[1..][j - 1];
    }
  }

  lemma SharesMove(s: Shares, from: Address, to: Address, count: nat)
    requires count <= Vault.SharesOf(s, from)
    ensures SharesPaid(s, Vault.MoveShares(s, from, to, count), from, to, count)
  {
  }

  /** One's requests are counted one by one. */
  lemma {:induction false} OwnedCounted(q: seq<Vault.Request>, r: Vault.Request, who: Person)
    ensures Vault.CountOwned([], who) == 0
    ensures Vault.CountOwned(q + [r], who) == Vault.CountOwned(q, who) + (if r.owner == who then 1 else 0)
  {
    if q == [] {
      assert [r][1..] == [] && q + [r] == [r];
    } else {
      assert (q + [r])[1..] == q[1..] + [r];
      OwnedCounted(q[1..], r, who);
    }
  }

  /** A deposit request escrows the tokens of its caller and queues them in the caller's name. */
  lemma DepositRequested(v: Vault.VaultState, b: Balances, now: nat, who: Person, n: int)
    requires v.tma >= 0
    ensures var r := Vault.RequestDeposit(v, b, now, who, n);
            && (r.Ok? <==>
                  && 0 < n <= BalanceOf(b, who) && n * (v.supply + 1_000) >= v.tma + 1
                  && |v.entries| < 100 && Vault.CountOwned(v.entries, who) < 20
                  && n >= Vault.EffectiveRequestMinimum(v, |v.entries|, 100))
            && (r.Ok? ==>
                  && Paid(b, r.value.1, who, VaultAddress, n)
                  && r.value.0 == v.(entries := v.entries + [Vault.Request(v.nextId, who, n, now)], nextId := v.nextId + 1))
  {
    hide Vault.EffectiveRequestMinimum, Vault.CountOwned, Transfer, Vault.ToShares;
    TransferPays(b, who, VaultAddress, n);
    if n > 0 {
      WorthSomething(n, v.supply + 1_000, v.tma + 1);
      assert Vault.ToShares(n, v.tma, v.supply) == n * (v.supply + 1_000) / (v.tma + 1) by { ToSharesIs(n, v.tma, v.supply); }
    }
  }

  lemma ToSharesIs(n: int, tma: int, supply: nat)
    requires tma >= 0 && n > 0
    ensures Vault.ToShares(n, tma, supply) == n * (supply + 1_000) / (tma + 1)
  {
  }

  lemma ToAssetsIs(n: int, tma: int, supply: nat)
    requires tma >= 0 && n > 0
    ensures Vault.ToAssets(n, tma, supply) == n * (tma + 1) / (supply + 1_000)
  {
  }

  lemma WorthAtLeast(n: int, num: int, den: int, m: int)
    requires n > 0 && num > 0 && den > 0
    ensures n * num / den >= m <==> n * num >= m * den
  {
    Vault.FloorDivision(n * num, den);
    if n * num / den >= m {
      Vault.Monotone(m, n * num / den, den);
    } else {
      Vault.Monotone(n * num / den + 1, m, den);
    }
  }

  lemma WorthSomething(n: int, num: int, den: int)
    requires n > 0 && num > 0 && den > 0
    ensures n * num / den != 0 <==> n * num >= den
    ensures n * num / den >= 0
  {
    WorthAtLeast(n, num, den, 1);
    Positive(n, num);
    Vault.FloorDivision(n * num, den);
  }

  /** A withdrawal request escrows shares the same way; it must be worth the minimum. */
  lemma WithdrawalAsked(v: Vault.VaultState, now: nat, who: Person, n: int)
    requires v.tma >= 0
    ensures var r := Vault.RequestWithdrawal(v, now, who, n); var m := Vault.EffectiveRequestMinimum(v, |v.exits|, 150);
            && (r.Ok? <==>
                  && 0 < n <= Vault.SharesOf(v.shares, who) && |v.exits| < 150 && Vault.CountOwned(v.exits, who) < 20
                  && n * (v.tma + 1) >= v.supply + 1_000 && n * (v.tma + 1) >= m * (v.supply + 1_000))
            && (r.Ok? ==>
                  && SharesPaid(v.shares, r.value.shares, who, VaultAddress, n)
                  && r.value == v.(shares := r.value.shares, exits := v.exits + [Vault.Request(v.nextId, who, n, now)], nextId := v.nextId + 1))
  {
    hide Vault.EffectiveRequestMinimum, Vault.CountOwned, Vault.MoveShares, Vault.ToAssets;
    if n > 0 {
      WorthSomething(n, v.tma + 1, v.supply + 1_000);
      WorthAtLeast(n, v.tma + 1, v.supply + 1_000, Vault.EffectiveRequestMinimum(v, |v.exits|, 150));
      ToAssetsIs(n, v.tma, v.supply);
    }
    if 0 < n <= Vault.SharesOf(v.shares, who) {
      SharesMove(v.shares, who, VaultAddress, n);
    }
  }

  /** Only its owner cancels a deposit request, and gets back what it holds. */
  lemma DepositCancelled(v: Vault.VaultState, b: Balances, who: Person, id: nat)
    ensures var i := Vault.FindRequest(v.entries, id); var r := Vault.CancelDeposit(v, b, who, id);
            && (if i < |v.entries| then Finds(v.entries, id, i) else forall j :: 0 <= j < |v.entries| ==> v.entries[j].id != id)
            && (r.Ok? <==> i < |v.entries| && v.entries[i].owner == who && 0 <= v.entries[i].amount <= BalanceOf(b, VaultAddress))
            && (r.Ok? ==>
                  && Paid(b, r.value.1, VaultAddress, who, v.entries[i].amount)
                  && r.value.0 == v.(entries := v.entries[..i] + v.entries[i + 1..]))
  {
    hide Transfer;
    FindRequestFinds(v.entries, id);
    var i := Vault.FindRequest(v.entries, id);
    if i < |v.entries| {
      TransferPays(b, VaultAddress, who, v.entries[i].amount);
    }
  }

  /** The same of a withdrawal request and its shares. */
  lemma WithdrawalCalledOff(v: Vault.VaultState, who: Person, id: nat)
    ensures var i := Vault.FindRequest(v.exits, id); var r := Vault.CancelWithdrawal(v, who, id);
            && (if i < |v.exits| then Finds(v.exits, id, i) else forall j :: 0 <= j < |v.exits| ==> v.exits[j].id != id)
            && (r.Ok? <==> i < |v.exits| && v.exits[i].owner == who && 0 <= v.exits[i].amount <= Vault.SharesOf(v.shares, VaultAddress))
            && (r.Ok? ==>
                  && SharesPaid(v.shares, r.value.shares, VaultAddress, who, v.exits[i].amount)
                  && r.value == v.(shares := r.value.shares, exits := v.exits[..i] + v.exits[i + 1..]))
  {
    hide Vault.MoveShares;
    FindRequestFinds(v.exits, id);
    var i := Vault.FindRequest(v.exits, id);
    if i < |v.exits| && 0 <= v.exits[i].amount <= Vault.SharesOf(v.shares, VaultAddress) {
      SharesMove(v.shares, VaultAddress, who, v.exits[i].amount);
    }
  }

  /** Collecting pays one's whole credit to oneself, and leaves every other credit. */
  lemma CreditCollected(v: Vault.VaultState, b: Balances, who: Person)
    ensures var r := Vault.Collect(v, b, who); var due := Vault.ClaimableOf(v.claimable, who);
            && (r.Ok? <==> 0 < due <= BalanceOf(b, VaultAddress))
            && (r.Ok? ==>
                  && Paid(b, r.value.1, VaultAddress, who, due)
                  && (forall a :: Vault.ClaimableOf(r.value.0.claimable, a) == if a == who then 0 else Vault.ClaimableOf(v.claimable, a))
                  && r.value.0 == v.(claimable := r.value.0.claimable))
  {
    hide Transfer;
    TransferPays(b, VaultAddress, who, Vault.ClaimableOf(v.claimable, who));
  }

  // --- what one has ---

  // Tokens, shares, credit with the vault, and what is queued in one's name.
  datatype Holding = Holding(tokens: int, shares: int, credit: int, deposits: int, exits: int)

  function HoldingOf(v: Vault.VaultState, b: Balances, a: Address): Holding {
    Holding(BalanceOf(b, a), Vault.SharesOf(v.shares, a), Vault.ClaimableOf(v.claimable, a), Queued(v.entries, a), Queued(v.exits, a))
  }

  function HeldBy(w: World, a: Address): Holding {
    HoldingOf(w.chain.vault, w.chain.balances, a)
  }

  // `h` with something added, or taken away.
  function Plus(h: Holding, tokens: int, shares: int, credit: int, deposits: int, exits: int): Holding {
    Holding(h.tokens + tokens, h.shares + shares, h.credit + credit, h.deposits + deposits, h.exits + exits)
  }

  function When(c: bool, n: int): int {
    if c then n else 0
  }

  function AmountAt(q: seq<Vault.Request>, id: nat): int {
    var i := Vault.FindRequest(q, id);
    if i < |q| then q[i].amount else 0
  }

  // What an accepted call of an underwriter leaves `a` with.
  function AfterLp(v: Vault.VaultState, b: Balances, op: LpOp, a: Address): Holding {
    var h := HoldingOf(v, b, a);
    match op
    case RequestDeposit(who, n) => Plus(h, When(a == who, -n), 0, 0, When(a == who, n), 0)
    case CancelDeposit(who, id) => var n := When(a == who, AmountAt(v.entries, id)); Plus(h, n, 0, 0, -n, 0)
    case RequestWithdrawal(who, n) => Plus(h, 0, When(a == who, -n), 0, 0, When(a == who, n))
    case CancelWithdrawal(who, id) => var n := When(a == who, AmountAt(v.exits, id)); Plus(h, 0, n, 0, 0, -n)
    case Collect(who) => var n := When(a == who, h.credit); Plus(h, n, 0, -n, 0, 0)
    case TransferShares(who, to, n) => Plus(h, 0, When(a == to, n) - When(a == who, n), 0, 0, 0)
    case SetMinRequest(_) => h
  }

  lemma QueuedWithout(q: seq<Vault.Request>, i: nat, a: Address)
    requires i < |q|
    ensures Queued(q[..i] + q[i + 1..], a) == Queued(q, a) - When(q[i].owner == a, q[i].amount)
  {
    QueuedConcat(q[..i], q[i + 1..], a);
    QueuedConcat(q[..i], q[i..], a);
    assert q == q[..i] + q[i..] && q[i..][1..] == q[i + 1..];
  }

  lemma DepositSideMoves(v: Vault.VaultState, b: Balances, now: nat, op: LpOp, v': Vault.VaultState, b': Balances, a: Address)
    requires a.User? && v.tma >= 0 && LpStep(v, b, now, op) == Ok((v', b'))
    requires op.RequestDeposit? || op.CancelDeposit? || op.Collect?
    ensures HoldingOf(v', b', a) == AfterLp(v, b, op, a)
  {
    hide Vault.RequestDeposit, Vault.CancelDeposit, Vault.Collect, Vault.EffectiveRequestMinimum, Queued;
    if op.RequestDeposit? {
      DepositRequested(v, b, now, op.who, op.amount);
      QueuedAppend(v.entries, Vault.Request(v.nextId, op.who, op.amount, now), a);
    } else if op.CancelDeposit? {
      DepositCancelled(v, b, op.who, op.id);
      QueuedWithout(v.entries, Vault.FindRequest(v.entries, op.id), a);
    } else {
      CreditCollected(v, b, op.who);
    }
  }

  lemma ExitSideMoves(v: Vault.VaultState, b: Balances, now: nat, op: LpOp, v': Vault.VaultState, b': Balances, a: Address)
    requires a.User? && v.tma >= 0 && LpStep(v, b, now, op) == Ok((v', b'))
    requires !op.RequestDeposit? && !op.CancelDeposit? && !op.Collect?
    ensures HoldingOf(v', b', a) == AfterLp(v, b, op, a)
  {
    hide Vault.RequestWithdrawal, Vault.CancelWithdrawal, Vault.MoveShares, Vault.EffectiveRequestMinimum, Queued;
    if op.RequestWithdrawal? {
      WithdrawalAsked(v, now, op.who, op.amount);
      QueuedAppend(v.exits, Vault.Request(v.nextId, op.who, op.amount, now), a);
    } else if op.CancelWithdrawal? {
      WithdrawalCalledOff(v, op.who, op.id);
      QueuedWithout(v.exits, Vault.FindRequest(v.exits, op.id), a);
    } else if op.TransferShares? {
      SharesMove(v.shares, op.who, op.to, op.count);
    }
  }

  // --- every call but queue maintenance ---

  function PremiumFor(c: Chain, k: Key, pair: Governance.Pair): int {
    if Governance.RouteKey(k.id, pair) in c.gov.routes then TermsFor(c, k, pair).premium else 0
  }

  function PayoffOf(c: Chain, k: Key): int {
    if k in c.pool.configs then c.pool.configs[k].payoff else 0
  }

  // Tokens that an accepted call brings to `a`, or takes from them.
  function TokensMoved(w: World, op: Op, a: Address): int {
    if op.Gift? then When(a == op.to, op.amount) - When(a == op.who, op.amount)
    else if op.Buy? then When(a == op.who, -PremiumFor(w.chain, op.key, op.pair))
    else if op.Claim? then When(a == op.who, PayoffOf(w.chain, op.key))
    else if op.WithdrawRecovered? then When(a == User(0), op.sum)
    else 0
  }

  function AfterCall(w: World, op: Op, a: Address): Holding {
    if op.Lp? then AfterLp(w.chain.vault, w.chain.balances, op.lp, a) else Plus(HeldBy(w, a), TokensMoved(w, op, a), 0, 0, 0, 0)
  }

  lemma KeepersLeaveUsers(w: World, op: Op, w': World)
    requires Inv(w) && KeeperMoves(w, op, w') && !op.RunQueueMaintenance?
    ensures UsersKept(w, w')
  {
    hide Inv, KeeperKeeps, SettleOne, ClassifyOne, SettleWindow, Controller.ClassifyFlights, ClassifyKeys;
    hide Controller.SettleEvictedFlight, Controller.RunQueueMaintenance, SettlesOrStays, UnlistedKept, OnlyClassifies;
    InvGivesUsable(w);
    match op {
      case ClassifyFlights => ClassifySweepLeavesUsers(w);
      case ExecuteSettlements => SettleSweepKeeps(w, MAX_SETTLE_BATCH);
      case ExecuteSettlementsBounded(limit) => SettleSweepKeeps(w, Max(1, Min(limit, MAX_SETTLE_BATCH)));
      case SettleEvictedFlight(k) => EvictedSettlementLeavesUsers(w, k, w'.chain);
      case ClassifyFlight(k) => ClassifyOneKeeps(w, k); ClassifyingLeavesUsers(w, w');
      case SettleFlight(k) => SettleOneSettles(w, k, w.now + w.chain.ctrl.claimWindow); SettlesAsKeeper(w, w');
    }
  }

  lemma ClassifyingLeavesUsers(w: World, w': World)
    requires OnlyClassifies(w, w')
    ensures UsersKept(w, w')
  {
  }

  lemma ClassifySweepLeavesUsers(w: World)
    requires Inv(w)
    ensures var r := Controller.ClassifyFlights(w.chain, w.now); r.Ok? && UsersKept(w, On(w, r.value))
  {
    hide Inv, ClassifyKeys, KeysDone, NextCursor, Onward, Done, Due;
    if |w.chain.oracle.active| > 0 {
      ClassifyKeysKeeps(w, Window(w.chain.oracle.active, w.chain.ctrl.classifyCursor, MAX_CLASSIFY_BATCH));
    }
  }

  lemma EvictedSettlementLeavesUsers(w: World, k: Key, c: Chain)
    requires Inv(w) && Controller.SettleEvictedFlight(w.chain, k) == Ok(c)
    ensures UsersKept(w, On(w, c))
  {
    hide Total, Controller.SettleEvictedFlight;
    SettleEvictedEffect(w, k);
  }

  lemma TokensOnly(w: World, w': World, a: Address, n: int)
    requires BalanceOf(w'.chain.balances, a) == BalanceOf(w.chain.balances, a) + n
    requires w'.chain.vault == w.chain.vault.(tma := w'.chain.vault.tma, locked := w'.chain.vault.locked, ratio := w'.chain.vault.ratio)
    ensures HeldBy(w', a) == Plus(HeldBy(w, a), n, 0, 0, 0, 0)
  {
    hide Queued;
  }

  lemma GiftMoves(w: World, op: Op, w': World, a: Address)
    requires EnvironmentMoves(w, op, w') && a.User?
    ensures HeldBy(w', a) == AfterCall(w, op, a)
  {
    hide Transfer, Governance.LapseIndex, HeldBy;
    if op.Gift? {
      TransferPays(w.chain.balances, op.who, op.to, op.amount);
    }
    TokensOnly(w, w', a, TokensMoved(w, op, a));
  }

  lemma TravelerMoves(w: World, op: Op, w': World, a: Address)
    requires Reachable(w) && (BuyMoves(w, op, w') || ClaimMoves(w, op, w')) && a.User?
    ensures HeldBy(w', a) == AfterCall(w, op, a)
  {
    hide Reachable, BuyInsurance, Pool.Claim, HeldBy, TermsFor, OneBucket, OneRow;
    if op.Buy? {
      PurchaseMoves(w, op.who, op.key, op.pair);
    } else {
      ClaimPays(w.chain.pool, w.chain.balances, w.now, op.who, op.key);
    }
    TokensOnly(w, w', a, TokensMoved(w, op, a));
  }

  lemma UpkeepMovesTokens(w: World, op: Op, w': World, a: Address)
    requires UpkeepMoves(w, op, w') && a.User?
    ensures HeldBy(w', a) == AfterCall(w, op, a)
  {
    hide Pool.WithdrawRecovered, HeldBy, Pool.SweepExpired, Pool.ReconcileSettledActiveEntry;
    if op.WithdrawRecovered? {
      RecoveryPaysOwner(w.chain.pool, w.chain.balances, op.sum);
    }
    TokensOnly(w, w', a, TokensMoved(w, op, a));
  }

  /** Every accepted call but queue maintenance moves exactly what it says, to and from exactly
      those it says, in every reachable state: a gift, a premium, a payoff and a recovery move
      tokens; an underwriter's call moves the underwriter's own; nothing else moves anything. */
  lemma CallMoves(w: World, op: Op, w': World, a: Address)
    requires Reachable(w) && Step(w, op) == Ok(w') && !op.RunQueueMaintenance? && a.User?
    ensures HeldBy(w', a) == AfterCall(w, op, a)
  {
    hide Reachable, Inv, Step, HeldBy, AfterLp, AfterCall, UsersKept;
    hide EnvironmentMoves, AggregatorMoves, KeeperMoves, BuyMoves, ClaimMoves, UpkeepMoves, OwnerMoves, GovMoves, LpMoves;
    ReachableInv(w);
    StepSorts(w, op, w');
    if IsEnvironmentOp(op) {
      GiftMoves(w, op, w', a);
    } else if op.Buy? || op.Claim? {
      TravelerMoves(w, op, w', a);
    } else if IsUpkeepOp(op) {
      UpkeepMovesTokens(w, op, w', a);
    } else if op.Lp? {
      UnderwriterMoves(w, op, w', a);
    } else {
      if IsKeeperOp(op) {
        KeepersLeaveUsers(w, op, w');
      }
      OthersMoveNothing(w, op, w', a);
    }
  }

  lemma UnderwriterMoves(w: World, op: Op, w': World, a: Address)
    requires LpMoves(w, op, w') && a.User?
    ensures HeldBy(w', a) == AfterCall(w, op, a)
  {
    hide LpStep, AfterLp, VaultUsable;
    UsableIsPositive(w.chain.vault);
    var v, b := w.chain.vault, w.chain.balances;
    if op.lp.RequestDeposit? || op.lp.CancelDeposit? || op.lp.Collect? {
      DepositSideMoves(v, b, w.now, op.lp, w'.chain.vault, w'.chain.balances, a);
    } else {
      ExitSideMoves(v, b, w.now, op.lp, w'.chain.vault, w'.chain.balances, a);
    }
  }

  lemma UsableIsPositive(v: Vault.VaultState)
    requires VaultUsable(v)
    ensures v.tma >= 0
  {
  }

  lemma SettingsMoveNothing(w: World, op: Op, w': World)
    requires AggregatorMoves(w, op, w') || OwnerMoves(w, op, w') || GovMoves(w, op, w')
    ensures w'.chain.balances == w.chain.balances && w'.chain.vault == w.chain.vault.(ratio := w'.chain.vault.ratio)
  {
    hide OracleStep, OwnerStep, GovStep, OracleLog;
  }

  lemma OthersMoveNothing(w: World, op: Op, w': World, a: Address)
    requires AggregatorMoves(w, op, w') || OwnerMoves(w, op, w') || GovMoves(w, op, w') || (IsKeeperOp(op) && UsersKept(w, w'))
    requires a.User? && !op.Lp? && TokensMoved(w, op, a) == 0
    ensures HeldBy(w', a) == AfterCall(w, op, a)
  {
    hide HeldBy, AggregatorMoves, OwnerMoves, GovMoves, TokensMoved;
    if AggregatorMoves(w, op, w') || OwnerMoves(w, op, w') || GovMoves(w, op, w') {
      SettingsMoveNothing(w, op, w');
    }
    TokensOnly(w, w', a, 0);
  }

  // --- queue maintenance ---

  // The heads of both queues are served fairly, deposits first, and everybody ends up with
  // exactly what the service of their own requests brings them.
  ghost predicate Served(v: Vault.VaultState, b: Balances, now: nat, entries: seq<Entry>, exits: seq<Exit>,
                         v': Vault.VaultState, b': Balances)
    requires v.locked >= 0
  {
    var p, q := v.entries[..Min(|v.entries|, 50)], v.exits[..Min(|v.exits|, 50)];
    && FairEntries(p, entries, v.tma, v.supply, true, now)
    && var tma, supply := v.tma + AssetsIn(p, entries), v.supply + SharesIn(entries);
    && FairExits(q, exits, tma, supply, Max(tma - Vault.RequiredReserve(v.locked, v.ratio), 0), true, now)
    && forall a: Address :: a.User? ==> HoldingOf(v', b', a) == AfterService(v, b, p, entries, q, exits, a)
  }

  function AfterService(v: Vault.VaultState, b: Balances, p: seq<Vault.Request>, entries: seq<Entry>,
                        q: seq<Vault.Request>, exits: seq<Exit>, a: Address): Holding
    requires |entries| == |p| && |exits| == |q|
  {
    Plus(HoldingOf(v, b, a), RefundsOf(p, entries, a), MintsOf(p, entries, a) + ReturnsOf(q, exits, a), CreditsOf(q, exits, a),
         -TakenOf(p, entries, a), -BurnsOf(q, exits, a) - ReturnsOf(q, exits, a))
  }

  /** Queue maintenance behind no barrier serves each owner fairly. */
  lemma MaintenanceByOwner(w: World) returns (entries: seq<Entry>, exits: seq<Exit>)
    requires MoneyOk(w) && w.chain.oracle.pending == 0
    ensures var r := Controller.RunQueueMaintenance(w.chain, w.now);
            r.Ok? && Served(w.chain.vault, w.chain.balances, w.now, entries, exits, r.value.vault, r.value.balances)
  {
    hide Total, FairEntry, FairExit, Vault.RequiredReserve, Vault.ProcessDepositQueue, Vault.ProcessWithdrawalQueue, Served;
    hide Controller.RunQueueMaintenance;
    var v, b := w.chain.vault, w.chain.balances;
    MaintenanceRuns(w);
    entries := DepositsByOwner(v, b, w.now);
    var (v1, b1) := Vault.ProcessDepositQueue(v, b, w.now, false).value;
    exits := WithdrawalsByOwner(v1, w.now);
    var v2 := Vault.ProcessWithdrawalQueue(v1, w.now, false).value;
    ServiceAddsUp(v, b, w.now, entries, exits, v1, b1, v2);
  }

  lemma ServiceAddsUp(v: Vault.VaultState, b: Balances, now: nat, entries: seq<Entry>, exits: seq<Exit>,
                      v1: Vault.VaultState, b1: Balances, v2: Vault.VaultState)
    requires v.locked >= 0
    requires v1 == v.(tma := v1.tma, supply := v1.supply, shares := v1.shares, entries := v1.entries)
    requires v2 == v1.(tma := v2.tma, supply := v2.supply, shares := v2.shares, claimable := v2.claimable, exits := v2.exits)
    requires var p := v.entries[..Min(|v.entries|, 50)];
             && FairEntries(p, entries, v.tma, v.supply, true, now)
             && v1.tma == v.tma + AssetsIn(p, entries) && v1.supply == v.supply + SharesIn(entries)
             && forall a ::
                  && Vault.SharesOf(v1.shares, a) == Vault.SharesOf(v.shares, a) + MintsOf(p, entries, a)
                  && Queued(v1.entries, a) == Queued(v.entries, a) - TakenOf(p, entries, a)
                  && (a != VaultAddress ==> BalanceOf(b1, a) == BalanceOf(b, a) + RefundsOf(p, entries, a))
    requires var q := v.exits[..Min(|v.exits|, 50)];
             && FairExits(q, exits, v1.tma, v1.supply, Max(v1.tma - Vault.RequiredReserve(v1.locked, v1.ratio), 0), true, now)
             && forall a ::
                  && Vault.ClaimableOf(v2.claimable, a) == Vault.ClaimableOf(v1.claimable, a) + CreditsOf(q, exits, a)
                  && Queued(v2.exits, a) == Queued(v1.exits, a) - BurnsOf(q, exits, a) - ReturnsOf(q, exits, a)
                  && (a != VaultAddress ==> Vault.SharesOf(v2.shares, a) == Vault.SharesOf(v1.shares, a) + ReturnsOf(q, exits, a))
    ensures Served(v, b, now, entries, exits, v2, b1)
  {
    hide FairEntry, FairExit, Vault.RequiredReserve, Queued, MintsOf, RefundsOf, TakenOf, CreditsOf, BurnsOf, ReturnsOf, AssetsIn, SharesIn;
  }

  // Deposits, then withdrawals, from a sound vault.
  lemma MaintenanceRuns(w: World)
    requires MoneyOk(w) && w.chain.oracle.pending == 0
    ensures var v, b := w.chain.vault, w.chain.balances;
            && LpOk(v) && BalanceOf(b, VaultAddress) >= v.tma + Vault.SumAmounts(v.entries)
            && var d := Vault.ProcessDepositQueue(v, b, w.now, false);
               d.Ok? && var (v1, b1) := d.value;
               && LpOk(v1) && v1 == v.(tma := v1.tma, supply := v1.supply, shares := v1.shares, entries := v1.entries)
               && var x := Vault.ProcessWithdrawalQueue(v1, w.now, false);
                  x.Ok? && var v2 := x.value;
                  && v2 == v1.(tma := v2.tma, supply := v2.supply, shares := v2.shares, claimable := v2.claimable, exits := v2.exits)
                  && Controller.RunQueueMaintenance(w.chain, w.now) == Ok(w.chain.(vault := v2, balances := b1))
  {
    hide Total, Vault.RequiredReserve, IsRemainder;
    hide Vault.ProcessDepositQueue, Vault.ProcessWithdrawalQueue;
    var v, b := w.chain.vault, w.chain.balances;
    ClaimableNonNegative(v);
    DepositPass(v, b, w.now, false, ClaimableTotal(v) + w.log.vaultGifts);
    WithdrawalPass(Vault.ProcessDepositQueue(v, b, w.now, false).value.0, w.now, false);
  }

  // --- over runs ---

  // The caller of a call that people make for themselves.
  predicate CalledBy(op: Op, a: Address) {
    if op.Gift? || op.Buy? || op.Claim? then op.who == a
    else op.Lp? && match op.lp
      case RequestDeposit(who, _) => who == a
      case CancelDeposit(who, _) => who == a
      case RequestWithdrawal(who, _) => who == a
      case CancelWithdrawal(who, _) => who == a
      case Collect(who) => who == a
      case TransferShares(who, _, _) => who == a
      case SetMinRequest(_) => false
  }

  // Tokens, shares and credit that one has in hand did not fall.
  predicate NoneLost(h: Holding, h': Holding) {
    h.tokens <= h'.tokens && h.shares <= h'.shares && h.credit <= h'.credit
  }

  lemma {:induction false} ExitsOnlyAdd(q: seq<Vault.Request>, xs: seq<Exit>, tma: int, supply: int, free: int, open: bool, now: nat, a: Address)
    requires FairExits(q, xs, tma, supply, free, open, now)
    ensures CreditsOf(q, xs, a) >= 0 && ReturnsOf(q, xs, a) >= 0
    decreases |q|
  {
    if q != [] {
      assert FairExit(q[0], xs[0], tma, supply, free, open, now);
      hide FairExit, InFull;
      ExitsOnlyAdd(q[1..], xs[1..], tma - xs[0].credited, supply - xs[0].burned, free - xs[0].credited, open && InFull(q[0], xs[0]), now, a);
    }
  }

  lemma {:induction false} EntriesOnlyAdd(q: seq<Vault.Request>, xs: seq<Entry>, tma: int, supply: int, open: bool, now: nat, a: Address)
    requires FairEntries(q, xs, tma, supply, open, now) && Vault.PositiveAmounts(q)
    ensures MintsOf(q, xs, a) >= 0 && RefundsOf(q, xs, a) >= 0
    decreases |q|
  {
    if q != [] {
      assert FairEntry(q[0], xs[0], tma, supply, open, now) && q[0].amount > 0;
      assert Vault.PositiveAmounts(q[1..]);
      hide FairEntry;
      EntriesOnlyAdd(q[1..], xs[1..], if xs[0].minted > 0 then tma + q[0].amount else tma, supply + xs[0].minted,
                     open && now >= q[0].requestedAt + 21_600, now, a);
    }
  }

  lemma MaintenanceOnlyAdds(w: World, a: Address)
    requires MoneyOk(w) && a.User?
    ensures var r := Controller.RunQueueMaintenance(w.chain, w.now); r.Ok? && NoneLost(HeldBy(w, a), HeldBy(On(w, r.value), a))
  {
    hide Total, Controller.RunQueueMaintenance, FairEntry, FairExit, Queued, MintsOf, RefundsOf, TakenOf, CreditsOf, BurnsOf, ReturnsOf;
    hide AssetsIn, SharesIn, Vault.RequiredReserve;
    if w.chain.oracle.pending > 0 {
      MaintenanceKeeps(w);
    } else {
      var v := w.chain.vault;
      var entries, exits := MaintenanceByOwner(w);
      var p, q := v.entries[..Min(|v.entries|, 50)], v.exits[..Min(|v.exits|, 50)];
      assert Vault.PositiveAmounts(p);
      EntriesOnlyAdd(p, entries, v.tma, v.supply, true, w.now, a);
      var tma, supply := v.tma + AssetsIn(p, entries), v.supply + SharesIn(entries);
      ExitsOnlyAdd(q, exits, tma, supply, Max(tma - Vault.RequiredReserve(v.locked, v.ratio), 0), true, w.now, a);
    }
  }

  lemma OthersOnlyAdd(w: World, op: Op, w': World, a: Address)
    requires Reachable(w) && Step(w, op) == Ok(w') && a.User? && !CalledBy(op, a)
    ensures NoneLost(HeldBy(w, a), HeldBy(w', a))
  {
    hide Reachable, Step, Inv, EnvironmentMoves, AggregatorMoves, BuyMoves, ClaimMoves, OwnerMoves, GovMoves, LpMoves, VaultUsable;
    hide Controller.RunQueueMaintenance, Pool.WithdrawRecovered;
    ReachableInv(w);
    StepSorts(w, op, w');
    if op.RunQueueMaintenance? {
      MoneyOfInv(w);
      MaintenanceOnlyAdds(w, a);
    } else {
      hide HeldBy, Queued;
      CallMoves(w, op, w', a);
      if op.WithdrawRecovered? {
        RecoveryPaysOwner(w.chain.pool, w.chain.balances, op.sum);
      }
      OthersMoveUp(op, w, w', a);
    }
  }

  lemma MoneyOfInv(w: World)
    requires Inv(w)
    ensures MoneyOk(w)
  {
    hide Total;
  }

  lemma OthersMoveUp(op: Op, w: World, w': World, a: Address)
    requires !CalledBy(op, a) && HeldBy(w', a) == AfterCall(w, op, a) && (op.WithdrawRecovered? ==> op.sum > 0)
    ensures NoneLost(HeldBy(w, a), HeldBy(w', a))
  {
    hide Queued;
  }

  /** Over any run in which a person makes no call, their tokens, their shares and their credit
      with the vault do not fall, whatever everybody else does. */
  lemma {:induction false} OnlyOwnCallsSpend(w: World, ops: seq<Op>, a: Address)
    requires Reachable(w) && AllAdmissible(w, ops) && a.User?
    requires forall i :: 0 <= i < |ops| ==> !CalledBy(ops[i], a)
    ensures NoneLost(HeldBy(w, a), HeldBy(After(w, ops), a))
    decreases |ops|
  {
    hide Reachable, Step, HeldBy, CalledBy, Admissible;
    if ops != [] {
      var w1 := Attempt(w, ops[0]);
      OneCallReaches(w, ops[0]);
      if Step(w, ops[0]).Ok? {
        OthersOnlyAdd(w, ops[0], w1, a);
      }
      OnlyOwnCallsSpend(w1, ops[1..], a);
    }
  }

  lemma OneCallReaches(w: World, op: Op)
    requires Reachable(w) && Allowed(w, op)
    ensures Reachable(Attempt(w, op))
  {
    hide Reachable, Attempt, Allowed;
    assert [op][1..] == [] && After(w, [op]) == Attempt(w, op);
    assert AllAdmissible(w, [op]);
    ReachableAfter(w, [op]);
  }
}
