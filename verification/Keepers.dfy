/** Every keeper call keeps the invariant, and with it whatever `KeeperKeeps` says: the rest
    of the project needs to know no more about keepers. */
module Keepers {
  import opened Results
  import opened Types
  import opened ActiveSet
  import opened Token
  import opened MapSums
  import Oracle
  import Pool
  import Vault
  import opened Controller
  import opened World
  import opened Invariant
  import opened BucketSums
  import opened Changes
  import opened RowSteps
  import opened SweepSteps
  import opened SettleSteps
  import opened PoolSteps
  import opened LpSteps

  lemma InvGivesUsable(w: World)
    requires Inv(w)
    ensures VaultUsable(w.chain.vault) && ParametersOk(w.chain.ctrl) && w.chain.ctrl.claimWindow > 0
  {
    hide Total;
  }

  // Cursors and owner parameters are not part of the invariant's money side.
  lemma ControlFrame(w: World, ctrl: CtrlState)
    requires Inv(w) && ParametersOk(ctrl)
    requires ctrl == w.chain.ctrl.(minLead := ctrl.minLead, claimWindow := ctrl.claimWindow,
                                   classifyCursor := ctrl.classifyCursor, settleCursor := ctrl.settleCursor,
                                   gated := ctrl.gated, approvals := ctrl.approvals)
    ensures Inv(On(w, w.chain.(ctrl := ctrl)))
  {
    hide Total;
    var w' := On(w, w.chain.(ctrl := ctrl));
    RowsUntouched(w, w');
    SettlementHistoryFrame(w, w');
  }

  // --- classification ---

  lemma ClassifyingKeeps(w: World, w': World)
    requires OnlyClassifies(w, w')
    ensures KeeperKeeps(w, w')
  {
    hide Tokens;
  }

  lemma ClassifySweepKeeps(w: World)
    requires Inv(w)
    ensures var r := Controller.ClassifyFlights(w.chain, w.now);
            r.Ok? && Inv(On(w, r.value)) && KeeperKeeps(w, On(w, r.value))
  {
    hide Inv, KeeperKeeps, ClassifyKeys, OnlyClassifies, KeysDone, NextCursor, VaultUsable;
    var n, c := |w.chain.oracle.active|, w.chain.ctrl;
    if n == 0 {
      NothingKept(w);
    } else {
      var keys := Window(w.chain.oracle.active, c.classifyCursor, MAX_CLASSIFY_BATCH);
      ClassifyKeysKeeps(w, keys);
      var w1 := On(w, ClassifyKeys(w.chain, w.now, keys).value);
      ClassifyingKeeps(w, w1);
      var next := NextCursor(c.classifyCursor, MAX_CLASSIFY_BATCH, n);
      InvGivesUsable(w1);
      ControlFrame(w1, w1.chain.ctrl.(classifyCursor := next));
      CursorKept(w1, next, w1.chain.ctrl.settleCursor);
      KeeperTransitive(w, w1, On(w1, w1.chain.(ctrl := w1.chain.ctrl.(classifyCursor := next))));
    }
  }

  // --- settlement ---

  // A flight that was classified settles, or nothing happens to it.
  predicate SettlesOrStays(w: World, w': World, k: Key) {
    && SameDelay(w, w', k)
    && (|| (RowOf(w', k) == RowOf(w, k)
            && (k in w.chain.pool.configs ==> k in w'.chain.pool.configs && w'.chain.pool.configs[k] == w.chain.pool.configs[k]))
        || (k in w.chain.oracle.rows && Done(w, k) && RowOf(w', k).status.Settled?))
  }

  predicate SameDelay(w: World, w': World, k: Key) {
    k in w.chain.pool.configs ==>
      k in w'.chain.pool.configs && w'.chain.pool.configs[k].delayHours == w.chain.pool.configs[k].delayHours
  }

  // Buckets of unlisted flights stay as they are.
  ghost predicate OnlySettles(w: World, w': World) {
    && KeeperKeeps(w, w') && w'.chain.ctrl == w.chain.ctrl.(distributed := w'.chain.ctrl.distributed)
    && UnlistedKept(w, w') && UsersKept(w, w')
    && (forall j :: SettlesOrStays(w, w', j))
  }

  ghost predicate UnlistedKept(w: World, w': World) {
    && w'.chain.pool.configs.Keys == w.chain.pool.configs.Keys
    && (forall j :: j in w.chain.pool.configs && !Listed(w, j) ==> w'.chain.pool.configs[j] == w.chain.pool.configs[j])
  }

  // Settlement moves tokens between pool and vault only, and no shares, credits or requests.
  ghost predicate UsersKept(w: World, w': World) {
    && (forall a: Address :: a.User? ==> BalanceOf(w'.chain.balances, a) == BalanceOf(w.chain.balances, a))
    && w'.chain.vault == w.chain.vault.(tma := w'.chain.vault.tma, locked := w'.chain.vault.locked)
  }

  ghost predicate KeysSettled(w: World, w': World, keys: seq<Key>) {
    forall k :: k in keys && k in w.chain.oracle.rows && Done(w, k) ==> RowOf(w', k).status.Settled?
  }

  lemma SettlingEvolves(w: World, w': World, k: Key, expiry: nat)
    requires FlightOk(w, k) && Tracked(w, k) && k in w.chain.oracle.rows
    requires Classified(w.chain.oracle.rows[k].status)
    requires Settles(w, w'.chain, k, expiry) && w' == On(w, w'.chain)
    ensures Evolves(w, w')
  {
    hide Total;
  }

  lemma ClosingCarriesReserve(w: World, c: Chain, k: Key, status: SettlementStatus, expiry: nat)
    requires PoolOk(w.chain.pool, w.now) && MoneyOk(w)
    requires k in w.chain.pool.configs && w.chain.pool.configs[k].status.Open?
    requires Moved(w, c, k, status, expiry, Income(w.chain.pool.configs[k], status))
    ensures ReserveCarried(w.chain.vault, c.vault) && Tokens(c.balances) == Tokens(w.chain.balances)
  {
    hide Total, Tokens;
    var cfg := w.chain.pool.configs[k];
    assert PoolKeyOk(w.chain.pool, w.now, k);
    WeightsOfBucket(w.chain.pool, w.now, k);
    BucketWithinTotals(w.chain.pool, w.now, k);
    PairConserves(w.chain.balances, c.balances, Income(cfg, status));
    if ReserveMet(w.chain.vault) {
      ReleaseKeepsReserve(w.chain.vault, c.vault, cfg.payoff * cfg.buyerCount);
    }
  }

  lemma SettlingKeeps(w: World, w': World, k: Key, expiry: nat)
    requires Inv(w) && Listed(w, k) && Tracked(w, k) && k in w.chain.oracle.rows
    requires Classified(w.chain.oracle.rows[k].status)
    requires Settles(w, w'.chain, k, expiry) && w' == On(w, w'.chain)
    ensures OnlySettles(w, w') && RowOf(w', k).status.Settled?
  {
    hide Total, Tokens, ReserveCarried;
    assert FlightOk(w, k);
    SettlingEvolves(w, w', k, expiry);
    hide Evolves;
    var cfg, status := w.chain.pool.configs[k], w.chain.oracle.rows[k].status;
    ClosingCarriesReserve(w, w'.chain.(oracle := w.chain.oracle, ctrl := w.chain.ctrl), k, ClosedAs(status), ExpiryOf(k, cfg, status, expiry));
  }

  lemma SettlesAsKeeper(w: World, w': World)
    requires OnlySettles(w, w')
    ensures KeeperKeeps(w, w') && UsersKept(w, w') && w'.chain.ctrl == w.chain.ctrl.(distributed := w'.chain.ctrl.distributed)
  {
  }

  lemma NothingSettles(w: World)
    ensures OnlySettles(w, w)
  {
    NothingKept(w);
    hide KeeperKeeps;
  }

  lemma SettleOneSettles(w: World, k: Key, expiry: nat)
    requires Inv(w) && Listed(w, k) && w.now < expiry
    ensures var r := SettleOne(w.chain, w.now, k, expiry);
            r.Ok? && Inv(On(w, r.value.0)) && OnlySettles(w, On(w, r.value.0))
            && (k in w.chain.oracle.rows && Done(w, k) ==> RowOf(On(w, r.value.0), k).status.Settled?)
  {
    hide SettleOne, OnlySettles, Inv, Settles;
    SettleOneKeeps(w, k, expiry);
    var r := SettleOne(w.chain, w.now, k, expiry).value;
    if r.1 {
      SettlingKeeps(w, On(w, r.0), k, expiry);
    } else {
      NothingSettles(w);
    }
  }

  lemma ThenKeys(w: World, w1: World, w2: World, keys: seq<Key>)
    requires keys != [] && OnlySettles(w, w1) && OnlySettles(w1, w2) && KeysSettled(w1, w2, keys[1..])
    requires keys[0] in w.chain.oracle.rows && Done(w, keys[0]) ==> RowOf(w1, keys[0]).status.Settled?
    ensures OnlySettles(w, w2) && KeysSettled(w, w2, keys)
  {
    KeeperTransitive(w, w1, w2);
    hide Evolves, Tokens, RestingKept, ReserveCarried;
    assert forall k :: k in keys <==> k == keys[0] || k in keys[1..];
    forall j ensures SettlesOrStays(w, w2, j) && (j in keys && j in w.chain.oracle.rows && Done(w, j) ==> RowOf(w2, j).status.Settled?) {
      assert SettlesOrStays(w, w1, j) && SettlesOrStays(w1, w2, j);
    }
  }

  lemma {:induction false} SettleKeysKeeps(w: World, keys: seq<Key>, expiry: nat)
    requires Inv(w) && w.now < expiry && forall k :: k in keys ==> Listed(w, k)
    ensures var r := SettleKeys(w.chain, w.now, keys, expiry);
            r.Ok? && Inv(On(w, r.value)) && OnlySettles(w, On(w, r.value)) && KeysSettled(w, On(w, r.value), keys)
    decreases |keys|
  {
    hide SettleOne, Inv, OnlySettles, KeeperKeeps;
    if keys == [] {
      NothingSettles(w);
    } else {
      SettleOneSettles(w, keys[0], expiry);
      var w1 := On(w, SettleOne(w.chain, w.now, keys[0], expiry).value.0);
      SettlesAsKeeper(w, w1);
      StillListed(w, w1, keys[1..]);
      SettleKeysKeeps(w1, keys[1..], expiry);
      ThenKeys(w, w1, On(w, SettleKeys(w.chain, w.now, keys, expiry).value), keys);
    }
  }

  lemma StillListed(w: World, w1: World, keys: seq<Key>)
    requires KeeperKeeps(w, w1) && forall k :: k in keys ==> Listed(w, k)
    ensures forall k :: k in keys ==> Listed(w1, k)
  {
  }

  lemma WindowListed(w: World, cursor: nat, limit: nat)
    ensures var keys := Window(w.chain.oracle.active, cursor, limit); forall k :: k in keys ==> Listed(w, k)
  {
  }

  lemma SettleSweepKeeps(w: World, limit: nat)
    requires Inv(w)
    ensures var r := SettleWindow(w.chain, w.now, limit);
            r.Ok? && Inv(On(w, r.value)) && KeeperKeeps(w, On(w, r.value)) && UsersKept(w, On(w, r.value))
  {
    hide Inv, OnlySettles, KeeperKeeps, VaultUsable, SettleKeys, KeysSettled, Window, NextCursor, Listed;
    InvGivesUsable(w);
    WindowListed(w, w.chain.ctrl.settleCursor, limit);
    var n, c := |w.chain.oracle.active|, w.chain.ctrl;
    if n == 0 {
      NothingKept(w);
    } else {
      var keys := Window(w.chain.oracle.active, c.settleCursor, limit);
      SettleKeysKeeps(w, keys, w.now + c.claimWindow);
      var w1 := On(w, SettleKeys(w.chain, w.now, keys, w.now + c.claimWindow).value);
      SettlesAsKeeper(w, w1);
      var next := NextCursor(c.settleCursor, limit, n);
      InvGivesUsable(w1);
      ControlFrame(w1, w1.chain.ctrl.(settleCursor := next));
      CursorKept(w1, w1.chain.ctrl.classifyCursor, next);
      KeeperTransitive(w, w1, On(w1, w1.chain.(ctrl := w1.chain.ctrl.(settleCursor := next))));
    }
  }

  // --- eviction's second call, and queue maintenance ---

  lemma EvictedSettlementKeeps(w: World, k: Key, c: Chain)
    requires Inv(w) && Controller.SettleEvictedFlight(w.chain, k) == Ok(c)
    ensures Inv(On(w, c)) && KeeperKeeps(w, On(w, c))
  {
    hide Total, Tokens, Controller.SettleEvictedFlight;
    SettleEvictedKeeps(w, k);
    SettleEvictedEffect(w, k);
    ClosingCarriesReserve(w, c, k, SettledOnTime, w.chain.pool.configs[k].claimExpiry);
    hide Inv, ReserveCarried;
  }

  lemma EntryConserves(m: Vault.Mint, r: Vault.Request, now: nat)
    requires m.tma >= 0 && Vault.EntryStep(m, r, now).Ok?
    ensures Tokens(Vault.EntryStep(m, r, now).value.balances) == Tokens(m.balances)
  {
    hide Tokens, Transfer;
    if Transfer(m.balances, VaultAddress, r.owner, r.amount).Ok? {
      TransferConserves(m.balances, VaultAddress, r.owner, r.amount);
    }
  }

  lemma {:induction false} EntriesConserve(m: Vault.Mint, q: seq<Vault.Request>, now: nat)
    requires m.tma >= 0 && Vault.PositiveAmounts(q) && Vault.MintEntries(m, q, now).Ok?
    ensures Tokens(Vault.MintEntries(m, q, now).value.balances) == Tokens(m.balances)
    decreases |q|
  {
    hide Tokens, Vault.EntryStep;
    if q != [] {
      EntryConserves(m, q[0], now);
      EntriesConserve(Vault.EntryStep(m, q[0], now).value, q[1..], now);
    }
  }

  lemma MaintenanceConserves(c: Chain, now: nat)
    requires VaultUsable(c.vault) && Controller.RunQueueMaintenance(c, now).Ok?
    ensures Tokens(Controller.RunQueueMaintenance(c, now).value.balances) == Tokens(c.balances)
  {
    hide Tokens, Vault.MintEntries, Vault.ProcessWithdrawalQueue;
    var v := c.vault;
    if !(c.oracle.pending > 0) && v.entries != [] {
      EntriesConserve(Vault.Mint(v.tma, v.supply, v.shares, c.balances, [], false), v.entries[..Vault.QueueWindow(v.entries)], now);
    }
  }

  lemma VaultStepKeeps(w: World, v: Vault.VaultState, b: Balances)
    requires Inv(w) && MoneyOk(WithVault(w, v, b))
    ensures Inv(WithVault(w, v, b))
  {
    hide Total;
    RowsUntouched(w, WithVault(w, v, b));
    SettlementHistoryFrame(w, WithVault(w, v, b));
  }

  lemma QueuesKeep(w: World, c: Chain)
    requires Inv(w) && Controller.RunQueueMaintenance(w.chain, w.now) == Ok(c)
    ensures Inv(On(w, c)) && KeeperKeeps(w, On(w, c))
  {
    hide Total, Tokens, Controller.RunQueueMaintenance;
    InvGivesUsable(w);
    MaintenanceKeeps(w);
    MaintenanceConserves(w.chain, w.now);
    assert ReserveCarried(w.chain.vault, c.vault);
    VaultStepKeeps(w, c.vault, c.balances);
    hide Inv, ReserveCarried;
    SamePlaceEvolves(w, On(w, c));
  }

  // --- every keeper call ---

  lemma KeeperOpKeeps(w: World, op: Op, w': World)
    requires Inv(w) && KeeperMoves(w, op, w')
    ensures Inv(w') && KeeperKeeps(w, w')
  {
    hide Inv, KeeperKeeps, OnlySettles, SettleOne, ClassifyOne, SettleWindow, Controller.ClassifyFlights;
    hide Controller.SettleEvictedFlight, Controller.RunQueueMaintenance;
    InvGivesUsable(w);
    match op {
      case ClassifyFlights => ClassifySweepKeeps(w);
      case ExecuteSettlements => SettleSweepKeeps(w, MAX_SETTLE_BATCH);
      case ExecuteSettlementsBounded(limit) => SettleSweepKeeps(w, Max(1, Min(limit, MAX_SETTLE_BATCH)));
      case SettleEvictedFlight(k) => EvictedSettlementKeeps(w, k, w'.chain);
      case RunQueueMaintenance => QueuesKeep(w, w'.chain);
      case ClassifyFlight(k) => ClassifyOneKeeps(w, k); ClassifyingKeeps(w, w');
      case SettleFlight(k) => SettleOneSettles(w, k, w.now + w.chain.ctrl.claimWindow); SettlesAsKeeper(w, w');
    }
  }
}
