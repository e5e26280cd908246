/** Batching is unobservable: at one ledger time, any mix of full sweeps, bounded sweeps and
    exact settlements, in any order, leaves a state that depends only on which flights
    have settled, up to the sweep cursor and the order of the pool's listing. */
module Confluence {
  import opened Results
  import opened Types
  import opened ActiveSet
  import opened Token
  import opened MapSums
  import Oracle
  import opened Controller
  import opened World
  import opened Invariant
  import opened SwapRemovals
  import opened Changes
  import opened SettleSteps
  import opened Keepers
  import opened Runs

  predicate IsSettlement(op: Op) {
    op.ExecuteSettlements? || op.ExecuteSettlementsBounded? || op.SettleFlight?
  }

  // --- the effect of settling exactly the flights of `done` ---

  function RowAfter(w: World, k: Key, done: set<Key>): FlightData
    requires k in w.chain.oracle.rows
  {
    var row := w.chain.oracle.rows[k];
    if k in done then row.(status := Settled, settledAt := w.now) else row
  }

  function BucketAfter(w: World, k: Key, done: set<Key>): FlightConfig
    requires k in w.chain.pool.configs && (k in done ==> MaySettle(w, k))
  {
    var cfg := w.chain.pool.configs[k];
    if k in done then
      var status := w.chain.oracle.rows[k].status;
      cfg.(status := ClosedAs(status), claimExpiry := ExpiryOf(k, cfg, status, w.now + w.chain.ctrl.claimWindow))
    else cfg
  }

  predicate MaySettle(w: World, k: Key) {
    k in w.chain.oracle.rows && k in w.chain.pool.configs && Classified(w.chain.oracle.rows[k].status)
  }

  ghost predicate RowsAfter(w: World, w': World, done: set<Key>) {
    && w'.chain.oracle == w.chain.oracle.(rows := w'.chain.oracle.rows, pending := w'.chain.oracle.pending)
    && w'.chain.oracle.rows.Keys == w.chain.oracle.rows.Keys
    && (forall k :: k in w.chain.oracle.rows ==> w'.chain.oracle.rows[k] == RowAfter(w, k, done))
  }

  ghost predicate BucketsAfter(w: World, w': World, done: set<Key>)
    requires forall k :: k in done ==> MaySettle(w, k)
  {
    && w'.chain.pool == w.chain.pool.(configs := w'.chain.pool.configs, active := w'.chain.pool.active)
    && w'.chain.pool.configs.Keys == w.chain.pool.configs.Keys
    && (forall k :: k in w.chain.pool.configs ==> w'.chain.pool.configs[k] == BucketAfter(w, k, done))
    && Elements(w'.chain.pool.active) == Elements(w.chain.pool.active) - done
  }

  // Tokens only move between pool and vault.
  ghost predicate TokensKept(w: World, w': World) {
    && BalanceOf(w'.chain.balances, PoolAddress) + BalanceOf(w'.chain.balances, VaultAddress)
       == BalanceOf(w.chain.balances, PoolAddress) + BalanceOf(w.chain.balances, VaultAddress)
    && (forall a: Address :: a.User? ==> BalanceOf(w'.chain.balances, a) == BalanceOf(w.chain.balances, a))
  }

  ghost predicate RestKept(w: World, w': World) {
    && w' == On(w, w'.chain) && w'.chain.gov == w.chain.gov
    && w'.chain.vault == w.chain.vault.(tma := w'.chain.vault.tma, locked := w'.chain.vault.locked)
    && w'.chain.ctrl == w.chain.ctrl.(distributed := w'.chain.ctrl.distributed, settleCursor := w'.chain.ctrl.settleCursor)
  }

  ghost predicate SettledExactly(w: World, w': World, done: set<Key>) {
    && (forall k :: k in done ==> MaySettle(w, k))
    && RowsAfter(w, w', done) && BucketsAfter(w, w', done)
    && TokensKept(w, w') && RestKept(w, w')
  }

  // Equal for every reader but the next sweep's starting point and the listing's order.
  ghost predicate SameOutcome(w1: World, w2: World) {
    && w1.now == w2.now && w1.archive == w2.archive && w1.log == w2.log
    && w1.chain.oracle == w2.chain.oracle
    && w1.chain.pool == w2.chain.pool.(active := w1.chain.pool.active)
    && multiset(w1.chain.pool.active) == multiset(w2.chain.pool.active)
    && w1.chain.vault == w2.chain.vault && w1.chain.gov == w2.chain.gov
    && (forall a :: BalanceOf(w1.chain.balances, a) == BalanceOf(w2.chain.balances, a))
    && w1.chain.ctrl == w2.chain.ctrl.(settleCursor := w1.chain.ctrl.settleCursor)
  }

  lemma SameElementsSameMultiset<T>(a: seq<T>, b: seq<T>)
    requires NoDuplicates(a) && NoDuplicates(b) && Elements(a) == Elements(b)
    ensures multiset(a) == multiset(b)
  {
    forall x ensures multiset(a)[x] == multiset(b)[x] {
      CountOnce(a, x);
      CountOnce(b, x);
      assert x in Elements(a) <==> x in Elements(b);
    }
  }

  lemma CountOnce<T>(a: seq<T>, x: T)
    requires NoDuplicates(a)
    ensures multiset(a)[x] == if x in a then 1 else 0
  {
    if a != [] {
      var n := |a| - 1;
      CountOnce(a[..n], x);
      assert a == a[..n] + [a[n]];
    }
  }

  // Rows and buckets fix the counter, the collateral, all balances and all counters.
  lemma SettledSetDetermines(w: World, w1: World, w2: World, done: set<Key>)
    requires SettledExactly(w, w1, done) && SettledExactly(w, w2, done) && Inv(w1) && Inv(w2)
    ensures SameOutcome(w1, w2)
  {
    hide Total, Coherent;
    RowsDetermined(w, w1, w2, done);
    hide CounterExact;
    assert w1.chain.pool.configs == w2.chain.pool.configs;
    SameElementsSameMultiset(w1.chain.pool.active, w2.chain.pool.active);
    MoneyDetermined(w, w1, w2);
    forall a: Address ensures BalanceOf(w1.chain.balances, a) == BalanceOf(w2.chain.balances, a) {
      assert a.User? || a.PoolAddress? || a.VaultAddress?;
    }
  }

  lemma RowsDetermined(w: World, w1: World, w2: World, done: set<Key>)
    requires RowsAfter(w, w1, done) && RowsAfter(w, w2, done) && CounterExact(w1) && CounterExact(w2)
    requires w1.archive == w2.archive
    ensures w1.chain.oracle == w2.chain.oracle
  {
    assert w1.chain.oracle.rows == w2.chain.oracle.rows;
    assert PublicFlights(w1) == PublicFlights(w2);
  }

  lemma MoneyDetermined(w: World, w1: World, w2: World)
    requires MoneyOk(w1) && MoneyOk(w2) && SalesOk(w1) && SalesOk(w2)
    requires TokensKept(w, w1) && TokensKept(w, w2) && RestKept(w, w1) && RestKept(w, w2)
    requires w1.chain.pool.configs == w2.chain.pool.configs && w1.chain.pool.recovered == w2.chain.pool.recovered
    ensures w1.chain.vault == w2.chain.vault
    ensures BalanceOf(w1.chain.balances, PoolAddress) == BalanceOf(w2.chain.balances, PoolAddress)
    ensures BalanceOf(w1.chain.balances, VaultAddress) == BalanceOf(w2.chain.balances, VaultAddress)
    ensures w1.chain.ctrl.distributed == w2.chain.ctrl.distributed
  {
    hide Total;
  }

  lemma EffectsCompose(w: World, w1: World, w2: World, done1: set<Key>, done2: set<Key>)
    requires SettledExactly(w, w1, done1) && SettledExactly(w1, w2, done2)
    ensures SettledExactly(w, w2, done1 + done2)
  {
    forall k | k in done2 ensures k !in done1 && MaySettle(w, k) {
      assert MaySettle(w1, k);
      assert w1.chain.oracle.rows[k] == RowAfter(w, k, done1);
    }
    var done := done1 + done2;
    forall k | k in w.chain.oracle.rows ensures w2.chain.oracle.rows[k] == RowAfter(w, k, done) {
      assert w1.chain.oracle.rows[k] == RowAfter(w, k, done1);
    }
    forall k | k in w.chain.pool.configs ensures w2.chain.pool.configs[k] == BucketAfter(w, k, done) {
      assert w1.chain.pool.configs[k] == BucketAfter(w, k, done1);
      assert k in done2 ==> w1.chain.oracle.rows[k] == RowAfter(w, k, done1);
    }
  }

  // --- every settlement call has such an effect ---

  lemma NothingSettled(w: World, cursor: nat)
    ensures SettledExactly(w, On(w, w.chain.(ctrl := w.chain.ctrl.(settleCursor := cursor))), {})
  {
  }

  lemma SettlesExactlyOne(w: World, w': World, k: Key)
    requires MaySettle(w, k) && PoolOk(w.chain.pool, w.now)
    requires w' == On(w, w'.chain) && Settles(w, w'.chain, k, w.now + w.chain.ctrl.claimWindow)
    ensures SettledExactly(w, w', {k})
  {
    hide Total;
    SwapRemoveElements(w.chain.pool.active, k);
  }

  lemma ClassifiedInPool(w: World, k: Key)
    requires Inv(w) && Listed(w, k) && Classified(Oracle.GetFlightData(w.chain.oracle, k).status)
    ensures k in w.chain.pool.active
  {
    hide Total;
    assert FlightOk(w, k) && PoolKeyOk(w.chain.pool, w.now, k);
  }

  function ExactOps(keys: seq<Key>): seq<Op> {
    if keys == [] then [] else [Op.SettleFlight(keys[0])] + ExactOps(keys[1..])
  }

  function LimitOf(op: Op): nat {
    if op.ExecuteSettlementsBounded? then Max(1, Min(op.limit, MAX_SETTLE_BATCH)) else MAX_SETTLE_BATCH
  }

  function WithSettleCursor(w: World, cursor: nat): World {
    On(w, w.chain.(ctrl := w.chain.ctrl.(settleCursor := cursor)))
  }

  // --- the flights a mix of calls settles, in their order ---

  ghost predicate IsMix(ops: seq<Op>) {
    forall i :: 0 <= i < |ops| ==> IsSettlement(ops[i])
  }

  // The listed flights that a call looks at.
  function Tried(w: World, op: Op): seq<Key> {
    if !IsSettlement(op) then []
    else if op.SettleFlight? then if Listed(w, op.key) then [op.key] else []
    else Window(w.chain.oracle.active, w.chain.ctrl.settleCursor, LimitOf(op))
  }

  function OneOrder(w: World, k: Key): seq<Key> {
    if Classified(Oracle.GetFlightData(w.chain.oracle, k).status) then [k] else []
  }

  function SettledInTurn(w: World, keys: seq<Key>): seq<Key>
    decreases |keys|
  {
    if keys == [] then []
    else OneOrder(w, keys[0]) + SettledInTurn(Attempt(w, Op.SettleFlight(keys[0])), keys[1..])
  }

  ghost function MixOrder(w: World, ops: seq<Op>): seq<Key>
    decreases |ops|
  {
    if ops == [] then []
    else SettledInTurn(w, Tried(w, ops[0])) + MixOrder(Attempt(w, ops[0]), ops[1..])
  }

  ghost predicate Leaves(w: World, w': World, order: seq<Key>) {
    && NoDuplicates(order) && (forall k :: k in order ==> k in w.chain.pool.active)
    && SettledExactly(w, w', Elements(order))
    && w'.chain.pool.active == RemoveAll(w.chain.pool.active, order)
  }

  lemma {:induction false} RemoveAllConcat(s: seq<Key>, p: seq<Key>, r: seq<Key>)
    ensures RemoveAll(s, p + r) == RemoveAll(RemoveAll(s, p), r)
    decreases |p|
  {
    if p == [] {
      assert p + r == r;
    } else {
      assert (p + r)[1..] == p[1..] + r;
      RemoveAllConcat(SwapRemove(s, p[0]), p[1..], r);
    }
  }

  lemma ConcatDistinct(p: seq<Key>, r: seq<Key>)
    requires NoDuplicates(p) && NoDuplicates(r) && forall k :: k in r ==> k !in p
    ensures NoDuplicates(p + r)
  {
    forall i, j | 0 <= i < j < |p + r| ensures (p + r)[i] != (p + r)[j] {
      if i < |p| <= j { assert (p + r)[j] in r; }
    }
  }

  lemma LeavesCompose(w: World, w1: World, w2: World, p: seq<Key>, r: seq<Key>)
    requires Leaves(w, w1, p) && Leaves(w1, w2, r)
    ensures Leaves(w, w2, p + r)
  {
    hide RowsAfter, TokensKept, RestKept, RemoveAll;
    EffectsCompose(w, w1, w2, Elements(p), Elements(r));
    RemoveAllConcat(w.chain.pool.active, p, r);
    assert Elements(p + r) == Elements(p) + Elements(r);
    forall k | k in r ensures k !in p && k in w.chain.pool.active {
      assert k in Elements(w1.chain.pool.active);
    }
    ConcatDistinct(p, r);
  }

  lemma NothingLeaves(w: World)
    ensures Leaves(w, w, [])
  {
    NothingSettled(w, w.chain.ctrl.settleCursor);
    assert w.chain.ctrl.(settleCursor := w.chain.ctrl.settleCursor) == w.chain.ctrl;
    assert Elements<Key>([]) == {};
  }

  // One exact settlement, as the controller's function computes it.
  ghost predicate Commits(w: World, w1: World, k: Key) {
    var r := SettleOne(w.chain, w.now, k, w.now + w.chain.ctrl.claimWindow);
    r.Ok? && w1 == On(w, r.value.0)
  }

  lemma ExactStep(w: World, k: Key)
    requires Inv(w) && Listed(w, k)
    ensures var w1 := Attempt(w, Op.SettleFlight(k));
            Commits(w, w1, k) && Inv(w1) && OnlySettles(w, w1) && Leaves(w, w1, OneOrder(w, k))
  {
    hide Inv, OnlySettles, Leaves, SettleOne, EnvironmentStep, OracleStep, BuyStep, ClaimStep, PoolStep, OwnerStep, GovStep, LpStep;
    InvGivesUsable(w);
    SettleOneSettles(w, k, w.now + w.chain.ctrl.claimWindow);
    OneLeaves(w, k, Attempt(w, Op.SettleFlight(k)));
  }

  lemma OneLeaves(w: World, k: Key, w1: World)
    requires Inv(w) && Listed(w, k) && Commits(w, w1, k)
    ensures Leaves(w, w1, OneOrder(w, k))
  {
    hide Inv, SettleOne, SettledExactly;
    InvGivesUsable(w);
    SettleOneKeeps(w, k, w.now + w.chain.ctrl.claimWindow);
    if OneOrder(w, k) == [] {
      NothingLeaves(w);
    } else {
      ClassifiedInPool(w, k);
      PoolIsOk(w);
      SettlesExactlyOne(w, w1, k);
      assert Elements([k]) == {k};
      assert [k][1..] == [];
      assert RemoveAll(w.chain.pool.active, [k]) == SwapRemove(w.chain.pool.active, k);
    }
  }

  lemma PoolIsOk(w: World)
    requires Inv(w)
    ensures PoolOk(w.chain.pool, w.now)
  {
  }

  // The controller's loop over the keys is a run of exact settlements.
  ghost predicate FoldIs(w: World, keys: seq<Key>, w': World) {
    var r := SettleKeys(w.chain, w.now, keys, w.now + w.chain.ctrl.claimWindow);
    r.Ok? && w' == On(w, r.value)
  }

  lemma {:induction false} KeysLeave(w: World, keys: seq<Key>)
    requires Inv(w) && forall k :: k in keys ==> Listed(w, k)
    ensures var w' := After(w, ExactOps(keys)); FoldIs(w, keys, w') && Leaves(w, w', SettledInTurn(w, keys))
    decreases |keys|
  {
    hide Inv, Attempt, Leaves, OnlySettles, SettleOne, OneOrder;
    if keys == [] {
      NothingLeaves(w);
    } else {
      ExactStep(w, keys[0]);
      var w1 := Attempt(w, Op.SettleFlight(keys[0]));
      SettledListed(w, w1);
      assert ExactOps(keys)[1..] == ExactOps(keys[1..]);
      KeysLeave(w1, keys[1..]);
      LeavesCompose(w, w1, After(w, ExactOps(keys)), OneOrder(w, keys[0]), SettledInTurn(w1, keys[1..]));
    }
  }

  lemma SettledListed(w: World, w1: World)
    requires OnlySettles(w, w1)
    ensures forall k :: Listed(w1, k) <==> Listed(w, k)
    ensures w1.now == w.now && w1.chain.ctrl.claimWindow == w.chain.ctrl.claimWindow
  {
    hide Tokens, Evolves, RestingKept, ReserveCarried, UnlistedKept;
  }

  // A sweep as exact settlements and a cursor move.
  function Swept(w: World, limit: nat): World {
    var a, cursor := w.chain.oracle.active, w.chain.ctrl.settleCursor;
    if a == [] then w
    else WithSettleCursor(After(w, ExactOps(Window(a, cursor, limit))), NextCursor(cursor, limit, |a|))
  }

  /** A sweep, full or bounded, is the exact settlement of each flight of its window in turn,
      and then a cursor move. */
  lemma SweepIsExactFold(w: World, op: Op)
    requires Reachable(w) && (op.ExecuteSettlements? || op.ExecuteSettlementsBounded?)
    ensures Step(w, op) == Ok(Swept(w, LimitOf(op)))
  {
    hide Reachable, Inv, Step, Swept;
    ReachableInv(w);
    SweepCommits(w, op);
  }

  lemma SweepCommits(w: World, op: Op)
    requires Inv(w) && (op.ExecuteSettlements? || op.ExecuteSettlementsBounded?)
    ensures Step(w, op) == Ok(Swept(w, LimitOf(op)))
  {
    hide Inv, VaultUsable, After, SettleKeys, ExactOps, Leaves, KeeperStep, EnvironmentStep, OracleStep, BuyStep, ClaimStep, PoolStep;
    hide OwnerStep, GovStep, LpStep;
    InvGivesUsable(w);
    KeysLeave(w, Window(w.chain.oracle.active, w.chain.ctrl.settleCursor, LimitOf(op)));
    SweepIsWindow(w.chain, w.now, op);
  }

  lemma SweepIsWindow(c: Chain, now: nat, op: Op)
    requires VaultUsable(c.vault) && (op.ExecuteSettlements? || op.ExecuteSettlementsBounded?)
    ensures KeeperStep(c, now, op) == SettleWindow(c, now, LimitOf(op))
  {
    hide VaultUsable, SettleWindow, Controller.ClassifyFlights, Controller.ClassifyFlight, Controller.SettleFlight;
    hide Controller.SettleEvictedFlight, Controller.RunQueueMaintenance;
  }

  lemma EmptyWindow(cursor: nat, limit: nat)
    ensures Window<Key>([], cursor, limit) == []
  {
  }

  lemma NoKeys(w: World)
    ensures After(w, ExactOps([])) == w
  {
    hide Attempt;
  }

  lemma CursorMoves(w: World, w1: World, order: seq<Key>, cursor: nat)
    requires Leaves(w, w1, order)
    ensures Leaves(w, WithSettleCursor(w1, cursor), order)
  {
  }

  lemma InTurnOnce(w: World, k: Key)
    ensures SettledInTurn(w, [k]) == OneOrder(w, k)
  {
    hide Attempt;
    assert [k][1..] == [];
    assert SettledInTurn(Attempt(w, Op.SettleFlight(k)), []) == [];
  }

  lemma CallLeaves(w: World, op: Op)
    requires Inv(w) && IsSettlement(op)
    ensures Inv(Attempt(w, op)) && Leaves(w, Attempt(w, op), SettledInTurn(w, Tried(w, op)))
  {
    hide Inv, Leaves, SettledInTurn, Step, Window, NoRival, RowOf, Tracked, After, ExactOps, NextCursor;
    MetIsAllowed(w, op);
    AttemptKeeps(w, op);
    if !op.SettleFlight? {
      var keys, cursor := Tried(w, op), NextCursor(w.chain.ctrl.settleCursor, LimitOf(op), |w.chain.oracle.active|);
      SweepCommits(w, op);
      WindowListed(w, w.chain.ctrl.settleCursor, LimitOf(op));
      KeysLeave(w, keys);
      NoKeys(w);
      EmptyWindow(w.chain.ctrl.settleCursor, LimitOf(op));
      CursorMoves(w, After(w, ExactOps(keys)), SettledInTurn(w, keys), cursor);
    } else if Listed(w, op.key) {
      ExactStep(w, op.key);
      InTurnOnce(w, op.key);
    } else {
      UnlistedRefused(w, op.key);
      NothingLeaves(w);
      NothingInTurn(w);
    }
  }

  lemma NothingInTurn(w: World)
    ensures SettledInTurn(w, []) == []
  {
    hide Attempt;
  }

  lemma UnlistedRefused(w: World, k: Key)
    requires !Listed(w, k)
    ensures Step(w, Op.SettleFlight(k)).Err?
  {
    hide VaultUsable, EnvironmentStep, OracleStep, BuyStep, ClaimStep, PoolStep, OwnerStep, GovStep, LpStep;
  }

  lemma {:induction false} MixLeaves(w: World, ops: seq<Op>)
    requires Inv(w) && IsMix(ops)
    ensures Inv(After(w, ops)) && Leaves(w, After(w, ops), MixOrder(w, ops))
    decreases |ops|
  {
    hide Inv, Attempt, Leaves, SettledInTurn, Tried;
    if ops == [] {
      NothingLeaves(w);
    } else {
      CallLeaves(w, ops[0]);
      MixLeaves(Attempt(w, ops[0]), ops[1..]);
      LeavesCompose(w, Attempt(w, ops[0]), After(w, ops), SettledInTurn(w, Tried(w, ops[0])),
                    MixOrder(Attempt(w, ops[0]), ops[1..]));
    }
  }

  ghost predicate SameFlightsSettled(w1: World, w2: World) {
    forall k :: k in w1.chain.oracle.rows && k in w2.chain.oracle.rows
      ==> (w1.chain.oracle.rows[k].status.Settled? <==> w2.chain.oracle.rows[k].status.Settled?)
  }

  lemma SettledSetRecovered(w: World, w1: World, w2: World, done1: set<Key>, done2: set<Key>)
    requires SettledExactly(w, w1, done1) && SettledExactly(w, w2, done2) && SameFlightsSettled(w1, w2)
    ensures done1 == done2
  {
    forall k | MaySettle(w, k) ensures k in done1 <==> k in done2 {
      assert w1.chain.oracle.rows[k] == RowAfter(w, k, done1);
      assert w2.chain.oracle.rows[k] == RowAfter(w, k, done2);
    }
  }

  /** Two ways of batching settlement that settle the same flights end in the same state. */
  lemma BatchingUnobservable(w: World, ops1: seq<Op>, ops2: seq<Op>)
    requires Reachable(w) && IsMix(ops1) && IsMix(ops2)
    requires SameFlightsSettled(After(w, ops1), After(w, ops2))
    ensures SameOutcome(After(w, ops1), After(w, ops2))
  {
    hide Reachable, Inv, After, MixOrder, SettledExactly, SameFlightsSettled;
    ReachableInv(w);
    MixLeaves(w, ops1);
    MixLeaves(w, ops2);
    var d1, d2 := Elements(MixOrder(w, ops1)), Elements(MixOrder(w, ops2));
    SettledSetRecovered(w, After(w, ops1), After(w, ops2), d1, d2);
    SettledSetDetermines(w, After(w, ops1), After(w, ops2), d1);
  }
}
