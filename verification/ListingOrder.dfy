/** The order of the pool's listing is the one thing besides the sweep cursor that batching
    shows. Here it is said exactly when it does. */
module ListingOrder {
  import opened Results
  import opened Types
  import opened ActiveSet
  import opened SwapRemovals
  import opened MapSums
  import Oracle
  import opened Controller
  import opened World
  import opened Invariant
  import opened SettleSteps
  import opened Changes
  import opened Keepers
  import opened Runs
  import opened Confluence

  /** A mix of sweeps and exact settlements leaves the listing as swap-removing, one by one, the
      flights that it settles. */
  lemma MixListing(w: World, ops: seq<Op>)
    requires Reachable(w) && IsMix(ops)
    ensures After(w, ops).chain.pool.active == RemoveAll(w.chain.pool.active, MixOrder(w, ops))
    ensures NoDuplicates(MixOrder(w, ops))
    ensures forall k :: k in MixOrder(w, ops) <==>
              k in w.chain.oracle.rows && !w.chain.oracle.rows[k].status.Settled?
              && k in After(w, ops).chain.oracle.rows && After(w, ops).chain.oracle.rows[k].status.Settled?
  {
    hide Reachable, Inv, After, MixOrder, BucketsAfter, TokensKept, RestKept;
    ReachableInv(w);
    MixLeaves(w, ops);
    var order, w' := MixOrder(w, ops), After(w, ops);
    forall k ensures k in order <==> k in w.chain.oracle.rows && !w.chain.oracle.rows[k].status.Settled?
                                     && k in w'.chain.oracle.rows && w'.chain.oracle.rows[k].status.Settled?
    {
      assert k in order <==> k in Elements(order);
      if k in w.chain.oracle.rows {
        assert w'.chain.oracle.rows[k] == RowAfter(w, k, Elements(order));
      }
    }
  }

  /** Two mixes that settle the same flights leave the same listing if and only if every slot
      that they vacate and that is left has the same heir in both. */
  lemma MixesListAlikeExactly(w: World, ops1: seq<Op>, ops2: seq<Op>)
    requires Reachable(w) && IsMix(ops1) && IsMix(ops2)
    requires SameFlightsSettled(After(w, ops1), After(w, ops2))
    ensures After(w, ops1).chain.pool.active == After(w, ops2).chain.pool.active
        <==> SameHeirs(w.chain.pool.active, MixOrder(w, ops1), MixOrder(w, ops2))
  {
    hide Reachable, After, MixOrder, SettledExactly, SameFlightsSettled, SameHeirs, RemoveAll;
    ReachableInv(w);
    ListingDistinct(w);
    hide Inv;
    MixLeaves(w, ops1);
    MixLeaves(w, ops2);
    var p, r := MixOrder(w, ops1), MixOrder(w, ops2);
    SettledSetRecovered(w, After(w, ops1), After(w, ops2), Elements(p), Elements(r));
    assert forall k :: k in Elements(p) ==> k in w.chain.pool.active;
    OrdersAgreeExactly(w.chain.pool.active, p, r, Elements(p));
  }

  lemma ListingDistinct(w: World)
    requires Inv(w)
    ensures NoDuplicates(w.chain.pool.active)
  {
  }

  // --- when no mix shows ---

  ghost predicate Settleable(w: World, k: Key) {
    Listed(w, k) && MaySettle(w, k) && k in w.chain.pool.active
  }

  lemma OthersStaySettleable(w: World, k: Key)
    requires Inv(w) && Settleable(w, k)
    ensures var w1 := Attempt(w, Op.SettleFlight(k)); Inv(w1) && forall j :: j != k && Settleable(w, j) ==> Settleable(w1, j)
  {
    hide Inv, Attempt, SettleOne, OnlySettles, RemoveAll, TokensKept, RestKept;
    ExactStep(w, k);
    assert Elements([k]) == {k};
    var w1 := Attempt(w, Op.SettleFlight(k));
    forall j | j != k && Settleable(w, j) ensures Settleable(w1, j) {
      assert w1.chain.oracle.rows[j] == RowAfter(w, j, {k});
      assert j in Elements(w.chain.pool.active) && j in Elements(w1.chain.pool.active);
    }
  }

  lemma {:induction false} ExactOrder(w: World, p: seq<Key>)
    requires Inv(w) && NoDuplicates(p) && forall k :: k in p ==> Settleable(w, k)
    ensures IsMix(ExactOps(p)) && MixOrder(w, ExactOps(p)) == p
    decreases |p|
  {
    hide Inv, Attempt, NoDuplicates;
    if p != [] {
      var k := p[0];
      var w1 := Attempt(w, Op.SettleFlight(k));
      HeadApart(p);
      OthersStaySettleable(w, k);
      InTurnOnce(w, k);
      ExactOrder(w1, p[1..]);
      assert ExactOps(p)[1..] == ExactOps(p[1..]);
      assert p == [k] + p[1..];
    }
  }

  lemma HeadApart(p: seq<Key>)
    requires NoDuplicates(p) && p != []
    ensures NoDuplicates(p[1..]) && forall k :: k in p[1..] ==> k in p && k != p[0]
  {
  }

  ghost predicate SettlesJust(w: World, ops: seq<Op>, d: set<Key>) {
    IsMix(ops) && SettledExactly(w, After(w, ops), d)
  }

  lemma ExactOpsSettle(w: World, p: seq<Key>, d: set<Key>)
    requires Inv(w) && OrderOf(p, d) && forall k :: k in d ==> Settleable(w, k)
    ensures SettlesJust(w, ExactOps(p), d)
    ensures After(w, ExactOps(p)).chain.pool.active == RemoveAll(w.chain.pool.active, p)
  {
    hide Inv, After, MixOrder, SettledExactly, RemoveAll, ExactOps, Settleable;
    assert forall k :: k in p ==> k in Elements(p);
    ExactOrder(w, p);
    MixLeaves(w, ExactOps(p));
  }

  lemma OrdersShow(w: World, d: set<Key>) returns (ops1: seq<Op>, ops2: seq<Op>)
    requires Inv(w) && (forall k :: k in d ==> Settleable(w, k)) && !OneHole(w.chain.pool.active, d)
    ensures SettlesJust(w, ops1, d) && SettlesJust(w, ops2, d)
    ensures After(w, ops1).chain.pool.active != After(w, ops2).chain.pool.active
  {
    hide Inv, After, SettlesJust, RemoveAll, OneHole, NoDuplicates;
    ListingDistinct(w);
    var p, r := TwoHolesShow(w.chain.pool.active, d);
    ExactOpsSettle(w, p, d);
    ExactOpsSettle(w, r, d);
    ops1, ops2 := ExactOps(p), ExactOps(r);
  }

  /** The order of the pool's listing is the one thing that batching shows: settling two
      flights in either order leaves the same listing if and only if one of them is among the
      last two listed buckets. */
  lemma ListingOrderExactly(w: World, a: Key, b: Key)
    requires Reachable(w) && Settleable(w, a) && Settleable(w, b) && a != b
    ensures var s := w.chain.pool.active;
            After(w, [Op.SettleFlight(a), Op.SettleFlight(b)]).chain.pool.active
            == After(w, [Op.SettleFlight(b), Op.SettleFlight(a)]).chain.pool.active
            <==> Max(IndexOf(s, a), IndexOf(s, b)) >= |s| - 2
  {
    hide Reachable, Inv, After, SettlesJust, Settleable;
    ReachableInv(w);
    ListingDistinct(w);
    InActive(w, a);
    InActive(w, b);
    var s := w.chain.pool.active;
    ExactOpsSettle(w, [a, b], {a, b});
    ExactOpsSettle(w, [b, a], {a, b});
    TwoExactOps(a, b);
    TwoExactOps(b, a);
    BothRemoved(s, a, b);
    BothRemoved(s, b, a);
    var i, j := IndexOf(s, a), IndexOf(s, b);
    if i < j { SwapRemovesCommuteExactly(s, i, j); } else { SwapRemovesCommuteExactly(s, j, i); }
  }

  lemma InActive(w: World, k: Key)
    requires Settleable(w, k)
    ensures k in w.chain.pool.active
  {
  }

  lemma TwoExactOps(a: Key, b: Key)
    ensures ExactOps([a, b]) == [Op.SettleFlight(a), Op.SettleFlight(b)]
  {
    assert [a, b][1..] == [b] && [b][1..] == [];
    assert ExactOps([b]) == [Op.SettleFlight(b)] + ExactOps([]);
  }

  lemma BothRemoved(s: seq<Key>, a: Key, b: Key)
    ensures RemoveAll(s, [a, b]) == SwapRemove(SwapRemove(s, a), b)
  {
    assert [a, b][1..] == [b] && [b][1..] == [];
    assert RemoveAll(SwapRemove(SwapRemove(s, a), b), []) == SwapRemove(SwapRemove(s, a), b);
  }

  /** However the flights of a set are settled, by sweeps of any size or one by one, the listing
      comes out the same, if and only if at most one of them is listed before the last
      slots, as many as they are. */
  lemma NoMixShowsExactly(w: World, d: set<Key>)
    requires Reachable(w) && forall k :: k in d ==> Settleable(w, k)
    ensures (forall ops1, ops2 :: SettlesJust(w, ops1, d) && SettlesJust(w, ops2, d)
               ==> After(w, ops1).chain.pool.active == After(w, ops2).chain.pool.active)
        <==> OneHole(w.chain.pool.active, d)
  {
    hide Reachable, Inv, After, MixOrder, SettledExactly, Leaves, OneHole, NoDuplicates;
    ReachableInv(w);
    ListingDistinct(w);
    assert d <= Elements(w.chain.pool.active);
    if OneHole(w.chain.pool.active, d) {
      forall ops1, ops2 | SettlesJust(w, ops1, d) && SettlesJust(w, ops2, d)
        ensures After(w, ops1).chain.pool.active == After(w, ops2).chain.pool.active
      {
        MixLeaves(w, ops1);
        MixLeaves(w, ops2);
        SameListing(w, After(w, ops1), After(w, ops2), MixOrder(w, ops1), MixOrder(w, ops2), d);
      }
    } else {
      var ops1, ops2 := OrdersShow(w, d);
    }
  }

  lemma SameListing(w: World, w1: World, w2: World, p: seq<Key>, r: seq<Key>, d: set<Key>)
    requires Leaves(w, w1, p) && Leaves(w, w2, r) && SettledExactly(w, w1, d) && SettledExactly(w, w2, d)
    requires NoDuplicates(w.chain.pool.active) && d <= Elements(w.chain.pool.active) && OneHole(w.chain.pool.active, d)
    ensures w1.chain.pool.active == w2.chain.pool.active
  {
    hide RemoveAll, OneHole, SettledExactly;
    SettledSetRecovered(w, w1, w1, d, Elements(p));
    SettledSetRecovered(w, w2, w2, d, Elements(r));
    OneHoleSuffices(w.chain.pool.active, p, r, d);
  }
}
