/** Pruning removes exactly the aged-out entries it inspects, although every removal
    reshuffles the list, and repeated calls find all of them. */
module Pruning {
  import opened Types
  import opened ActiveSet
  import Oracle

  type State = Oracle.OracleState

  // Settled for seven days or more.
  predicate Aged(o: State, now: nat, k: Key) {
    && k in o.rows && o.rows[k].status.Settled?
    && o.rows[k].settledAt != 0 && now >= o.rows[k].settledAt + Days(7)
  }

  lemma AgedOutIsAged(o: State, now: nat, k: Key)
    ensures Oracle.AgedOut(o, now, k) <==> Aged(o, now, k)
  {
  }

  ghost function AgedIn(o: State, now: nat, keys: seq<Key>): set<Key> {
    set k | k in keys && Aged(o, now, k)
  }

  lemma {:induction false} PruneKeysExact(o: State, now: nat, active: seq<Key>, window: seq<Key>)
    requires NoDuplicates(active)
    ensures var r := Oracle.PruneKeys(o, now, active, window);
            && NoDuplicates(r) && Elements(r) == Elements(active) - AgedIn(o, now, window)
            && |r| <= |active| && (|r| == |active| ==> r == active)
    decreases |window|
  {
    if window != [] {
      var k, rest := window[0], window[1..];
      var next := if Oracle.AgedOut(o, now, k) then SwapRemove(active, k) else active;
      SwapRemoveElements(active, k);
      AgedOutIsAged(o, now, k);
      PruneKeysExact(o, now, next, rest);
      assert AgedIn(o, now, window) == AgedIn(o, now, rest) + (if Aged(o, now, k) then {k} else {});
    }
  }

  /** One call removes the entries of its window that are settled and at least seven days
      old, and nothing else. */
  lemma PruneExact(o: State, now: nat)
    requires NoDuplicates(o.active)
    ensures var o' := Oracle.PruneSettled(o, now);
            && o' == o.(active := o'.active, pruneCursor := o'.pruneCursor)
            && NoDuplicates(o'.active)
            && Elements(o'.active) == Elements(o.active) - AgedIn(o, now, Window(o.active, o.pruneCursor, 60))
            && |o'.active| <= |o.active|
            && (|o'.active| == |o.active| ==> o'.active == o.active)
            && (|o.active| > 0 ==> o'.pruneCursor == NextCursor(o.pruneCursor, 60, |o.active|))
  {
    PruneKeysExact(o, now, o.active, Window(o.active, o.pruneCursor, MAX_PRUNE_BATCH));
  }

  function PruneRounds(o: State, now: nat, calls: nat): State {
    if calls == 0 then o else Oracle.PruneSettled(PruneRounds(o, now, calls - 1), now)
  }

  // Nothing but aged entries ever leaves, and as long as nothing leaves only the cursor moves.
  lemma {:induction false} RoundsKeep(o: State, now: nat, calls: nat)
    requires NoDuplicates(o.active)
    ensures var o' := PruneRounds(o, now, calls);
            && o' == o.(active := o'.active, pruneCursor := o'.pruneCursor)
            && NoDuplicates(o'.active) && |o'.active| <= |o.active|
            && Elements(o.active) - AgedIn(o, now, o.active) <= Elements(o'.active) <= Elements(o.active)
            && (|o'.active| == |o.active| ==>
                  o'.active == o.active
                  && (|o.active| > 0 ==> o'.pruneCursor == CursorAfter(o.pruneCursor, MAX_PRUNE_BATCH, |o.active|, calls)))
  {
    if calls > 0 {
      RoundsKeep(o, now, calls - 1);
      hide PruneRounds;
      PruneExact(PruneRounds(o, now, calls - 1), now);
      assert PruneRounds(o, now, calls) == Oracle.PruneSettled(PruneRounds(o, now, calls - 1), now) by { RoundsStep(o, now, calls); }
    }
  }

  lemma RoundsStep(o: State, now: nat, calls: nat)
    requires calls > 0
    ensures PruneRounds(o, now, calls) == Oracle.PruneSettled(PruneRounds(o, now, calls - 1), now)
  {
  }

  lemma {:induction false} RoundsCompose(o: State, now: nat, first: nat, second: nat)
    ensures PruneRounds(PruneRounds(o, now, first), now, second) == PruneRounds(o, now, first + second)
  {
    if second > 0 {
      RoundsCompose(o, now, first, second - 1);
      assert first + second - 1 == first + (second - 1);
    }
  }

  lemma {:induction false} RoundsShrink(o: State, now: nat, first: nat, second: nat)
    requires NoDuplicates(o.active) && first <= second
    ensures |PruneRounds(o, now, second).active| <= |PruneRounds(o, now, first).active|
  {
    RoundsKeep(o, now, first);
    RoundsKeep(PruneRounds(o, now, first), now, second - first);
    RoundsCompose(o, now, first, second - first);
  }

  /** If any entry has aged out, a full sweep removes one. */
  lemma FullSweepRemoves(o: State, now: nat, k: Key)
    requires NoDuplicates(o.active) && k in o.active && Aged(o, now, k)
    ensures |PruneRounds(o, now, FullSweep(|o.active|, MAX_PRUNE_BATCH)).active| < |o.active|
  {
    hide FullSweep, PruneRounds;
    var n, i := |o.active|, IndexOf(o.active, k);
    var m := FullSweep(n, MAX_PRUNE_BATCH);
    var j := SweepReaches(o.pruneCursor, MAX_PRUNE_BATCH, n, i);
    RoundsKeep(o, now, j);
    RoundsShrink(o, now, j + 1, m);
    RoundsStep(o, now, j + 1);
    var at := PruneRounds(o, now, j);
    PruneExact(at, now);
    if |at.active| == n {
      InWindow(o.active, at.pruneCursor, i);
      assert k in AgedIn(at, now, Window(at.active, at.pruneCursor, MAX_PRUNE_BATCH));
      assert k in Elements(o.active) && k !in Elements(Oracle.PruneSettled(at, now).active);
    }
  }

  lemma InWindow(a: seq<Key>, cursor: nat, i: nat)
    requires WindowStart(cursor, |a|) <= i < WindowStop(cursor, MAX_PRUNE_BATCH, |a|)
    ensures a[i] in Window(a, cursor, MAX_PRUNE_BATCH)
  {
    assert Window(a, cursor, MAX_PRUNE_BATCH)[i - WindowStart(cursor, |a|)] == a[i];
  }

  lemma FullSweepMonotone(n: nat, m: nat, batch: nat)
    requires n <= m && batch > 0
    ensures FullSweep(n, batch) <= FullSweep(m, batch)
  {
    if n > 0 {
      DivideUp(n, batch);
      DivideUp(m, batch);
      QuotientBelow(DivUp(n, batch) - 1, DivUp(m, batch), batch, n);
    }
  }

  // One full sweep of a list at most `n` long takes at least one aged entry with it.
  lemma SweepLowersCount(o: State, now: nat, n: nat)
    requires NoDuplicates(o.active) && |o.active| <= n && AgedIn(o, now, o.active) != {}
    ensures var o' := PruneRounds(o, now, FullSweep(n, MAX_PRUNE_BATCH));
            |AgedIn(o', now, o'.active)| < |AgedIn(o, now, o.active)|
  {
    hide FullSweep, PruneRounds;
    var m := FullSweep(n, MAX_PRUNE_BATCH);
    var o' := PruneRounds(o, now, m);
    var k :| k in AgedIn(o, now, o.active);
    FullSweepRemoves(o, now, k);
    FullSweepMonotone(|o.active|, n, MAX_PRUNE_BATCH);
    RoundsShrink(o, now, FullSweep(|o.active|, MAX_PRUNE_BATCH), m);
    RoundsKeep(o, now, m);
    ElementsCount(o.active);
    ElementsCount(o'.active);
    var kept, all := Elements(o'.active), Elements(o.active);
    assert kept <= all && |kept| < |all|;
    assert all - kept != {} by {
      assert all == kept + (all - kept);
    }
    var gone :| gone in all - kept;
    assert forall j :: j in o'.active ==> j in kept && j in all;
    assert gone in o.active && gone in AgedIn(o, now, o.active);
    assert AgedIn(o', now, o'.active) <= AgedIn(o, now, o.active) - {gone};
    SmallerSet(AgedIn(o', now, o'.active), AgedIn(o, now, o.active) - {gone});
  }

  lemma SmallerSet<T>(a: set<T>, b: set<T>)
    requires a <= b
    ensures |a| <= |b|
  {
    assert b == a + (b - a);
  }

  lemma {:induction false} RoundsFinish(o: State, now: nat, n: nat, aged: nat)
    requires NoDuplicates(o.active) && |o.active| <= n && |AgedIn(o, now, o.active)| <= aged
    ensures var o' := PruneRounds(o, now, aged * FullSweep(n, MAX_PRUNE_BATCH)); AgedIn(o', now, o'.active) == {}
    decreases aged
  {
    hide FullSweep, PruneRounds;
    var m := FullSweep(n, MAX_PRUNE_BATCH);
    if AgedIn(o, now, o.active) == {} {
      RoundsKeep(o, now, aged * m);
      var o' := PruneRounds(o, now, aged * m);
      assert forall k :: k in o'.active ==> k in Elements(o.active);
    } else {
      SweepLowersCount(o, now, n);
      RoundsKeep(o, now, m);
      var o1 := PruneRounds(o, now, m);
      assert AgedIn(o, now, o.active) != {} ==> |AgedIn(o, now, o.active)| > 0;
      RoundsFinish(o1, now, n, aged - 1);
      RoundsCompose(o, now, m, (aged - 1) * m);
      assert m + (aged - 1) * m == aged * m;
    }
  }

  /** At a fixed time, (number of aged entries) * (ceil(n/60) + 1) calls leave exactly the
      entries that have not aged out. */
  lemma PruneFinishes(o: State, now: nat)
    requires NoDuplicates(o.active)
    ensures var calls := |AgedIn(o, now, o.active)| * FullSweep(|o.active|, MAX_PRUNE_BATCH);
            var o' := PruneRounds(o, now, calls);
            && o' == o.(active := o'.active, pruneCursor := o'.pruneCursor)
            && NoDuplicates(o'.active)
            && Elements(o'.active) == Elements(o.active) - AgedIn(o, now, o.active)
  {
    hide FullSweep, PruneRounds;
    var aged := |AgedIn(o, now, o.active)|;
    var calls := aged * FullSweep(|o.active|, MAX_PRUNE_BATCH);
    RoundsFinish(o, now, |o.active|, aged);
    RoundsKeep(o, now, calls);
    var o' := PruneRounds(o, now, calls);
    forall k | k in Elements(o'.active) ensures k !in AgedIn(o, now, o.active) {
      assert k in AgedIn(o, now, o.active) ==> k in AgedIn(o', now, o'.active);
    }
  }
}
