/** Buyer approvals over whole runs: which histories leave a buyer approved. */
module ApprovalRuns {
  import opened Results
  import opened Types
  import opened ActiveSet
  import opened Token
  import opened MapSums
  import opened Approvals
  import Governance
  import Oracle
  import Pool
  import opened Controller
  import opened World
  import opened Invariant
  import opened SettleSteps
  import opened Changes
  import opened Keepers
  import opened Preservation
  import opened Runs

  datatype Kind = Added | Removed | Purchased
  datatype Event = Event(who: Address, kind: Kind, time: nat)

  function Apply(m: Deadlines, e: Event): Deadlines {
    match e.kind
    case Added => Write(m, e.time, e.who, true)
    case Removed => Write(m, e.time, e.who, false)
    case Purchased => Touch(m, e.time, e.who)
  }

  function Replay(m: Deadlines, es: seq<Event>): Deadlines {
    if es == [] then m else Apply(Replay(m, es[..|es| - 1]), es[|es| - 1])
  }

  ghost predicate Ordered(es: seq<Event>, now: nat) {
    && (forall i, j :: 0 <= i < j < |es| ==> es[i].time <= es[j].time)
    && (forall i :: 0 <= i < |es| ==> es[i].time <= now)
  }

  // An admin add of `a` followed by purchases of theirs with gaps of at most `gap`, and by
  // no removal: the indices `c` of the events, in order.
  ghost predicate Renewed(es: seq<Event>, a: Address, c: seq<nat>, gap: nat) {
    && |c| > 0 && (forall i :: 0 <= i < |c| ==> c[i] < |es| && es[c[i]].who == a)
    && es[c[0]].kind.Added? && (forall i :: 0 < i < |c| ==> es[c[i]].kind.Purchased?)
    && (forall i, j :: 0 <= i < j < |c| ==> c[i] < c[j])
    && (forall i, j :: 0 <= i && j == i + 1 && j < |c| ==> es[c[j]].time <= es[c[i]].time + gap)
    && (forall j :: c[0] < j < |es| && es[j].who == a ==> !es[j].kind.Removed?)
  }

  function LatestOf(es: seq<Event>, c: seq<nat>): nat
    requires |c| > 0 && c[|c| - 1] < |es|
  {
    es[c[|c| - 1]].time
  }

  ghost predicate RenewedUntil(es: seq<Event>, a: Address, c: seq<nat>, gap: nat, now: nat) {
    Renewed(es, a, c, gap) && now <= LatestOf(es, c) + gap
  }

  lemma {:induction false} DeadlineNotTooFar(es: seq<Event>, a: Address, now: nat)
    requires Ordered(es, now)
    ensures DeadlineOf(Replay(map[], es), a) <= now + BUYER_APPROVAL_WINDOW
    decreases |es|
  {
    if es != [] {
      var rest := es[..|es| - 1];
      DeadlineNotTooFar(rest, a, es[|es| - 1].time);
    }
  }

  // A chain of renewals in a prefix stays one when nothing removes the buyer.
  lemma RenewedLonger(rest: seq<Event>, e: Event, a: Address, c: seq<nat>, gap: nat)
    requires Renewed(rest, a, c, gap) && !(e.who == a && e.kind.Removed?)
    ensures Renewed(rest + [e], a, c, gap) && LatestOf(rest + [e], c) == LatestOf(rest, c)
  {
  }

  lemma RenewedOnce(rest: seq<Event>, e: Event, a: Address, c: seq<nat>, gap: nat)
    requires Renewed(rest, a, c, gap) && e.who == a && e.kind.Purchased? && e.time <= LatestOf(rest, c) + gap
    ensures Renewed(rest + [e], a, c + [|rest|], gap) && LatestOf(rest + [e], c + [|rest|]) == e.time
  {
    var d, es := c + [|rest|], rest + [e];
    RenewedLonger(rest, e, a, c, gap);
    forall i | 0 <= i < |c| ensures d[i] == c[i] < |rest| && es[d[i]] == rest[c[i]] {
    }
    assert d[|c|] == |rest| && es[d[|c|]] == e;
  }

  lemma AddedChain(rest: seq<Event>, e: Event, a: Address, gap: nat)
    requires e.who == a && e.kind.Added?
    ensures Renewed(rest + [e], a, [|rest|], gap) && LatestOf(rest + [e], [|rest|]) == e.time
  {
  }

  lemma EventMovesDeadline(m: Deadlines, e: Event, a: Address)
    requires e.who == a && !e.kind.Added? ==> DeadlineOf(Apply(m, e), a) > 0
    ensures e.who == a && e.kind.Added? ==> DeadlineOf(Apply(m, e), a) == e.time + BUYER_APPROVAL_WINDOW
    ensures !(e.who == a && (e.kind.Added? || IsApproved(m, e.time, a))) ==> DeadlineOf(Apply(m, e), a) == DeadlineOf(m, a)
    ensures e.who == a && !e.kind.Added? ==> e.kind.Purchased? && DeadlineOf(m, a) > 0
  {
  }

  // The deadline is carried by a chain of renewals less than 180 days apart.
  lemma {:induction false} DeadlineHasChain(es: seq<Event>, a: Address, now: nat) returns (c: seq<nat>)
    requires Ordered(es, now) && DeadlineOf(Replay(map[], es), a) > 0
    ensures Renewed(es, a, c, BUYER_APPROVAL_WINDOW - 1)
    ensures DeadlineOf(Replay(map[], es), a) <= LatestOf(es, c) + BUYER_APPROVAL_WINDOW
    decreases |es|
  {
    var n := |es| - 1;
    var rest, e := es[..n], es[n];
    var before := Replay(map[], rest);
    assert es == rest + [e] && Ordered(rest, e.time) && Ordered(es, e.time);
    assert Replay(map[], es) == Apply(before, e);
    DeadlineNotTooFar(es, a, e.time);
    EventMovesDeadline(before, e, a);
    hide Renewed, Ordered, Replay, Apply;
    if e.who == a && e.kind.Added? {
      AddedChain(rest, e, a, BUYER_APPROVAL_WINDOW - 1);
      c := [n];
    } else {
      c := DeadlineHasChain(rest, a, e.time);
      if e.who == a && IsApproved(before, e.time, a) {
        RenewedOnce(rest, e, a, c, BUYER_APPROVAL_WINDOW - 1);
        c := c + [n];
      } else {
        RenewedLonger(rest, e, a, c, BUYER_APPROVAL_WINDOW - 1);
      }
    }
  }

  const SAFE_GAP: nat := BUYER_APPROVAL_WINDOW - BUYER_APPROVAL_REFRESH_INTERVAL

  lemma ChainInPrefix(rest: seq<Event>, e: Event, a: Address, c: seq<nat>, gap: nat)
    requires Renewed(rest + [e], a, c, gap) && c[|c| - 1] < |rest|
    ensures Renewed(rest, a, c, gap) && LatestOf(rest, c) == LatestOf(rest + [e], c)
    ensures !(e.who == a && e.kind.Removed?)
  {
    var es := rest + [e];
    forall i | 0 <= i < |c| ensures c[i] < |rest| && es[c[i]] == rest[c[i]] {
      assert i < |c| - 1 ==> c[i] < c[|c| - 1];
    }
    assert forall j :: 0 <= j < |rest| ==> es[j] == rest[j];
    assert es[|rest|] == e && c[0] < |rest|;
  }

  lemma ChainWithoutLast(rest: seq<Event>, e: Event, a: Address, c: seq<nat>, gap: nat)
    requires Renewed(rest + [e], a, c, gap) && c[|c| - 1] == |rest| && |c| > 1
    ensures var d := c[..|c| - 1];
            Renewed(rest, a, d, gap) && e.time <= LatestOf(rest, d) + gap && e.who == a && e.kind.Purchased?
  {
    var es, m := rest + [e], |c| - 1;
    var d := c[..m];
    forall i | 0 <= i < m ensures d[i] == c[i] && c[i] < |rest| && es[c[i]] == rest[c[i]] {
      assert c[i] < c[m];
    }
    assert forall j :: 0 <= j < |rest| ==> es[j] == rest[j];
    assert es[c[m]].time <= es[c[m - 1]].time + gap;
  }

  lemma EventKeepsAhead(m: Deadlines, e: Event, a: Address, latest: nat)
    requires latest + SAFE_GAP < DeadlineOf(m, a) <= e.time + BUYER_APPROVAL_WINDOW
    requires !(e.who == a && e.kind.Removed?)
    ensures DeadlineOf(Apply(m, e), a) > latest + SAFE_GAP
    ensures e.who == a && e.kind.Purchased? && e.time <= latest + SAFE_GAP
        ==> DeadlineOf(Apply(m, e), a) > e.time + SAFE_GAP
  {
  }

  // A chain of renewals at most 170 days apart keeps more than 170 days ahead.
  lemma {:induction false} ChainCarriesDeadline(es: seq<Event>, a: Address, c: seq<nat>, now: nat)
    requires Ordered(es, now) && Renewed(es, a, c, SAFE_GAP)
    ensures DeadlineOf(Replay(map[], es), a) > LatestOf(es, c) + SAFE_GAP
    decreases |es|
  {
    var n, m := |es| - 1, |c| - 1;
    var rest, e := es[..n], es[n];
    assert es == rest + [e] && Ordered(rest, e.time) && c[m] <= n;
    assert m == 0 && c[m] == n ==> e.who == a && e.kind.Added?;
    DeadlineNotTooFar(rest, a, e.time);
    var before := Replay(map[], rest);
    assert Replay(map[], es) == Apply(before, e);
    hide Ordered, Replay;
    if c[m] < n {
      ChainInPrefix(rest, e, a, c, SAFE_GAP);
      hide Renewed;
      ChainCarriesDeadline(rest, a, c, e.time);
      EventKeepsAhead(before, e, a, LatestOf(rest, c));
    } else if m > 0 {
      ChainWithoutLast(rest, e, a, c, SAFE_GAP);
      assert LatestOf(es, c) == e.time;
      hide Renewed;
      ChainCarriesDeadline(rest, a, c[..m], e.time);
      EventKeepsAhead(before, e, a, LatestOf(rest, c[..m]));
    }
  }

  /** Right after a purchase at time t that the gate admitted, the stored deadline lies in
      (t + 170 days, t + 180 days], although most purchases write nothing. */
  lemma DeadlineAfterPurchase(es: seq<Event>, a: Address, now: nat)
    requires Ordered(es, now) && IsApproved(Replay(map[], es), now, a)
    ensures var d := DeadlineOf(Touch(Replay(map[], es), now, a), a);
            now + SAFE_GAP < d <= now + BUYER_APPROVAL_WINDOW
  {
    DeadlineNotTooFar(es, a, now);
  }

  // --- the events of a run ---

  function EventsOf(w: World, op: Op): seq<Event>
  {
    if Step(w, op).Err? then []
    else match op
      case AddWhitelistedBuyer(a) => [Event(a, Added, w.now)]
      case RemoveWhitelistedBuyer(a) => [Event(a, Removed, w.now)]
      case Buy(who, k, pair) => if w.chain.ctrl.gated then [Event(who, Purchased, w.now)] else []
      case _ => []
  }

  function EventsOfRun(w: World, ops: seq<Op>): seq<Event>
    decreases |ops|
  {
    if ops == [] then [] else EventsOf(w, ops[0]) + EventsOfRun(Attempt(w, ops[0]), ops[1..])
  }

  lemma BuyTouches(c: Chain, now: nat, who: Person, k: Key, pair: Governance.Pair)
    requires BuyInsurance(c, now, who, k, pair).Ok?
    ensures BuyInsurance(c, now, who, k, pair).value.ctrl.approvals
         == if c.ctrl.gated then Touch(c.ctrl.approvals, now, who) else c.ctrl.approvals
    ensures c.ctrl.gated ==> IsApproved(c.ctrl.approvals, now, who)
  {
    hide BindTerms, Pool.RegisterFlight, Pool.AddBuyer, Oracle.RegisterFlight, Transfer, CheckSaleWindow, Governance.ReadRouteStatus;
  }

  lemma ReplayOne(m: Deadlines, e: Event)
    ensures Replay(m, [e]) == Apply(m, e)
  {
    assert [e][..0] == [];
  }

  lemma StepReplays(w: World, op: Op)
    requires Inv(w)
    ensures Attempt(w, op).chain.ctrl.approvals == Replay(w.chain.ctrl.approvals, EventsOf(w, op))
    ensures Attempt(w, op).now >= w.now
    ensures |EventsOf(w, op)| <= 1 && Between(EventsOf(w, op), w.now, w.now)
  {
    hide Inv, Step, Replay, KeeperKeeps, EnvironmentMoves, AggregatorMoves, KeeperMoves, BuyMoves, ClaimMoves, UpkeepMoves;
    hide OwnerMoves, GovMoves, LpMoves;
    var w' := Attempt(w, op);
    NothingReplayed(w.chain.ctrl.approvals);
    if Step(w, op).Ok? {
      StepSorts(w, op, w');
      if IsKeeperOp(op) {
        KeeperOpKeeps(w, op, w');
        KeepersLeaveApprovals(w, w');
      } else if op.Buy? {
        BuyReplays(w, op, w');
      } else if IsOwnerOp(op) {
        OwnerReplays(w, op, w');
      } else {
        OthersLeaveApprovals(w, op, w');
      }
    }
  }

  lemma KeepersLeaveApprovals(w: World, w': World)
    requires KeeperKeeps(w, w')
    ensures w'.now == w.now && w'.chain.ctrl.approvals == w.chain.ctrl.approvals
  {
  }

  lemma OthersLeaveApprovals(w: World, op: Op, w': World)
    requires EnvironmentMoves(w, op, w') || AggregatorMoves(w, op, w') || ClaimMoves(w, op, w') || UpkeepMoves(w, op, w')
          || GovMoves(w, op, w') || LpMoves(w, op, w')
    ensures w'.now >= w.now && w'.chain.ctrl.approvals == w.chain.ctrl.approvals
  {
    hide Transfer, OracleStep, ClaimStep, PoolStep, GovStep, LpStep;
  }

  lemma BuyReplays(w: World, op: Op, w': World)
    requires BuyMoves(w, op, w') && Step(w, op).Ok?
    ensures w'.now == w.now && w'.chain.ctrl.approvals == Replay(w.chain.ctrl.approvals, EventsOf(w, op))
  {
    hide Step, BuyInsurance, Touch, Replay;
    BuyTouches(w.chain, w.now, op.who, op.key, op.pair);
    ReplayOne(w.chain.ctrl.approvals, Event(op.who, Purchased, w.now));
    NothingReplayed(w.chain.ctrl.approvals);
  }

  lemma OwnerReplays(w: World, op: Op, w': World)
    requires OwnerMoves(w, op, w') && Step(w, op).Ok?
    ensures w'.now == w.now && w'.chain.ctrl.approvals == Replay(w.chain.ctrl.approvals, EventsOf(w, op))
  {
    hide Step, Write, Replay;
    NothingReplayed(w.chain.ctrl.approvals);
    if op.AddWhitelistedBuyer? {
      ReplayOne(w.chain.ctrl.approvals, Event(op.buyer, Added, w.now));
    } else if op.RemoveWhitelistedBuyer? {
      ReplayOne(w.chain.ctrl.approvals, Event(op.buyer, Removed, w.now));
    }
  }

  lemma NothingReplayed(m: Deadlines)
    ensures Replay(m, []) == m
  {
  }

  lemma {:induction false} ReplayConcat(m: Deadlines, a: seq<Event>, b: seq<Event>)
    ensures Replay(m, a + b) == Replay(Replay(m, a), b)
    decreases |b|
  {
    if b == [] {
      assert a + b == a;
    } else {
      var n := |b| - 1;
      assert (a + b)[..|a + b| - 1] == a + b[..n];
      ReplayConcat(m, a, b[..n]);
    }
  }

  ghost predicate Between(es: seq<Event>, from: nat, to: nat) {
    forall i :: 0 <= i < |es| ==> from <= es[i].time <= to
  }

  lemma OrderedConcat(a: seq<Event>, b: seq<Event>, from: nat, mid: nat, to: nat)
    requires |a| <= 1 && Between(a, from, from) && from <= mid <= to && Ordered(b, to) && Between(b, mid, to)
    ensures Ordered(a + b, to) && Between(a + b, from, to)
  {
  }

  lemma {:induction false} RunReplays(w: World, ops: seq<Op>)
    requires Inv(w) && AllAdmissible(w, ops)
    ensures var w', es := After(w, ops), EventsOfRun(w, ops);
            && w'.chain.ctrl.approvals == Replay(w.chain.ctrl.approvals, es)
            && w.now <= w'.now && Ordered(es, w'.now) && Between(es, w.now, w'.now)
    decreases |ops|
  {
    hide Inv, Attempt, EventsOf, Allowed;
    if ops != [] {
      var w1 := Attempt(w, ops[0]);
      hide Replay, Ordered, Between;
      AttemptKeeps(w, ops[0]);
      StepReplays(w, ops[0]);
      RunReplays(w1, ops[1..]);
      ReplayConcat(w.chain.ctrl.approvals, EventsOf(w, ops[0]), EventsOfRun(w1, ops[1..]));
      OrderedConcat(EventsOf(w, ops[0]), EventsOfRun(w1, ops[1..]), w.now, w1.now, After(w, ops).now);
    }
  }

  /** A buyer approved after a run was added by an admin, never removed since, and has renewed
      by purchases of theirs that never left a gap of 180 days. */
  lemma ApprovalNeedsRenewal(w: World, ops: seq<Op>, a: Address) returns (c: seq<nat>)
    requires Initial(w) && AllAdmissible(w, ops)
    requires IsApproved(After(w, ops).chain.ctrl.approvals, After(w, ops).now, a)
    ensures RenewedUntil(EventsOfRun(w, ops), a, c, BUYER_APPROVAL_WINDOW - 1, After(w, ops).now)
  {
    hide Inv, After, EventsOfRun, AllAdmissible, Replay;
    InitialInv(w);
    RunReplays(w, ops);
    c := DeadlineHasChain(EventsOfRun(w, ops), a, After(w, ops).now);
  }

  /** Conversely, an add that no removal follows and purchases at most 170 days apart keep
      the buyer approved. */
  lemma RenewalSuffices(w: World, ops: seq<Op>, a: Address, c: seq<nat>)
    requires Initial(w) && AllAdmissible(w, ops)
    requires RenewedUntil(EventsOfRun(w, ops), a, c, SAFE_GAP, After(w, ops).now)
    ensures IsApproved(After(w, ops).chain.ctrl.approvals, After(w, ops).now, a)
  {
    hide Inv, After, EventsOfRun, AllAdmissible, Replay;
    InitialInv(w);
    RunReplays(w, ops);
    ChainCarriesDeadline(EventsOfRun(w, ops), a, c, After(w, ops).now);
  }

  /** After any run, a gated purchase leaves its buyer more than 170 and at most 180 days. */
  lemma PurchaseRenews(w: World, ops: seq<Op>, who: Person, k: Key, pair: Governance.Pair)
    requires Initial(w) && AllAdmissible(w, ops) && After(w, ops).chain.ctrl.gated
    requires BuyInsurance(After(w, ops).chain, After(w, ops).now, who, k, pair).Ok?
    ensures var now := After(w, ops).now;
            var d := DeadlineOf(BuyInsurance(After(w, ops).chain, now, who, k, pair).value.ctrl.approvals, who);
            now + SAFE_GAP < d <= now + BUYER_APPROVAL_WINDOW
  {
    hide Inv, After, EventsOfRun, AllAdmissible, Replay, BuyInsurance;
    InitialInv(w);
    RunReplays(w, ops);
    var w' := After(w, ops);
    BuyTouches(w'.chain, w'.now, who, k, pair);
    DeadlineAfterPurchase(EventsOfRun(w, ops), who, w'.now);
  }
}
