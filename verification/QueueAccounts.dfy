/** Whose money the two LP queues move: request by request at the running price, and owner
    by owner over a whole pass. */
module QueueAccounts {
  import opened Results
  import opened Types
  import opened Token
  import opened Vault
  import opened Invariant
  import opened VaultQueues

  // What is queued in the name of `a`.
  function Queued(q: seq<Request>, a: Address): int {
    if q == [] then 0 else (if q[0].owner == a then q[0].amount else 0) + Queued(q[1..], a)
  }

  lemma {:induction false} QueuedConcat(q: seq<Request>, p: seq<Request>, a: Address)
    ensures Queued(q + p, a) == Queued(q, a) + Queued(p, a)
  {
    if q == [] {
      assert q + p == p;
    } else {
      assert (q + p)[1..] == q[1..] + p;
      QueuedConcat(q[1..], p, a);
    }
  }

  lemma QueuedAppend(q: seq<Request>, r: Request, a: Address)
    ensures Queued(q + [r], a) == Queued(q, a) + (if r.owner == a then r.amount else 0)
  {
    QueuedConcat(q, [r], a);
    assert [r][1..] == [];
  }

  // `value` is `amount` at the price `num / den`, rounded down.
  predicate Floor(value: int, amount: int, num: int, den: int) {
    0 <= value && value * den <= amount * num < value * den + den
  }

  // --- withdrawals ---

  // What a pass does with one request: shares burned against a credit, or given back.
  datatype Exit = Exit(burned: int, returned: int, credited: int)

  // A request is looked at only after its delay of 6 hours and when all before it were served
  // in full. It is then served in full, unless it is worth more than the free capital: that
  // buys as many whole shares as it can, or none if they would be worth nothing.
  predicate FairExit(r: Request, x: Exit, tma: int, supply: int, free: int, open: bool, now: nat) {
    var t, s := tma + 1, supply + 1_000;
    && 0 <= x.burned && 0 <= x.returned && x.burned + x.returned <= r.amount
    && Floor(x.credited, x.burned, t, s) && x.credited <= free && (x.burned > 0 ==> x.credited > 0)
    && (x.returned > 0 ==> x.burned == 0 && Floor(0, r.amount, t, s))
    && (open && now >= r.requestedAt + 21_600 ==> InFull(r, x) || TooMuch(r.amount, x.burned, t, s, free))
    && (!open || now < r.requestedAt + 21_600 ==> x == Exit(0, 0, 0))
  }

  predicate InFull(r: Request, x: Exit) {
    x.burned == r.amount || x.returned == r.amount
  }

  predicate TooMuch(amount: int, burned: int, t: int, s: int, free: int) {
    && amount * t >= free * s + s
    && burned * t <= free * s && (burned > 0 ==> free * s < burned * t + t) && (burned == 0 ==> free * s < s + t)
  }

  // Down the queue, at the price and with the capital that the requests before left.
  predicate FairExits(q: seq<Request>, xs: seq<Exit>, tma: int, supply: int, free: int, open: bool, now: nat) {
    && |xs| == |q|
    && (q == [] ||
          (FairExit(q[0], xs[0], tma, supply, free, open, now)
           && FairExits(q[1..], xs[1..], tma - xs[0].credited, supply - xs[0].burned, free - xs[0].credited,
                        open && InFull(q[0], xs[0]), now)))
  }

  // Sums over one's own requests.
  function CreditsOf(q: seq<Request>, xs: seq<Exit>, a: Address): int
    requires |xs| == |q|
  {
    if q == [] then 0 else (if q[0].owner == a then xs[0].credited else 0) + CreditsOf(q[1..], xs[1..], a)
  }

  function BurnsOf(q: seq<Request>, xs: seq<Exit>, a: Address): int
    requires |xs| == |q|
  {
    if q == [] then 0 else (if q[0].owner == a then xs[0].burned else 0) + BurnsOf(q[1..], xs[1..], a)
  }

  function ReturnsOf(q: seq<Request>, xs: seq<Exit>, a: Address): int
    requires |xs| == |q|
  {
    if q == [] then 0 else (if q[0].owner == a then xs[0].returned else 0) + ReturnsOf(q[1..], xs[1..], a)
  }

  // One request, seen from `a`: credit, shares and queued shares move for its owner only.
  predicate ExitSeenBy(d: Drain, e: Drain, r: Request, x: Exit, a: Address) {
    var mine := r.owner == a;
    && ClaimableOf(e.claimable, a) == ClaimableOf(d.claimable, a) + (if mine then x.credited else 0)
    && (a != VaultAddress ==> SharesOf(e.shares, a) == SharesOf(d.shares, a) + (if mine then x.returned else 0))
    && Queued(e.kept, a) == Queued(d.kept, a) + (if mine then r.amount - x.burned - x.returned else 0)
  }

  lemma ToAssetsIsFloor(shares: int, tma: int, supply: nat)
    requires tma >= 0 && shares >= 0
    ensures Floor(ToAssets(shares, tma, supply), shares, tma + 1, supply + 1_000)
  {
    FloorDivision(shares * (tma + 1), supply + POW);
  }

  lemma ToSharesIsFloor(assets: int, tma: int, supply: nat)
    requires tma >= 0 && assets >= 0
    ensures Floor(ToShares(assets, tma, supply), assets, supply + 1_000, tma + 1)
  {
    FloorDivision(assets * (supply + POW), tma + 1);
  }

  // What one step of the queue does with its request.
  function ExitOf(d: Drain, r: Request, now: nat): Exit
    requires DrainOk(d)
  {
    var assets, fill := ToAssets(r.amount, d.tma, d.supply), ToShares(d.free, d.tma, d.supply);
    if d.stopped || now < r.requestedAt + LP_PRICING_DELAY then Exit(0, 0, 0)
    else if assets > d.free then
      if ToAssets(fill, d.tma, d.supply) > 0 then Exit(fill, 0, ToAssets(fill, d.tma, d.supply)) else Exit(0, 0, 0)
    else if assets == 0 then Exit(0, r.amount, 0)
    else Exit(r.amount, 0, assets)
  }

  lemma ExitIsFair(d: Drain, r: Request, now: nat)
    requires DrainOk(d) && r.amount > 0
    ensures FairExit(r, ExitOf(d, r, now), d.tma, d.supply, d.free, !d.stopped, now)
  {
    hide ToAssets, ToShares, Floor, TooMuch;
    var fill := ToShares(d.free, d.tma, d.supply);
    PartialFillFits(d.free, d.tma, d.supply, r.amount);
    ToAssetsIsFloor(r.amount, d.tma, d.supply);
    ToAssetsIsFloor(fill, d.tma, d.supply);
    NothingForNothing(d.tma, d.supply);
    if ToAssets(r.amount, d.tma, d.supply) > d.free {
      PartialIsMost(r.amount, d.tma, d.supply, d.free);
    }
  }

  lemma NothingForNothing(tma: int, supply: nat)
    requires tma >= 0
    ensures Floor(0, 0, tma + 1, supply + 1_000)
  {
  }

  lemma PartialIsMost(amount: int, tma: int, supply: nat, free: int)
    requires tma >= 0 && free >= 0 && amount > 0 && ToAssets(amount, tma, supply) > free
    ensures var fill := ToShares(free, tma, supply);
            TooMuch(amount, if ToAssets(fill, tma, supply) > 0 then fill else 0, tma + 1, supply + 1_000, free)
  {
    hide ToAssets, ToShares;
    var fill, value := ToShares(free, tma, supply), ToAssets(amount, tma, supply);
    ToSharesIsFloor(free, tma, supply);
    ToAssetsIsFloor(amount, tma, supply);
    ToAssetsIsFloor(fill, tma, supply);
    Monotone(free + 1, value, supply + 1_000);
  }

  lemma ExitTaken(d: Drain, r: Request, now: nat)
    requires DrainOk(d) && r.amount > 0 && ExitStep(d, r, now).Ok?
    ensures var e := ExitStep(d, r, now).value; var x := ExitOf(d, r, now);
            && e.tma == d.tma - x.credited && e.free == d.free - x.credited && e.supply == d.supply - x.burned
            && (e.stopped <==> d.stopped || !InFull(r, x))
            && forall a :: ExitSeenBy(d, e, r, x, a)
  {
    PartialFillFits(d.free, d.tma, d.supply, r.amount);
    var x := ExitOf(d, r, now);
    hide ToAssets, ToShares;
    forall a ensures ExitSeenBy(d, ExitStep(d, r, now).value, r, x, a) {
      QueuedAppend(d.kept, r.(amount := r.amount - x.burned), a);
      assert r.(amount := r.amount - 0) == r;
    }
  }

  // A run of requests, seen from `a`.
  predicate ExitsSeenBy(d: Drain, e: Drain, q: seq<Request>, xs: seq<Exit>, a: Address)
    requires |xs| == |q|
  {
    && ClaimableOf(e.claimable, a) == ClaimableOf(d.claimable, a) + CreditsOf(q, xs, a)
    && (a != VaultAddress ==> SharesOf(e.shares, a) == SharesOf(d.shares, a) + ReturnsOf(q, xs, a))
    && Queued(e.kept, a) == Queued(d.kept, a) + Queued(q, a) - BurnsOf(q, xs, a) - ReturnsOf(q, xs, a)
  }

  lemma {:induction false} ExitsAccounted(d: Drain, q: seq<Request>, now: nat) returns (xs: seq<Exit>)
    requires DrainOk(d) && PositiveAmounts(q) && DrainExits(d, q, now).Ok?
    ensures FairExits(q, xs, d.tma, d.supply, d.free, !d.stopped, now)
    ensures forall a :: ExitsSeenBy(d, DrainExits(d, q, now).value, q, xs, a)
    decreases |q|
  {
    if q == [] {
      xs := [];
    } else {
      hide ExitStep, FairExit, ExitOf, InFull, ExitSeenBy, ExitsSeenBy;
      assert PositiveAmounts(q[1..]);
      var x, e := ExitOf(d, q[0], now), ExitStep(d, q[0], now).value;
      ExitIsFair(d, q[0], now);
      ExitTaken(d, q[0], now);
      var rest := ExitsAccounted(e, q[1..], now);
      xs := [x] + rest;
      assert xs[1..] == rest;
      forall a ensures ExitsSeenBy(d, DrainExits(d, q, now).value, q, xs, a) {
        SeenInTurn(d, e, DrainExits(d, q, now).value, q, xs, a);
      }
    }
  }

  lemma SeenInTurn(d: Drain, e: Drain, f: Drain, q: seq<Request>, xs: seq<Exit>, a: Address)
    requires q != [] && |xs| == |q| && ExitSeenBy(d, e, q[0], xs[0], a) && ExitsSeenBy(e, f, q[1..], xs[1..], a)
    ensures ExitsSeenBy(d, f, q, xs, a)
  {
  }

  /** Over one pass of the withdrawal queue: each request of its head is served fairly at the
      running price; and for every address, what is added to its credit, taken from its queued
      shares and given back to it are the sums over its own requests. */
  lemma WithdrawalsByOwner(v: VaultState, now: nat) returns (xs: seq<Exit>)
    requires LpOk(v)
    ensures var q := v.exits[..Min(|v.exits|, 50)];
            && FairExits(q, xs, v.tma, v.supply, Max(v.tma - RequiredReserve(v.locked, v.ratio), 0), true, now)
            && var r := ProcessWithdrawalQueue(v, now, false);
               r.Ok? && forall a ::
                 && ClaimableOf(r.value.claimable, a) == ClaimableOf(v.claimable, a) + CreditsOf(q, xs, a)
                 && Queued(r.value.exits, a) == Queued(v.exits, a) - BurnsOf(q, xs, a) - ReturnsOf(q, xs, a)
                 && (a != VaultAddress ==> SharesOf(r.value.shares, a) == SharesOf(v.shares, a) + ReturnsOf(q, xs, a))
  {
    hide DrainExits, FairExit, RequiredReserve, IsRemainder;
    var n := QueueWindow(v.exits);
    var q, tail := v.exits[..n], v.exits[n..];
    HeadDrained(v, now);
    assert PositiveAmounts(q);
    xs := ExitsAccounted(StartDrain(v), q, now);
    var e := DrainExits(StartDrain(v), q, now).value;
    var r := ProcessWithdrawalQueue(v, now, false).value;
    PassWritesBack(v, e, q, tail, now);
    assert v.exits == q + tail;
    forall a ensures
      && ClaimableOf(r.claimable, a) == ClaimableOf(v.claimable, a) + CreditsOf(q, xs, a)
      && Queued(r.exits, a) == Queued(v.exits, a) - BurnsOf(q, xs, a) - ReturnsOf(q, xs, a)
      && (a != VaultAddress ==> SharesOf(r.shares, a) == SharesOf(v.shares, a) + ReturnsOf(q, xs, a))
    {
      assert ExitsSeenBy(StartDrain(v), e, q, xs, a);
      QueuedConcat(q, tail, a);
      QueuedConcat(e.kept, tail, a);
    }
  }

  lemma PassWritesBack(v: VaultState, e: Drain, q: seq<Request>, tail: seq<Request>, now: nat)
    requires LpOk(v) && q == v.exits[..QueueWindow(v.exits)] && tail == v.exits[QueueWindow(v.exits)..]
    requires DrainExits(StartDrain(v), q, now) == Ok(e)
    ensures ProcessWithdrawalQueue(v, now, false)
         == Ok(v.(tma := e.tma, supply := e.supply, shares := e.shares, claimable := e.claimable, exits := e.kept + tail))
  {
    hide RequiredReserve;
    if v.exits == [] {
      assert q == [] && e == StartDrain(v) && e.kept + tail == v.exits;
    }
  }

  // --- deposits ---

  // What a pass does with one deposit: shares minted for it, or its tokens sent back.
  datatype Entry = Entry(minted: int, refunded: int)

  // A deposit is looked at only after its delay of 6 hours and when all before it were. It then
  // becomes shares at the running price, rounded down, or goes back when it is worth none.
  predicate FairEntry(r: Request, x: Entry, tma: int, supply: int, open: bool, now: nat) {
    if !open || now < r.requestedAt + 21_600 then x == Entry(0, 0)
    else Floor(x.minted, r.amount, supply + 1_000, tma + 1) && x.refunded == if x.minted == 0 then r.amount else 0
  }

  predicate FairEntries(q: seq<Request>, xs: seq<Entry>, tma: int, supply: int, open: bool, now: nat) {
    && |xs| == |q|
    && (q == [] ||
          (FairEntry(q[0], xs[0], tma, supply, open, now)
           && FairEntries(q[1..], xs[1..], if xs[0].minted > 0 then tma + q[0].amount else tma, supply + xs[0].minted,
                          open && now >= q[0].requestedAt + 21_600, now)))
  }

  function MintsOf(q: seq<Request>, xs: seq<Entry>, a: Address): int
    requires |xs| == |q|
  {
    if q == [] then 0 else (if q[0].owner == a then xs[0].minted else 0) + MintsOf(q[1..], xs[1..], a)
  }

  function RefundsOf(q: seq<Request>, xs: seq<Entry>, a: Address): int
    requires |xs| == |q|
  {
    if q == [] then 0 else (if q[0].owner == a then xs[0].refunded else 0) + RefundsOf(q[1..], xs[1..], a)
  }

  // The amounts that leave the queue.
  function TakenOf(q: seq<Request>, xs: seq<Entry>, a: Address): int
    requires |xs| == |q|
  {
    if q == [] then 0
    else (if q[0].owner == a && xs[0] != Entry(0, 0) then q[0].amount else 0) + TakenOf(q[1..], xs[1..], a)
  }

  // What the deposits that became shares add to managed assets and to the supply.
  function AssetsIn(q: seq<Request>, xs: seq<Entry>): int
    requires |xs| == |q|
  {
    if q == [] then 0 else (if xs[0].minted > 0 then q[0].amount else 0) + AssetsIn(q[1..], xs[1..])
  }

  function SharesIn(xs: seq<Entry>): int {
    if xs == [] then 0 else xs[0].minted + SharesIn(xs[1..])
  }

  predicate EntrySeenBy(m: Mint, e: Mint, r: Request, x: Entry, a: Address) {
    var mine := r.owner == a;
    && SharesOf(e.shares, a) == SharesOf(m.shares, a) + (if mine then x.minted else 0)
    && (a != VaultAddress ==> BalanceOf(e.balances, a) == BalanceOf(m.balances, a) + (if mine then x.refunded else 0))
    && Queued(e.kept, a) == Queued(m.kept, a) + (if mine && x == Entry(0, 0) then r.amount else 0)
  }

  predicate EntriesSeenBy(m: Mint, e: Mint, q: seq<Request>, xs: seq<Entry>, a: Address)
    requires |xs| == |q|
  {
    && SharesOf(e.shares, a) == SharesOf(m.shares, a) + MintsOf(q, xs, a)
    && (a != VaultAddress ==> BalanceOf(e.balances, a) == BalanceOf(m.balances, a) + RefundsOf(q, xs, a))
    && Queued(e.kept, a) == Queued(m.kept, a) + Queued(q, a) - TakenOf(q, xs, a)
  }

  function EntryOf(m: Mint, r: Request, now: nat): Entry
    requires m.tma >= 0
  {
    var minted := ToShares(r.amount, m.tma, m.supply);
    if m.deferred || now < r.requestedAt + LP_PRICING_DELAY then Entry(0, 0)
    else if minted == 0 then Entry(0, r.amount)
    else Entry(minted, 0)
  }

  lemma EntryTaken(m: Mint, r: Request, now: nat)
    requires m.tma >= 0 && r.amount > 0 && EntryStep(m, r, now).Ok?
    ensures var e := EntryStep(m, r, now).value; var x := EntryOf(m, r, now);
            && FairEntry(r, x, m.tma, m.supply, !m.deferred, now)
            && e.tma == (if x.minted > 0 then m.tma + r.amount else m.tma) && e.supply == m.supply + x.minted
            && (e.deferred <==> m.deferred || now < r.requestedAt + 21_600)
            && forall a :: EntrySeenBy(m, e, r, x, a)
  {
    hide ToShares, Floor;
    ToSharesIsFloor(r.amount, m.tma, m.supply);
    forall a ensures EntrySeenBy(m, EntryStep(m, r, now).value, r, EntryOf(m, r, now), a) {
      QueuedAppend(m.kept, r, a);
    }
  }

  lemma EntriesInTurn(m: Mint, e: Mint, f: Mint, q: seq<Request>, xs: seq<Entry>, a: Address)
    requires q != [] && |xs| == |q| && EntrySeenBy(m, e, q[0], xs[0], a) && EntriesSeenBy(e, f, q[1..], xs[1..], a)
    ensures EntriesSeenBy(m, f, q, xs, a)
  {
  }

  lemma {:induction false} EntriesAccounted(m: Mint, q: seq<Request>, now: nat) returns (xs: seq<Entry>)
    requires m.tma >= 0 && PositiveAmounts(q) && MintEntries(m, q, now).Ok?
    ensures FairEntries(q, xs, m.tma, m.supply, !m.deferred, now)
    ensures forall a :: EntriesSeenBy(m, MintEntries(m, q, now).value, q, xs, a)
    ensures var e := MintEntries(m, q, now).value; e.tma == m.tma + AssetsIn(q, xs) && e.supply == m.supply + SharesIn(xs)
    decreases |q|
  {
    if q == [] {
      xs := [];
    } else {
      hide EntryStep, FairEntry, EntryOf, EntrySeenBy, EntriesSeenBy;
      assert PositiveAmounts(q[1..]);
      var x, e := EntryOf(m, q[0], now), EntryStep(m, q[0], now).value;
      EntryTaken(m, q[0], now);
      var rest := EntriesAccounted(e, q[1..], now);
      xs := [x] + rest;
      assert xs[1..] == rest;
      forall a ensures EntriesSeenBy(m, MintEntries(m, q, now).value, q, xs, a) {
        EntriesInTurn(m, e, MintEntries(m, q, now).value, q, xs, a);
      }
    }
  }

  function StartMint(v: VaultState, b: Balances): Mint {
    Mint(v.tma, v.supply, v.shares, b, [], false)
  }

  lemma MintWritesBack(v: VaultState, b: Balances, m: Mint, q: seq<Request>, tail: seq<Request>, now: nat)
    requires v.tma >= 0 && PositiveAmounts(v.entries) && PositiveAmounts(q)
    requires q == v.entries[..QueueWindow(v.entries)] && tail == v.entries[QueueWindow(v.entries)..]
    requires MintEntries(StartMint(v, b), q, now) == Ok(m)
    ensures ProcessDepositQueue(v, b, now, false)
         == Ok((v.(tma := m.tma, supply := m.supply, shares := m.shares, entries := m.kept + tail), m.balances))
  {
    if v.entries == [] {
      assert q == [] && m == StartMint(v, b) && m.kept + tail == v.entries;
    }
  }

  /** The same of the deposit queue: shares minted, tokens sent back and deposits taken off the
      queue are, for every address, the sums over its own requests. */
  lemma DepositsByOwner(v: VaultState, b: Balances, now: nat) returns (xs: seq<Entry>)
    requires LpOk(v) && BalanceOf(b, VaultAddress) >= v.tma + SumAmounts(v.entries)
    ensures var q := v.entries[..Min(|v.entries|, 50)];
            && FairEntries(q, xs, v.tma, v.supply, true, now)
            && var r := ProcessDepositQueue(v, b, now, false);
               r.Ok? && r.value.0.tma == v.tma + AssetsIn(q, xs) && r.value.0.supply == v.supply + SharesIn(xs)
               && forall a ::
                 && SharesOf(r.value.0.shares, a) == SharesOf(v.shares, a) + MintsOf(q, xs, a)
                 && Queued(r.value.0.entries, a) == Queued(v.entries, a) - TakenOf(q, xs, a)
                 && (a != VaultAddress ==> BalanceOf(r.value.1, a) == BalanceOf(b, a) + RefundsOf(q, xs, a))
  {
    hide MintEntries, FairEntry;
    var n := QueueWindow(v.entries);
    var q, tail := v.entries[..n], v.entries[n..];
    assert v.entries == q + tail && PositiveAmounts(q) && PositiveAmounts(tail);
    SumConcat(q, tail);
    SumNonNegative(tail);
    var start := StartMint(v, b);
    MintKeeps(start, q, now, SumAmounts(tail), BalanceOf(b, VaultAddress) - v.tma - SumAmounts(v.entries));
    xs := EntriesAccounted(start, q, now);
    var m := MintEntries(start, q, now).value;
    MintWritesBack(v, b, m, q, tail, now);
    forall a ensures
      && SharesOf(m.shares, a) == SharesOf(v.shares, a) + MintsOf(q, xs, a)
      && Queued(m.kept + tail, a) == Queued(v.entries, a) - TakenOf(q, xs, a)
      && (a != VaultAddress ==> BalanceOf(m.balances, a) == BalanceOf(b, a) + RefundsOf(q, xs, a))
    {
      assert EntriesSeenBy(start, m, q, xs, a);
      QueuedConcat(q, tail, a);
      QueuedConcat(m.kept, tail, a);
    }
  }
}
