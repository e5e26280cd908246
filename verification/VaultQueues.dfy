/** The two LP queues: processing never aborts, conserves value, never pays past the
    solvency reserve, and never lowers the share price of those who stay. */
module VaultQueues {
  import opened Results
  import opened Types
  import opened MapSums
  import opened Token
  import opened Vault
  import opened Invariant

  // (t + 1) / (s + POW), the price of a share, did not fall.
  predicate PriceNotLower(t: int, s: int, t': int, s': int) {
    (t' + 1) * (s + POW) >= (t + 1) * (s' + POW)
  }

  lemma PriceTransitive(t1: int, s1: nat, t2: int, s2: nat, t3: int, s3: nat)
    requires t1 >= 0 && t2 >= 0 && t3 >= 0
    requires PriceNotLower(t1, s1, t2, s2) && PriceNotLower(t2, s2, t3, s3)
    ensures PriceNotLower(t1, s1, t3, s3)
  {
    var a1, a2, a3, b1, b2, b3 := t1 + 1, t2 + 1, t3 + 1, s1 + POW, s2 + POW, s3 + POW;
    assert b1 * (a3 * b2) >= b1 * (a2 * b3) by { Monotone'(a2 * b3, a3 * b2, b1); }
    assert b3 * (a2 * b1) >= b3 * (a1 * b2) by { Monotone'(a1 * b2, a2 * b1, b3); }
    assert b1 * (a3 * b2) == (a3 * b1) * b2 && b1 * (a2 * b3) == b3 * (a2 * b1) && b3 * (a1 * b2) == (a1 * b3) * b2 by {
      Rearrange(b1, a3, b2);
      Rearrange(b1, a2, b3);
      Rearrange(b3, a1, b2);
    }
    CancelFactor(a1 * b3, a3 * b1, b2);
  }

  lemma Rearrange(x: int, y: int, z: int)
    ensures x * (y * z) == (y * x) * z && x * (y * z) == z * (y * x)
  {
  }

  lemma BurnPrice(t: int, s: nat, burned: int, paid: int)
    requires paid * (s + POW) <= burned * (t + 1)
    ensures PriceNotLower(t, s, t - paid, s - burned)
  {
    assert (t - paid + 1) * (s + POW) == (t + 1) * (s + POW) - paid * (s + POW);
    assert (t + 1) * (s - burned + POW) == (t + 1) * (s + POW) - burned * (t + 1);
  }

  lemma MintPrice(t: int, s: nat, minted: int, added: int)
    requires minted * (t + 1) <= added * (s + POW)
    ensures PriceNotLower(t, s, t + added, s + minted)
  {
    BurnPrice(t, s, -minted, -added);
  }

  // --- sums ---

  lemma SumConcat(a: seq<Request>, b: seq<Request>)
    ensures SumAmounts(a + b) == SumAmounts(a) + SumAmounts(b)
  {
    if a == [] {
      assert a + b == b;
    } else {
      assert (a + b)[1..] == a[1..] + b;
      SumConcat(a[1..], b);
    }
  }

  lemma SumAppend(q: seq<Request>, r: Request)
    ensures SumAmounts(q + [r]) == SumAmounts(q) + r.amount
  {
    SumConcat(q, [r]);
  }

  lemma SumWithout(q: seq<Request>, i: nat)
    requires i < |q|
    ensures SumAmounts(q[..i] + q[i + 1..]) == SumAmounts(q) - q[i].amount
  {
    SumConcat(q[..i], q[i + 1..]);
    SumConcat(q[..i], q[i..]);
    assert q == q[..i] + q[i..];
  }

  lemma SumNonNegative(q: seq<Request>)
    requires PositiveAmounts(q)
    ensures SumAmounts(q) >= 0
    ensures forall i :: 0 <= i < |q| ==> q[i].amount <= SumAmounts(q)
  {
    if q != [] {
      assert PositiveAmounts(q[1..]);
      SumNonNegative(q[1..]);
      assert forall i :: 1 <= i < |q| ==> q[i] == q[1..][i - 1];
    }
  }

  // Overwriting one holding moves the total by the difference.
  lemma TotalSet(m: map<Address, nat>, a: Address, amount: nat)
    ensures Total(m[a := amount], Id) == Total(m, Id) - SharesOf(m, a) + amount
  {
    hide Total;
    TotalPut(m, Id, a, amount);
  }

  lemma TotalMove(m: map<Address, nat>, from: Address, to: Address, amount: nat)
    requires amount <= SharesOf(m, from)
    ensures Total(MoveShares(m, from, to, amount), Id) == Total(m, Id)
  {
    hide Total;
    var s := m[from := SharesOf(m, from) - amount];
    TotalSet(m, from, SharesOf(m, from) - amount);
    TotalSet(s, to, SharesOf(s, to) + amount);
  }

  lemma ShareWithinSupply(m: map<Address, nat>, a: Address)
    ensures SharesOf(m, a) <= Total(m, Id)
  {
    TotalNonNegative(m, Id);
    if a in m {
      TotalMember(m, Id, a);
    }
  }

  // --- exits ---

  ghost predicate SharesBacked(d: Drain, rest: int) {
    && DrainOk(d) && PositiveAmounts(d.kept)
    && Total(d.shares, Id) == d.supply
    && SumAmounts(d.kept) + rest <= SharesOf(d.shares, VaultAddress)
  }

  // Value only moves between managed assets and credits; the reserve below is untouched.
  ghost predicate ExitsConserve(d: Drain, e: Drain) {
    && Total(e.claimable, Id) + e.tma == Total(d.claimable, Id) + d.tma
    && e.free - e.tma == d.free - d.tma && e.free <= d.free
  }

  lemma PayExitKeeps(d: Drain, owner: Address, burned: int, assets: int, rest: int)
    requires SharesBacked(d, rest) && rest >= burned > 0 && 0 <= assets <= d.free
    ensures var r := PayExit(d, owner, burned, assets);
            r.Ok? && SharesBacked(r.value, rest - burned) && ExitsConserve(d, r.value) && r.value.kept == d.kept
  {
    hide Total;
    SumNonNegative(d.kept);
    ShareWithinSupply(d.shares, VaultAddress);
    TotalSet(d.shares, VaultAddress, SharesOf(d.shares, VaultAddress) - burned);
    var due: nat := ClaimableOf(d.claimable, owner) + assets;
    TotalPut(d.claimable, Id, owner, due);
  }

  lemma SamePrice(t: int, s: nat)
    ensures PriceNotLower(t, s, t, s)
  {
  }

  lemma KeepOne(d: Drain, r: Request, stopped: bool, rest: int)
    requires SharesBacked(d, r.amount + rest) && r.amount > 0
    ensures SharesBacked(d.(kept := d.kept + [r], stopped := stopped), rest)
    ensures ExitsConserve(d, d.(kept := d.kept + [r], stopped := stopped))
  {
    SumAppend(d.kept, r);
  }

  lemma FloorValue(shares: int, tma: int, supply: nat)
    requires shares > 0 && tma >= 0
    ensures ToAssets(shares, tma, supply) * (supply + POW) <= shares * (tma + 1)
  {
    FloorDivision(shares * (tma + 1), supply + POW);
  }

  lemma PartialExit(d: Drain, r: Request, rest: int)
    requires SharesBacked(d, r.amount + rest) && r.amount > 0 && rest >= 0
    requires ToAssets(r.amount, d.tma, d.supply) > d.free
    requires ToShares(d.free, d.tma, d.supply) > 0
    ensures var fill := ToShares(d.free, d.tma, d.supply); var part := ToAssets(fill, d.tma, d.supply);
            && 0 < fill < r.amount && part <= d.free
            && var p := PayExit(d, r.owner, fill, part);
               p.Ok?
               && var e := p.value.(kept := d.kept + [r.(amount := r.amount - fill)], stopped := true);
                  SharesBacked(e, rest) && ExitsConserve(d, e)
  {
    hide Total;
    PartialFillFits(d.free, d.tma, d.supply, r.amount);
    var fill := ToShares(d.free, d.tma, d.supply);
    var part := ToAssets(fill, d.tma, d.supply);
    PayExitKeeps(d, r.owner, fill, part, r.amount + rest);
    SumAppend(d.kept, r.(amount := r.amount - fill));
  }

  lemma ReturnedExit(d: Drain, r: Request, rest: int)
    requires SharesBacked(d, r.amount + rest) && r.amount > 0 && rest >= 0
    ensures CanMoveShares(d, r.amount)
    ensures var e := d.(shares := MoveShares(d.shares, VaultAddress, r.owner, r.amount));
            SharesBacked(e, rest) && ExitsConserve(d, e)
  {
    SumNonNegative(d.kept);
    ShareWithinSupply(d.shares, VaultAddress);
    TotalMove(d.shares, VaultAddress, r.owner, r.amount);
  }

  lemma ExitStepKeeps(d: Drain, r: Request, now: nat, rest: int)
    requires SharesBacked(d, r.amount + rest) && r.amount > 0 && rest >= 0
    ensures var e := ExitStep(d, r, now);
            e.Ok? && SharesBacked(e.value, rest) && ExitsConserve(d, e.value)
  {
    var assets := ToAssets(r.amount, d.tma, d.supply);
    var fill := ToShares(d.free, d.tma, d.supply);
    if d.stopped || now < r.requestedAt + LP_PRICING_DELAY {
      KeepOne(d, r, true, rest);
    } else if assets > d.free {
      if fill > 0 {
        PartialExit(d, r, rest);
      }
      KeepOne(d, r, true, rest);
    } else if assets == 0 {
      ReturnedExit(d, r, rest);
    } else {
      PayExitKeeps(d, r.owner, r.amount, assets, r.amount + rest);
    }
  }

  lemma {:induction false} DrainKeeps(d: Drain, q: seq<Request>, now: nat, rest: int)
    requires PositiveAmounts(q) && rest >= 0 && SharesBacked(d, SumAmounts(q) + rest)
    ensures var e := DrainExits(d, q, now);
            e.Ok? && SharesBacked(e.value, rest) && ExitsConserve(d, e.value)
    decreases |q|
  {
    if q != [] {
      assert PositiveAmounts(q[1..]);
      SumNonNegative(q[1..]);
      ExitStepKeeps(d, q[0], now, SumAmounts(q[1..]) + rest);
      DrainKeeps(ExitStep(d, q[0], now).value, q[1..], now, rest);
    }
  }

  lemma ExitStepPrice(d: Drain, r: Request, now: nat)
    requires DrainOk(d) && r.amount > 0 && ExitStep(d, r, now).Ok?
    ensures var e := ExitStep(d, r, now).value; PriceNotLower(d.tma, d.supply, e.tma, e.supply)
  {
    var e := ExitStep(d, r, now).value;
    var fill := ToShares(d.free, d.tma, d.supply);
    SamePrice(d.tma, d.supply);
    if fill > 0 {
      FloorValue(fill, d.tma, d.supply);
      BurnPrice(d.tma, d.supply, fill, ToAssets(fill, d.tma, d.supply));
    }
    FloorValue(r.amount, d.tma, d.supply);
    BurnPrice(d.tma, d.supply, r.amount, ToAssets(r.amount, d.tma, d.supply));
    ExitStepOutcomes(d, r, now);
  }

  // Supply and managed assets after one exit: unchanged, or burned at the floor price.
  lemma ExitStepOutcomes(d: Drain, r: Request, now: nat)
    requires DrainOk(d) && ExitStep(d, r, now).Ok?
    ensures var e := ExitStep(d, r, now).value;
            var fill := ToShares(d.free, d.tma, d.supply);
            || (e.tma == d.tma && e.supply == d.supply)
            || (e.tma == d.tma - ToAssets(r.amount, d.tma, d.supply) && e.supply == d.supply - r.amount)
            || (fill > 0 && e.tma == d.tma - ToAssets(fill, d.tma, d.supply) && e.supply == d.supply - fill)
  {
  }

  lemma {:induction false} DrainPrice(d: Drain, q: seq<Request>, now: nat)
    requires DrainOk(d) && PositiveAmounts(q) && DrainExits(d, q, now).Ok?
    ensures var e := DrainExits(d, q, now).value; PriceNotLower(d.tma, d.supply, e.tma, e.supply)
    decreases |q|
  {
    if q == [] {
      SamePrice(d.tma, d.supply);
    } else {
      assert PositiveAmounts(q[1..]);
      var d1 := ExitStep(d, q[0], now).value;
      ExitStepPrice(d, q[0], now);
      DrainPrice(d1, q[1..], now);
      var e := DrainExits(d1, q[1..], now).value;
      PriceTransitive(d.tma, d.supply, d1.tma, d1.supply, e.tma, e.supply);
    }
  }

  // Service is strictly first come, first served: what stays is a suffix of the queue,
  // at most its head partially filled, and never filled down to nothing.
  ghost predicate IsRemainder(kept: seq<Request>, q: seq<Request>) {
    kept == [] ||
    (|kept| <= |q| && kept[1..] == q[|q| - |kept| + 1..]
     && var r := q[|q| - |kept|]; kept[0] == r.(amount := kept[0].amount) && 0 < kept[0].amount <= r.amount)
  }

  lemma {:induction false} StoppedKeepsAll(d: Drain, q: seq<Request>, now: nat)
    requires DrainOk(d) && d.stopped
    ensures DrainExits(d, q, now) == Ok(d.(kept := d.kept + q))
    decreases |q|
  {
    if q == [] {
      assert d.kept + q == d.kept;
    } else {
      StoppedKeepsAll(ExitStep(d, q[0], now).value, q[1..], now);
      assert d.kept + [q[0]] + q[1..] == d.kept + q;
    }
  }

  // Either the queue stops at this request, keeping all or part of it, or it is gone.
  lemma StopOrServed(d: Drain, r: Request, now: nat)
    requires DrainOk(d) && !d.stopped && r.amount > 0 && ExitStep(d, r, now).Ok?
    ensures var e := ExitStep(d, r, now).value;
            if e.stopped then
              |e.kept| == |d.kept| + 1 && e.kept[..|d.kept|] == d.kept
              && var left := e.kept[|d.kept|]; left == r.(amount := left.amount) && 0 < left.amount <= r.amount
            else e.kept == d.kept
  {
    PartialFillFits(d.free, d.tma, d.supply, r.amount);
  }

  /** Exits are served in order: a later request is never paid ahead of an earlier one. */
  lemma {:induction false} ExitsAreFifo(d: Drain, q: seq<Request>, now: nat)
    requires DrainOk(d) && d.kept == [] && !d.stopped && PositiveAmounts(q)
    requires DrainExits(d, q, now).Ok?
    ensures IsRemainder(DrainExits(d, q, now).value.kept, q)
    decreases |q|
  {
    if q != [] {
      StopOrServed(d, q[0], now);
      var d1 := ExitStep(d, q[0], now).value;
      if d1.stopped {
        StoppedKeepsAll(d1, q[1..], now);
        assert (d1.kept + q[1..])[1..] == q[1..];
      } else {
        assert PositiveAmounts(q[1..]);
        ExitsAreFifo(d1, q[1..], now);
        RemainderOfLonger(DrainExits(d1, q[1..], now).value.kept, q);
      }
    }
  }

  lemma RemainderOfLonger(kept: seq<Request>, q: seq<Request>)
    requires q != [] && IsRemainder(kept, q[1..])
    ensures IsRemainder(kept, q)
  {
    if kept != [] {
      assert q[1..][|q[1..]| - |kept| + 1..] == q[|q| - |kept| + 1..];
    }
  }

  ghost predicate LpOk(v: VaultState) {
    Sound(v) && QueuesOk(v)
  }

  lemma ConcatPositive(a: seq<Request>, b: seq<Request>)
    requires PositiveAmounts(a) && PositiveAmounts(b)
    ensures PositiveAmounts(a + b)
  {
  }

  // What the pass leaves of the head of the queue, before the untouched tail is put back.
  lemma HeadDrained(v: VaultState, now: nat)
    requires LpOk(v)
    ensures var n := QueueWindow(v.exits); var e := DrainExits(StartDrain(v), v.exits[..n], now);
            && e.Ok? && PositiveAmounts(v.exits[n..])
            && SharesBacked(e.value, SumAmounts(v.exits[n..])) && ExitsConserve(StartDrain(v), e.value)
            && IsRemainder(e.value.kept, v.exits[..n])
            && e.value.free >= 0
  {
    var n := QueueWindow(v.exits);
    var head, tail := v.exits[..n], v.exits[n..];
    assert v.exits == head + tail;
    SumConcat(head, tail);
    assert PositiveAmounts(head) && PositiveAmounts(tail);
    SumNonNegative(tail);
    DrainKeeps(StartDrain(v), head, now, SumAmounts(tail));
    ExitsAreFifo(StartDrain(v), head, now);
  }

  /** One pass of the withdrawal queue: it commits, credits exactly what leaves managed
      assets, stops at the reserve, and serves strictly in order. */
  lemma WithdrawalPass(v: VaultState, now: nat, barrier: bool)
    requires LpOk(v)
    ensures var r := ProcessWithdrawalQueue(v, now, barrier);
            && r.Ok? && LpOk(r.value)
            && r.value == v.(tma := r.value.tma, supply := r.value.supply, shares := r.value.shares,
                             claimable := r.value.claimable, exits := r.value.exits)
            && ClaimableTotal(r.value) + r.value.tma == ClaimableTotal(v) + v.tma
            && Min(v.tma, RequiredReserve(v.locked, v.ratio)) <= r.value.tma <= v.tma
            && IsRemainder(r.value.exits, v.exits)
            && (barrier ==> r.value == v)
  {
    hide Total;
    hide DrainExits;
    ReserveCoversLocked(v.locked, v.ratio);
    if barrier || v.exits == [] {
      assert v.exits != [] ==> v.exits[1..] == v.exits[|v.exits| - |v.exits| + 1..];
    } else {
      HeadDrained(v, now);
      var n := QueueWindow(v.exits);
      var e := DrainExits(StartDrain(v), v.exits[..n], now).value;
      assert v.exits == v.exits[..n] + v.exits[n..];
      TailRestored(v, e, v.exits[..n], v.exits[n..]);
    }
  }

  lemma TailRestored(v: VaultState, e: Drain, head: seq<Request>, tail: seq<Request>)
    requires LpOk(v) && PositiveAmounts(tail) && v.exits == head + tail
    requires SharesBacked(e, SumAmounts(tail)) && ExitsConserve(StartDrain(v), e) && IsRemainder(e.kept, head)
    ensures var r := v.(tma := e.tma, supply := e.supply, shares := e.shares, claimable := e.claimable, exits := e.kept + tail);
            && LpOk(r) && IsRemainder(r.exits, v.exits)
            && ClaimableTotal(r) + r.tma == ClaimableTotal(v) + v.tma
            && Min(v.tma, RequiredReserve(v.locked, v.ratio)) <= r.tma <= v.tma
  {
    hide Total;
    hide IsRemainder;
    ReserveCoversLocked(v.locked, v.ratio);
    SumConcat(e.kept, tail);
    ConcatPositive(e.kept, tail);
    RemainderOfWhole(e.kept, head, tail);
  }

  /** ... and the price of the shares that remain does not fall. */
  lemma WithdrawalPassPrice(v: VaultState, now: nat, barrier: bool)
    requires LpOk(v)
    ensures var r := ProcessWithdrawalQueue(v, now, barrier);
            r.Ok? && PriceNotLower(v.tma, v.supply, r.value.tma, r.value.supply)
  {
    SamePrice(v.tma, v.supply);
    if !barrier && v.exits != [] {
      HeadDrained(v, now);
      var head := v.exits[..QueueWindow(v.exits)];
      assert PositiveAmounts(head);
      DrainPrice(StartDrain(v), head, now);
    }
  }

  lemma RemainderOfWhole(kept: seq<Request>, head: seq<Request>, tail: seq<Request>)
    requires IsRemainder(kept, head) && PositiveAmounts(tail)
    ensures IsRemainder(kept + tail, head + tail)
  {
    var all, q := kept + tail, head + tail;
    if kept != [] {
      assert all[1..] == kept[1..] + tail;
      assert q[|q| - |all| + 1..] == head[|head| - |kept| + 1..] + tail;
    } else if tail != [] {
      assert all == tail;
      assert q[|q| - |all| + 1..] == tail[1..];
    }
  }

  // --- entries ---

  // The vault holds everything it accounts for, plus `slack`.
  ghost predicate EntriesBacked(m: Mint, rest: int, slack: int) {
    && m.tma >= 0 && PositiveAmounts(m.kept)
    && Total(m.shares, Id) == m.supply
    && BalanceOf(m.balances, VaultAddress) == m.tma + SumAmounts(m.kept) + rest + slack
  }

  ghost predicate EntriesConserve(m: Mint, e: Mint) {
    && e.tma >= m.tma
    && SharesOf(e.shares, VaultAddress) == SharesOf(m.shares, VaultAddress)
    && BalanceOf(e.balances, PoolAddress) == BalanceOf(m.balances, PoolAddress)
  }

  lemma FloorShares(assets: int, tma: int, supply: nat)
    requires assets > 0 && tma >= 0
    ensures ToShares(assets, tma, supply) * (tma + 1) <= assets * (supply + POW)
  {
    FloorDivision(assets * (supply + POW), tma + 1);
  }

  lemma MintedEntry(m: Mint, r: Request, minted: nat, rest: int, slack: int)
    requires EntriesBacked(m, r.amount + rest, slack) && r.amount > 0
    ensures var e := m.(supply := m.supply + minted, shares := m.shares[r.owner := SharesOf(m.shares, r.owner) + minted],
                        tma := m.tma + r.amount);
            EntriesBacked(e, rest, slack) && EntriesConserve(m, e)
  {
    hide Total;
    TotalSet(m.shares, r.owner, SharesOf(m.shares, r.owner) + minted);
  }

  lemma ReturnedEntry(m: Mint, r: Request, rest: int, slack: int)
    requires EntriesBacked(m, r.amount + rest, slack) && r.amount > 0 && rest >= 0 && slack >= 0
    ensures var b := Transfer(m.balances, VaultAddress, r.owner, r.amount);
            b.Ok? && EntriesBacked(m.(balances := b.value), rest, slack) && EntriesConserve(m, m.(balances := b.value))
  {
    SumNonNegative(m.kept);
  }

  lemma EntryStepKeeps(m: Mint, r: Request, now: nat, rest: int, slack: int)
    requires EntriesBacked(m, r.amount + rest, slack) && r.amount > 0 && rest >= 0 && slack >= 0
    ensures var e := EntryStep(m, r, now);
            e.Ok? && EntriesBacked(e.value, rest, slack) && EntriesConserve(m, e.value)
  {
    if m.deferred || now < r.requestedAt + LP_PRICING_DELAY {
      SumAppend(m.kept, r);
    } else {
      ReturnedEntry(m, r, rest, slack);
      MintedEntry(m, r, ToShares(r.amount, m.tma, m.supply), rest, slack);
    }
  }

  lemma {:induction false} MintKeeps(m: Mint, q: seq<Request>, now: nat, rest: int, slack: int)
    requires PositiveAmounts(q) && rest >= 0 && slack >= 0 && EntriesBacked(m, SumAmounts(q) + rest, slack)
    ensures var e := MintEntries(m, q, now);
            e.Ok? && EntriesBacked(e.value, rest, slack) && EntriesConserve(m, e.value)
    decreases |q|
  {
    if q != [] {
      assert PositiveAmounts(q[1..]);
      SumNonNegative(q[1..]);
      EntryStepKeeps(m, q[0], now, SumAmounts(q[1..]) + rest, slack);
      MintKeeps(EntryStep(m, q[0], now).value, q[1..], now, rest, slack);
    }
  }

  lemma EntryStepPrice(m: Mint, r: Request, now: nat)
    requires m.tma >= 0 && r.amount > 0 && EntryStep(m, r, now).Ok?
    ensures var e := EntryStep(m, r, now).value; PriceNotLower(m.tma, m.supply, e.tma, e.supply)
  {
    SamePrice(m.tma, m.supply);
    FloorShares(r.amount, m.tma, m.supply);
    MintPrice(m.tma, m.supply, ToShares(r.amount, m.tma, m.supply), r.amount);
    EntryStepOutcomes(m, r, now);
  }

  lemma EntryStepOutcomes(m: Mint, r: Request, now: nat)
    requires m.tma >= 0 && EntryStep(m, r, now).Ok?
    ensures var e := EntryStep(m, r, now).value;
            || (e.tma == m.tma && e.supply == m.supply)
            || (e.tma == m.tma + r.amount && e.supply == m.supply + ToShares(r.amount, m.tma, m.supply))
  {
  }

  lemma {:induction false} MintPrices(m: Mint, q: seq<Request>, now: nat)
    requires m.tma >= 0 && PositiveAmounts(q) && MintEntries(m, q, now).Ok?
    ensures var e := MintEntries(m, q, now).value; PriceNotLower(m.tma, m.supply, e.tma, e.supply)
    decreases |q|
  {
    if q == [] {
      SamePrice(m.tma, m.supply);
    } else {
      assert PositiveAmounts(q[1..]);
      var m1 := EntryStep(m, q[0], now).value;
      EntryStepPrice(m, q[0], now);
      MintPrices(m1, q[1..], now);
      var e := MintEntries(m1, q[1..], now).value;
      PriceTransitive(m.tma, m.supply, m1.tma, m1.supply, e.tma, e.supply);
    }
  }

  /** One pass of the deposit queue: it commits, every escrowed asset becomes managed or
      goes back to its owner. */
  lemma DepositPass(v: VaultState, b: Balances, now: nat, barrier: bool, slack: int)
    requires LpOk(v) && slack >= 0
    requires BalanceOf(b, VaultAddress) == v.tma + SumAmounts(v.entries) + slack
    ensures var r := ProcessDepositQueue(v, b, now, barrier);
            && r.Ok? && LpOk(r.value.0)
            && r.value.0 == v.(tma := r.value.0.tma, supply := r.value.0.supply, shares := r.value.0.shares, entries := r.value.0.entries)
            && BalanceOf(r.value.1, VaultAddress) == r.value.0.tma + SumAmounts(r.value.0.entries) + slack
            && BalanceOf(r.value.1, PoolAddress) == BalanceOf(b, PoolAddress)
            && v.tma <= r.value.0.tma
            && (barrier ==> r.value == (v, b))
  {
    if !barrier && v.entries != [] {
      var n := QueueWindow(v.entries);
      var head, tail := v.entries[..n], v.entries[n..];
      assert v.entries == head + tail;
      SumConcat(head, tail);
      assert PositiveAmounts(head) && PositiveAmounts(tail);
      SumNonNegative(tail);
      var m := Mint(v.tma, v.supply, v.shares, b, [], false);
      MintKeeps(m, head, now, SumAmounts(tail), slack);
      var e := MintEntries(m, head, now).value;
      SumConcat(e.kept, tail);
      ConcatPositive(e.kept, tail);
    }
  }

  /** ... and no entry dilutes the shares that are already there. */
  lemma DepositPassPrice(v: VaultState, b: Balances, now: nat, barrier: bool)
    requires LpOk(v) && ProcessDepositQueue(v, b, now, barrier).Ok?
    ensures var r := ProcessDepositQueue(v, b, now, barrier).value.0;
            PriceNotLower(v.tma, v.supply, r.tma, r.supply)
  {
    SamePrice(v.tma, v.supply);
    if !barrier && v.entries != [] {
      var head := v.entries[..QueueWindow(v.entries)];
      assert PositiveAmounts(head);
      MintPrices(Mint(v.tma, v.supply, v.shares, b, [], false), head, now);
    }
  }
}
