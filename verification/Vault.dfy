/** RiskVault: managed assets, locked collateral, and the two delayed LP queues. */
module Vault {
  import opened Results
  import opened Types
  import opened Token

  datatype Request = Request(id: nat, owner: Person, amount: int, requestedAt: nat)

  datatype VaultState = VaultState(
    tma: int, locked: int, ratio: nat,
    supply: nat, shares: map<Address, nat>,
    exits: seq<Request>,              // amounts are shares, escrowed by the vault
    entries: seq<Request>,            // amounts are assets, held outside managed assets
    claimable: map<Address, nat>,
    nextId: nat, minRequest: int)

  const POW: nat := 1_000             // 10 ^ decimals offset
  const LP_PRICING_DELAY: nat := 6 * 3600
  const MAX_QUEUE_BATCH: nat := 50
  const MAX_WITHDRAWAL_QUEUE_LEN: nat := 150
  const MAX_DEPOSIT_QUEUE_LEN: nat := 100
  const MAX_ACTIVE_REQUESTS_PER_ADDRESS: nat := 20
  const MIN_REQUEST_FLOOR_DIVISOR: nat := 2500
  const MIN_REQUEST_FLOOR_CAP_ABS: nat := 10_000_000

  // ceil(locked * ratio / 100); callers hold locked >= 0.
  function RequiredReserve(locked: int, ratio: nat): int
    requires locked >= 0
  {
    (locked * ratio + 99) / 100
  }

  function IncreaseLocked(v: VaultState, amount: int): Result<VaultState> {
    var _ :- Need(amount > 0, AmountMustBePositive);
    var _ :- Need(v.locked + amount <= v.tma, WouldExceedTotalManagedAssets);
    Ok(v.(locked := v.locked + amount))
  }

  function DecreaseLocked(v: VaultState, amount: int): Result<VaultState> {
    var _ :- Need(amount > 0, AmountMustBePositive);
    var _ :- Need(amount <= v.locked, WouldGoNegative);
    Ok(v.(locked := v.locked - amount))
  }

  function SetSolvencyRatio(v: VaultState, ratio: nat): Result<VaultState> {
    var _ :- Need(MIN_SOLVENCY_RATIO <= ratio <= MAX_SOLVENCY_RATIO, SolvencyRatioOutOfBounds);
    Ok(v.(ratio := ratio))
  }

  // Assets escrowed by the deposit queue, or shares escrowed by the exit queue.
  function SumAmounts(q: seq<Request>): int {
    if q == [] then 0 else q[0].amount + SumAmounts(q[1..])
  }

  // The premium must already have arrived, over and above entrants' escrow.
  function RecordPremiumIncome(v: VaultState, b: Balances, amount: int): Result<VaultState> {
    var _ :- Need(amount > 0, AmountMustBePositive);
    var _ :- Need(v.tma + amount <= BalanceOf(b, VaultAddress) - SumAmounts(v.entries), PremiumNotReceived);
    Ok(v.(tma := v.tma + amount))
  }

  function SendPayout(v: VaultState, b: Balances, to: Address, amount: int): Result<(VaultState, Balances)> {
    var _ :- Need(amount > 0, AmountMustBePositive);
    var _ :- Need(amount <= v.tma, InsufficientManagedAssets);
    var b' :- Transfer(b, VaultAddress, to, amount);
    Ok((v.(tma := v.tma - amount), b'))
  }

  // --- share pricing on managed assets, rounded down ---

  function ToAssets(shares: int, tma: int, supply: nat): (assets: int)
    requires tma >= 0
    ensures assets >= 0
  {
    if shares <= 0 then 0 else shares * (tma + 1) / (supply + POW)
  }

  function ToShares(assets: int, tma: int, supply: nat): (shares: int)
    requires tma >= 0
    ensures shares >= 0
  {
    if assets <= 0 then 0 else assets * (supply + POW) / (tma + 1)
  }

  function WithdrawableCapital(v: VaultState): int
    requires v.locked >= 0
  {
    Max(v.tma - RequiredReserve(v.locked, v.ratio), 0)
  }

  function SharesOf(v: map<Address, nat>, a: Address): nat {
    if a in v then v[a] else 0
  }

  function ClaimableOf(c: map<Address, nat>, a: Address): nat {
    if a in c then c[a] else 0
  }

  // --- withdrawal queue: price matured requests in order, up to the free capital ---

  datatype Drain = Drain(
    tma: int, supply: nat, shares: map<Address, nat>, free: int,
    claimable: map<Address, nat>, kept: seq<Request>, stopped: bool)

  predicate DrainOk(d: Drain) {
    0 <= d.free <= d.tma
  }

  function Credit(c: map<Address, nat>, a: Address, amount: nat): map<Address, nat> {
    c[a := ClaimableOf(c, a) + amount]
  }

  predicate CanMoveShares(d: Drain, amount: int) {
    0 <= amount <= SharesOf(d.shares, VaultAddress) && amount <= d.supply
  }

  // Burns `burned` escrowed shares of the head request and credits their value.
  function PayExit(d: Drain, owner: Address, burned: int, assets: int): (r: Result<Drain>)
    requires DrainOk(d) && 0 <= assets <= d.free
    ensures r.Ok? ==> DrainOk(r.value)
  {
    var _ :- Need(CanMoveShares(d, burned), InsufficientShares);
    Ok(d.(shares := d.shares[VaultAddress := SharesOf(d.shares, VaultAddress) - burned],
          supply := d.supply - burned,
          claimable := Credit(d.claimable, owner, assets),
          free := d.free - assets,
          tma := d.tma - assets))
  }

  // floor(floor(free * S / T) * T / S) <= free, and it takes fewer shares than
  // any request worth more than `free`.
  lemma PartialFillFits(free: int, tma: int, supply: nat, requested: int)
    requires 0 <= free && 0 <= tma
    ensures var fill := ToShares(free, tma, supply);
            0 <= fill && 0 <= ToAssets(fill, tma, supply) <= free
            && (ToAssets(requested, tma, supply) > free ==> fill < requested)
  {
    var t, s := tma + 1, supply + POW;
    var fill := ToShares(free, tma, supply);
    FloorDivision(free * s, t);
    assert fill >= 0 && fill * t <= free * s by {
      if free > 0 { assert free * s >= 0; } else { assert fill == 0; }
    }
    FloorDivision(fill * t, s);
    CancelFactor(ToAssets(fill, tma, supply), free, s);
    if ToAssets(requested, tma, supply) > free {
      FloorDivision(requested * t, s);
      assert requested * t >= (free + 1) * s by { Monotone(free + 1, requested * t / s, s); }
      assert (free + 1) * s == free * s + s;
      CancelStrict(fill, requested, t);
    }
  }

  lemma FloorDivision(a: int, b: int)
    requires b > 0
    ensures a / b * b <= a < a / b * b + b
    ensures a >= 0 ==> a / b >= 0
  {
  }

  lemma Monotone(a: int, b: int, c: int)
    requires a <= b && c > 0
    ensures a * c <= b * c
  {
  }

  lemma CancelFactor(a: int, b: int, c: int)
    requires c > 0 && a * c <= b * c
    ensures a <= b
  {
    if a > b { Monotone(b + 1, a, c); }
  }

  lemma CancelStrict(a: int, b: int, c: int)
    requires c > 0 && a * c < b * c
    ensures a < b
  {
    if a >= b { Monotone(b, a, c); }
  }

  function ExitStep(d: Drain, r: Request, now: nat): (res: Result<Drain>)
    requires DrainOk(d)
    ensures res.Ok? ==> DrainOk(res.value)
  {
    if d.stopped || now < r.requestedAt + LP_PRICING_DELAY then
      Ok(d.(kept := d.kept + [r], stopped := true))
    else
      var assets := ToAssets(r.amount, d.tma, d.supply);
      PartialFillFits(d.free, d.tma, d.supply, r.amount);
      if assets > d.free then
        var fill := ToShares(d.free, d.tma, d.supply);
        var part := ToAssets(fill, d.tma, d.supply);
        if fill > 0 && part > 0 then
          var paid :- PayExit(d, r.owner, fill, part);
          Ok(paid.(kept := d.kept + [r.(amount := r.amount - fill)], stopped := true))
        else
          Ok(d.(kept := d.kept + [r], stopped := true))
      else if assets == 0 then
        // decayed to nothing: the shares go back and the request is dropped
        var _ :- Need(0 <= r.amount <= SharesOf(d.shares, VaultAddress), InsufficientShares);
        Ok(d.(shares := MoveShares(d.shares, VaultAddress, r.owner, r.amount)))
      else
        PayExit(d, r.owner, r.amount, assets)
  }

  function DrainExits(d: Drain, q: seq<Request>, now: nat): (res: Result<Drain>)
    requires DrainOk(d)
    ensures res.Ok? ==> DrainOk(res.value)
    decreases |q|
  {
    if q == [] then Ok(d)
    else
      var d' :- ExitStep(d, q[0], now);
      DrainExits(d', q[1..], now)
  }

  predicate Sound(v: VaultState) {
    0 <= v.locked <= v.tma && MIN_SOLVENCY_RATIO <= v.ratio
  }

  function StartDrain(v: VaultState): (d: Drain)
    requires Sound(v)
    ensures DrainOk(d)
  {
    ReserveCoversLocked(v.locked, v.ratio);
    Drain(v.tma, v.supply, v.shares, WithdrawableCapital(v), v.claimable, [], false)
  }

  // At a ratio of at least 100 percent the reserve is at least the liability.
  lemma ReserveCoversLocked(locked: int, ratio: nat)
    requires locked >= 0 && ratio >= MIN_SOLVENCY_RATIO
    ensures RequiredReserve(locked, ratio) >= locked
  {
    Monotone'(100, ratio, locked);
  }

  lemma Monotone'(a: int, b: int, c: int)
    requires a <= b && c >= 0
    ensures c * a <= c * b
  {
  }

  function QueueWindow(q: seq<Request>): nat {
    Min(|q|, MAX_QUEUE_BATCH)
  }

  // While an outcome is public but unsettled nothing is priced.
  function ProcessWithdrawalQueue(v: VaultState, now: nat, settlementPending: bool): Result<VaultState>
    requires Sound(v)
  {
    if settlementPending || v.exits == [] then Ok(v)
    else
      var n := QueueWindow(v.exits);
      var d :- DrainExits(StartDrain(v), v.exits[..n], now);
      Ok(v.(tma := d.tma, supply := d.supply, shares := d.shares, claimable := d.claimable,
            exits := d.kept + v.exits[n..]))
  }

  // --- deposit queue: mint matured entries at the running price ---

  datatype Mint = Mint(
    tma: int, supply: nat, shares: map<Address, nat>, balances: Balances,
    kept: seq<Request>, deferred: bool)

  function EntryStep(m: Mint, r: Request, now: nat): (res: Result<Mint>)
    requires m.tma >= 0
    ensures res.Ok? && r.amount >= 0 ==> res.value.tma >= m.tma
  {
    if m.deferred || now < r.requestedAt + LP_PRICING_DELAY then
      Ok(m.(kept := m.kept + [r], deferred := true))
    else
      var minted := ToShares(r.amount, m.tma, m.supply);
      if minted == 0 then
        var b :- Transfer(m.balances, VaultAddress, r.owner, r.amount);
        Ok(m.(balances := b))
      else
        Ok(m.(supply := m.supply + minted,
              shares := m.shares[r.owner := SharesOf(m.shares, r.owner) + minted],
              tma := m.tma + r.amount))
  }

  predicate PositiveAmounts(q: seq<Request>) {
    forall i :: 0 <= i < |q| ==> q[i].amount > 0
  }

  function MintEntries(m: Mint, q: seq<Request>, now: nat): (res: Result<Mint>)
    requires m.tma >= 0 && PositiveAmounts(q)
    ensures res.Ok? ==> res.value.tma >= m.tma
    decreases |q|
  {
    if q == [] then Ok(m)
    else
      var m' :- EntryStep(m, q[0], now);
      MintEntries(m', q[1..], now)
  }

  function ProcessDepositQueue(v: VaultState, b: Balances, now: nat, settlementPending: bool): (res: Result<(VaultState, Balances)>)
    requires v.tma >= 0 && PositiveAmounts(v.entries)
    ensures res.Ok? ==> v.tma <= res.value.0.tma && res.value.0.locked == v.locked && res.value.0.ratio == v.ratio
  {
    if settlementPending || v.entries == [] then Ok((v, b))
    else
      var n := QueueWindow(v.entries);
      var m :- MintEntries(Mint(v.tma, v.supply, v.shares, b, [], false), v.entries[..n], now);
      Ok((v.(tma := m.tma, supply := m.supply, shares := m.shares, entries := m.kept + v.entries[n..]), m.balances))
  }

  // --- LP requests ---

  function EffectiveRequestMinimum(v: VaultState, length: nat, cap: nat): int
    requires cap > 0
  {
    var floorCap := RequestFloorCap(v);
    Max(Min(v.minRequest, floorCap), floorCap * length / cap)
  }

  // What the minimum rises to as the queue fills up.
  function RequestFloorCap(v: VaultState): int {
    Max(v.tma / MIN_REQUEST_FLOOR_DIVISOR, MIN_REQUEST_FLOOR_CAP_ABS)
  }

  /** The request minimum lies between the clamped configured value and the cap, and a full
      queue asks for the whole cap. */
  lemma RequestMinimumBounds(v: VaultState, length: nat, cap: nat)
    requires cap > 0
    ensures var m, top := EffectiveRequestMinimum(v, length, cap), RequestFloorCap(v);
            m >= Min(v.minRequest, top) && (length <= cap ==> m <= top) && (length == cap ==> m == top)
  {
    var top := RequestFloorCap(v);
    FloorDivision(top * length, cap);
    if length <= cap {
      Monotone'(length, cap, top);
      if top * length / cap > top {
        Monotone(top + 1, top * length / cap, cap);
      }
    }
    if length == cap && top * length / cap < top {
      Monotone(top * length / cap + 1, top, cap);
    }
  }

  /** A longer queue never lowers it. */
  lemma RequestMinimumRises(v: VaultState, length: nat, longer: nat, cap: nat)
    requires cap > 0 && length <= longer
    ensures EffectiveRequestMinimum(v, length, cap) <= EffectiveRequestMinimum(v, longer, cap)
  {
    var top := RequestFloorCap(v);
    Monotone'(length, longer, top);
    FloorDivision(top * length, cap);
    FloorDivision(top * longer, cap);
    if top * longer / cap < top * length / cap {
      Monotone(top * longer / cap + 1, top * length / cap, cap);
    }
  }

  function CountOwned(q: seq<Request>, owner: Person): nat {
    if q == [] then 0 else (if q[0].owner == owner then 1 else 0) + CountOwned(q[1..], owner)
  }

  function RequestDeposit(v: VaultState, b: Balances, now: nat, who: Person, assets: int): Result<(VaultState, Balances)>
    requires v.tma >= 0
  {
    var _ :- Need(assets > 0, AmountMustBePositive);
    var _ :- Need(ToShares(assets, v.tma, v.supply) != 0, AssetsConvertToZeroShares);
    var _ :- Need(|v.entries| < MAX_DEPOSIT_QUEUE_LEN, DepositQueueFull);
    var _ :- Need(assets >= EffectiveRequestMinimum(v, |v.entries|, MAX_DEPOSIT_QUEUE_LEN), RequestBelowMinimum);
    var _ :- Need(CountOwned(v.entries, who) < MAX_ACTIVE_REQUESTS_PER_ADDRESS, TooManyActiveRequests);
    var b' :- Transfer(b, who, VaultAddress, assets);
    Ok((v.(entries := v.entries + [Request(v.nextId, who, assets, now)], nextId := v.nextId + 1), b'))
  }

  function RequestWithdrawal(v: VaultState, now: nat, who: Person, amount: int): Result<VaultState>
    requires v.tma >= 0
  {
    var _ :- Need(amount > 0, SharesMustBePositive);
    var preview := ToAssets(amount, v.tma, v.supply);
    var _ :- Need(preview > 0, SharesRedeemToZeroAssets);
    var _ :- Need(|v.exits| < MAX_WITHDRAWAL_QUEUE_LEN, WithdrawalQueueFull);
    var _ :- Need(preview >= EffectiveRequestMinimum(v, |v.exits|, MAX_WITHDRAWAL_QUEUE_LEN), RequestBelowMinimum);
    var _ :- Need(CountOwned(v.exits, who) < MAX_ACTIVE_REQUESTS_PER_ADDRESS, TooManyActiveRequests);
    var _ :- Need(amount <= SharesOf(v.shares, who), InsufficientShares);
    Ok(v.(shares := MoveShares(v.shares, who, VaultAddress, amount),
          exits := v.exits + [Request(v.nextId, who, amount, now)], nextId := v.nextId + 1))
  }

  function MoveShares(shares: map<Address, nat>, from: Address, to: Address, amount: nat): map<Address, nat>
    requires amount <= SharesOf(shares, from)
  {
    var s := shares[from := SharesOf(shares, from) - amount];
    s[to := SharesOf(s, to) + amount]
  }

  // Position of the request with this id, or the queue's length.
  function FindRequest(q: seq<Request>, id: nat): (i: nat)
    ensures i <= |q| && (i < |q| ==> q[i].id == id)
  {
    if q == [] || q[0].id == id then 0 else 1 + FindRequest(q[1..], id)
  }

  function CancelDeposit(v: VaultState, b: Balances, who: Person, id: nat): Result<(VaultState, Balances)> {
    var i := FindRequest(v.entries, id);
    var _ :- Need(i < |v.entries|, RequestNotFound);
    var _ :- Need(v.entries[i].owner == who, NotYourRequest);
    var b' :- Transfer(b, VaultAddress, who, v.entries[i].amount);
    Ok((v.(entries := v.entries[..i] + v.entries[i + 1..]), b'))
  }

  function CancelWithdrawal(v: VaultState, who: Person, id: nat): Result<VaultState> {
    var i := FindRequest(v.exits, id);
    var _ :- Need(i < |v.exits|, RequestNotFound);
    var _ :- Need(v.exits[i].owner == who, NotYourRequest);
    var _ :- Need(0 <= v.exits[i].amount <= SharesOf(v.shares, VaultAddress), InsufficientShares);
    Ok(v.(shares := MoveShares(v.shares, VaultAddress, who, v.exits[i].amount),
          exits := v.exits[..i] + v.exits[i + 1..]))
  }

  function Collect(v: VaultState, b: Balances, who: Person): Result<(VaultState, Balances)> {
    var a: Address := who;
    var due := ClaimableOf(v.claimable, a);
    var _ :- Need(due > 0, NothingToCollect);
    var b' :- Transfer(b, VaultAddress, who, due);
    Ok((v.(claimable := v.claimable - {a}), b'))
  }
}
