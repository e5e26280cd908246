/** RiskVault as a contract: the money methods the controller calls, the two queues, and
    the underwriters' requests. */
module VaultContract {
  import opened Results
  import opened Types
  import opened TokenContract
  import Token
  import opened Vault

  class RiskVault {
    var tma: int
    var locked: int
    var ratio: nat
    var supply: nat
    var shares: map<Address, nat>
    var exits: seq<Request>
    var entries: seq<Request>
    var claimable: map<Address, nat>
    var nextId: nat
    var minRequest: int
    const token: AssetToken

    ghost function State(): VaultState reads this {
      VaultState(tma, locked, ratio, supply, shares, exits, entries, claimable, nextId, minRequest)
    }

    constructor (token: AssetToken, minRequest: int)
      ensures this.token == token
      ensures State() == VaultState(0, 0, 100, 0, map[], [], [], map[], 0, minRequest)
    {
      tma, locked, ratio, supply, shares := 0, 0, 100, 0, map[];
      exits, entries, claimable, nextId := [], [], map[], 0;
      this.minRequest := minRequest;
      this.token := token;
    }

    // --- the controller's money methods ---

    method IncreaseLocked(amount: int) returns (r: Result<()>)
      modifies this
      ensures Agrees(r, Vault.IncreaseLocked(old(State()), amount), State())
    {
      if amount <= 0 { return Err(AmountMustBePositive); }
      if locked + amount > tma { return Err(WouldExceedTotalManagedAssets); }
      locked := locked + amount;
      r := Ok(());
    }

    method DecreaseLocked(amount: int) returns (r: Result<()>)
      modifies this
      ensures Agrees(r, Vault.DecreaseLocked(old(State()), amount), State())
    {
      if amount <= 0 { return Err(AmountMustBePositive); }
      if amount > locked { return Err(WouldGoNegative); }
      locked := locked - amount;
      r := Ok(());
    }

    method SetSolvencyRatio(newRatio: nat) returns (r: Result<()>)
      modifies this
      ensures Agrees(r, Vault.SetSolvencyRatio(old(State()), newRatio), State())
    {
      if newRatio < MIN_SOLVENCY_RATIO || newRatio > MAX_SOLVENCY_RATIO { return Err(SolvencyRatioOutOfBounds); }
      ratio := newRatio;
      r := Ok(());
    }

    method SumEscrowedDeposits() returns (sum: int)
      ensures sum == SumAmounts(entries)
    {
      sum := 0;
      var i := 0;
      while i < |entries|
        invariant i <= |entries|
        invariant SumAmounts(entries) == sum + SumAmounts(entries[i..])
      {
        assert entries[i..][0] == entries[i] && entries[i..][1..] == entries[i + 1..];
        sum := sum + entries[i].amount;
        i := i + 1;
      }
    }

    method RecordPremiumIncome(amount: int) returns (r: Result<()>)
      modifies this
      ensures Agrees(r, Vault.RecordPremiumIncome(old(State()), token.balances, amount), State())
    {
      if amount <= 0 { return Err(AmountMustBePositive); }
      var newTma := tma + amount;
      var balance := token.Balance(VaultAddress);
      var escrowed := SumEscrowedDeposits();
      if balance - escrowed < newTma { return Err(PremiumNotReceived); }
      tma := newTma;
      r := Ok(());
    }

    method SendPayout(to: Address, amount: int) returns (r: Result<()>)
      modifies this, token
      ensures Agrees(r, Vault.SendPayout(old(State()), old(token.balances), to, amount), (State(), token.balances))
    {
      if amount <= 0 { return Err(AmountMustBePositive); }
      if amount > tma { return Err(InsufficientManagedAssets); }
      tma := tma - amount;
      r := token.Transfer(VaultAddress, to, amount);
    }

    // --- shares and credits ---

    method UpdateShares(from: Option<Address>, to: Option<Address>, amount: int) returns (ok: bool)
      modifies this`shares, this`supply
      ensures from.Some? && to.None? ==> ok == (0 <= amount <= SharesOf(old(shares), from.value) && amount <= old(supply))
      ensures from.Some? && to.None? && ok ==>
        shares == old(shares)[from.value := SharesOf(old(shares), from.value) - amount] && supply == old(supply) - amount
      ensures from.Some? && to.Some? ==> ok == (0 <= amount <= SharesOf(old(shares), from.value))
      ensures from.Some? && to.Some? && ok ==>
        shares == MoveShares(old(shares), from.value, to.value, amount) && supply == old(supply)
      ensures from.None? && to.Some? && amount >= 0 ==>
        ok && shares == old(shares)[to.value := SharesOf(old(shares), to.value) + amount] && supply == old(supply) + amount
    {
      if amount < 0 { return false; }
      if from.Some? {
        var held := SharesOf(shares, from.value);
        if held < amount { return false; }
        shares := shares[from.value := held - amount];
      } else {
        supply := supply + amount;
      }
      if to.Some? {
        shares := shares[to.value := SharesOf(shares, to.value) + amount];
      } else {
        if supply < amount { return false; }
        supply := supply - amount;
      }
      ok := true;
    }

    method CreditOwner(owner: Address, assets: nat)
      modifies this`claimable
      ensures claimable == Credit(old(claimable), owner, assets)
    {
      var before := if owner in claimable then claimable[owner] else 0;
      claimable := claimable[owner := before + assets];
    }

    method WithdrawableCapital() returns (free: int)
      requires locked >= 0
      ensures free == Vault.WithdrawableCapital(State())
      ensures free >= 0 && (free > 0 <==> tma > RequiredReserve(locked, ratio))
      ensures free > 0 ==> tma - free == RequiredReserve(locked, ratio)
    {
      var required := RequiredReserve(locked, ratio);
      free := Max(tma - required, 0);
    }

    // --- the withdrawal queue ---

    ghost function DrainState(assets': int, free: int, kept: seq<Request>, stopped: bool): Drain
      reads this
    {
      Drain(assets', supply, shares, free, claimable, kept, stopped)
    }

    // Prices one matured request: served in full, or deferred with what is left of it.
    method ServeExit(request: Request, now: nat, assets': int, free: int, ghost d: Drain) returns (r: Result<Served>)
      requires DrainOk(d) && d == DrainState(assets', free, d.kept, false)
      requires now >= request.requestedAt + LP_PRICING_DELAY
      modifies this`shares, this`supply, this`claimable
      ensures match ExitStep(d, request, now)
              case Err(e) => r == Err(e)
              case Ok(e) => r.Ok? && var paid := r.value.paid;
                match r.value
                case InFull(_) => e == DrainState(assets' - paid, free - paid, d.kept, false)
                case Deferred(left, _) =>
                  e == DrainState(assets' - paid, free - paid, d.kept + [left], true)
                  && (paid <= 0 ==> paid == 0 && left == request
                                    && shares == old(shares) && supply == old(supply) && claimable == old(claimable))
    {
      var assets := ToAssets(request.amount, assets', supply);
      if assets > free {
        PartialFillFits(free, assets', supply, request.amount);
        var fill := ToShares(free, assets', supply);
        var part := ToAssets(fill, assets', supply);
        if fill > 0 && part > 0 {
          var ok := UpdateShares(Some(VaultAddress), None, fill);
          if !ok { return Err(InsufficientShares); }
          CreditOwner(request.owner, part);
          return Ok(Deferred(request.(amount := request.amount - fill), part));
        }
        return Ok(Deferred(request, 0));
      }
      if assets == 0 {
        var ok := UpdateShares(Some(VaultAddress), Some(request.owner), request.amount);
        if !ok { return Err(InsufficientShares); }
        return Ok(InFull(0));
      }
      var ok := UpdateShares(Some(VaultAddress), None, request.amount);
      if !ok { return Err(InsufficientShares); }
      CreditOwner(request.owner, assets);
      r := Ok(InFull(assets));
    }

    // The loop over the head of the queue.
    method ServeExits(now: nat, head: seq<Request>, free: int) returns (r: Result<Batch>)
      requires DrainOk(DrainState(tma, free, [], false))
      modifies this`shares, this`supply, this`claimable
      ensures match DrainExits(old(DrainState(tma, free, [], false)), head, now)
              case Err(e) => r == Err(e)
              case Ok(e) => r.Ok? && var x := r.value;
                e == DrainState(x.assets, e.free, x.kept, e.stopped)
                && (!x.touched ==> x.kept == head && x.assets == tma
                                   && shares == old(shares) && supply == old(supply) && claimable == old(claimable))
    {
      hide ExitStep;
      var assets', left := tma, free;
      var kept: seq<Request>, hitCapacity, touched := [], false, false;
      ghost var start := DrainState(tma, free, [], false);
      var i := 0;
      while i < |head|
        invariant i <= |head| && DrainOk(DrainState(assets', left, kept, hitCapacity))
        invariant DrainExits(start, head, now) == DrainExits(DrainState(assets', left, kept, hitCapacity), head[i..], now)
        invariant !touched ==> kept == head[..i] && assets' == tma
                               && shares == old(shares) && supply == old(supply) && claimable == old(claimable)
      {
        var request := head[i];
        ghost var d := DrainState(assets', left, kept, hitCapacity);
        assert head[i..][0] == request && head[i..][1..] == head[i + 1..];
        if hitCapacity || now < request.requestedAt + LP_PRICING_DELAY {
          kept := kept + [request];
          hitCapacity := true;
          KeptInPlace(d, request, now);
        } else {
          var served :- ServeExit(request, now, assets', left, d);
          assets', left := assets' - served.paid, left - served.paid;
          if served.Deferred? {
            kept := kept + [served.left];
            hitCapacity := true;
          }
          touched := touched || served.InFull? || served.paid > 0;
        }
        i := i + 1;
      }
      assert head[i..] == [] && head[..i] == head;
      r := Ok(Batch(kept, assets', touched));
    }

    method ProcessWithdrawalQueue(now: nat, settlementPending: bool) returns (r: Result<()>)
      requires Sound(State())
      modifies this
      ensures Agrees(r, Vault.ProcessWithdrawalQueue(old(State()), now, settlementPending), State())
    {
      hide DrainExits;
      if settlementPending { return Ok(()); }
      var queue := exits;
      if queue == [] { return Ok(()); }
      var free := WithdrawableCapital();
      var limit: nat := Min(|queue|, MAX_QUEUE_BATCH);
      assert StartDrain(State()) == DrainState(tma, free, [], false);
      var batch :- ServeExits(now, queue[..limit], free);
      assert queue == queue[..limit] + queue[limit..];
      if batch.touched {
        tma := batch.assets;
        exits := batch.kept + queue[limit..];
      }
      r := Ok(());
    }

    // --- the deposit queue ---

    ghost function MintState(assets': int, kept: seq<Request>, deferred: bool): Mint
      reads this, token
    {
      Mint(assets', supply, shares, token.balances, kept, deferred)
    }

    // Prices one matured entry: too small to mint goes back, otherwise its assets join.
    method ServeEntry(request: Request, now: nat, assets': int, ghost m: Mint) returns (r: Result<int>)
      requires assets' >= 0 && m == MintState(assets', m.kept, false) && request.amount > 0
      requires now >= request.requestedAt + LP_PRICING_DELAY
      modifies this`shares, this`supply, token
      ensures match EntryStep(m, request, now)
              case Err(e) => r == Err(e)
              case Ok(e) => r.Ok? && r.value >= 0 && e == MintState(assets' + r.value, m.kept, false)
    {
      var minted := ToShares(request.amount, assets', supply);
      if minted == 0 {
        var _ :- token.Transfer(VaultAddress, request.owner, request.amount);
        return Ok(0);
      }
      var _ := UpdateShares(None, Some(request.owner), minted);
      r := Ok(request.amount);
    }

    method ServeEntries(now: nat, head: seq<Request>) returns (r: Result<Batch>)
      requires tma >= 0 && PositiveAmounts(head)
      modifies this`shares, this`supply, token
      ensures match MintEntries(old(MintState(tma, [], false)), head, now)
              case Err(e) => r == Err(e)
              case Ok(e) => r.Ok? && var x := r.value;
                e == MintState(x.assets, x.kept, e.deferred)
                && (!x.touched ==> x.kept == head && x.assets == tma
                                   && shares == old(shares) && supply == old(supply) && token.balances == old(token.balances))
    {
      hide EntryStep;
      var assets' := tma;
      var kept: seq<Request>, changed, deferred := [], false, false;
      ghost var start := MintState(tma, [], false);
      var i := 0;
      while i < |head|
        invariant i <= |head| && assets' >= 0
        invariant MintEntries(start, head, now) == MintEntries(MintState(assets', kept, deferred), head[i..], now)
        invariant !changed ==> kept == head[..i] && assets' == tma
                               && shares == old(shares) && supply == old(supply) && token.balances == old(token.balances)
      {
        var request := head[i];
        ghost var m := MintState(assets', kept, deferred);
        assert head[i..][0] == request && head[i..][1..] == head[i + 1..];
        if deferred || now < request.requestedAt + LP_PRICING_DELAY {
          kept := kept + [request];
          deferred := true;
          EntryKeptInPlace(m, request, now);
        } else {
          var joined :- ServeEntry(request, now, assets', m);
          assets' := assets' + joined;
          changed := true;
        }
        i := i + 1;
      }
      assert head[i..] == [] && head[..i] == head;
      r := Ok(Batch(kept, assets', changed));
    }

    method ProcessDepositQueue(now: nat, settlementPending: bool) returns (r: Result<()>)
      requires tma >= 0 && PositiveAmounts(entries)
      modifies this, token
      ensures Agrees(r, Vault.ProcessDepositQueue(old(State()), old(token.balances), now, settlementPending), (State(), token.balances))
    {
      hide MintEntries;
      if settlementPending { return Ok(()); }
      var queue := entries;
      if queue == [] { return Ok(()); }
      var limit: nat := Min(|queue|, MAX_QUEUE_BATCH);
      var batch :- ServeEntries(now, queue[..limit]);
      assert queue == queue[..limit] + queue[limit..];
      if batch.touched {
        tma := batch.assets;
        entries := batch.kept + queue[limit..];
      }
      r := Ok(());
    }

    // --- requests ---

    method OwnRequests(queue: seq<Request>, who: Person) returns (count: nat)
      ensures count == CountOwned(queue, who)
    {
      count := 0;
      var i := 0;
      while i < |queue|
        invariant i <= |queue|
        invariant CountOwned(queue, who) == count + CountOwned(queue[i..], who)
      {
        assert queue[i..][0] == queue[i] && queue[i..][1..] == queue[i + 1..];
        if queue[i].owner == who { count := count + 1; }
        i := i + 1;
      }
    }

    method Find(queue: seq<Request>, id: nat) returns (found: Option<nat>)
      ensures found == if FindRequest(queue, id) < |queue| then Some(FindRequest(queue, id)) else None
    {
      var i := 0;
      while i < |queue|
        invariant i <= |queue|
        invariant FindRequest(queue, id) == i + FindRequest(queue[i..], id)
      {
        assert queue[i..][0] == queue[i] && queue[i..][1..] == queue[i + 1..];
        if queue[i].id == id { return Some(i); }
        i := i + 1;
      }
      found := None;
    }

    method RequestDeposit(now: nat, who: Person, assets: int) returns (r: Result<()>)
      requires tma >= 0
      modifies this, token
      ensures Agrees(r, Vault.RequestDeposit(old(State()), old(token.balances), now, who, assets), (State(), token.balances))
    {
      hide Token.Transfer, ToShares, Vault.EffectiveRequestMinimum;
      if assets <= 0 { return Err(AmountMustBePositive); }
      var minted := ToShares(assets, tma, supply);
      if minted == 0 { return Err(AssetsConvertToZeroShares); }
      if |entries| >= MAX_DEPOSIT_QUEUE_LEN { return Err(DepositQueueFull); }
      var minimum := EffectiveRequestMinimum(|entries|, MAX_DEPOSIT_QUEUE_LEN);
      if assets < minimum { return Err(RequestBelowMinimum); }
      var own := OwnRequests(entries, who);
      if own >= MAX_ACTIVE_REQUESTS_PER_ADDRESS { return Err(TooManyActiveRequests); }
      var _ :- token.Transfer(who, VaultAddress, assets);
      var id := nextId;
      nextId := id + 1;
      entries := entries + [Request(id, who, assets, now)];
      r := Ok(());
    }

    method EffectiveRequestMinimum(length: nat, cap: nat) returns (minimum: int)
      requires cap > 0
      ensures minimum == Vault.EffectiveRequestMinimum(State(), length, cap)
      ensures var floorCap := RequestFloorCap(State());
              minimum >= Min(minRequest, floorCap) && (length <= cap ==> minimum <= floorCap) && (length == cap ==> minimum == floorCap)
    {
      RequestMinimumBounds(State(), length, cap);
      var floorCap := Max(tma / MIN_REQUEST_FLOOR_DIVISOR, MIN_REQUEST_FLOOR_CAP_ABS);
      var occupancy := floorCap * length / cap;
      minimum := Max(Min(minRequest, floorCap), occupancy);
    }

    method CancelDeposit(who: Person, id: nat) returns (r: Result<()>)
      modifies this, token
      ensures Agrees(r, Vault.CancelDeposit(old(State()), old(token.balances), who, id), (State(), token.balances))
    {
      var found := Find(entries, id);
      if found.None? { return Err(RequestNotFound); }
      var i := found.value;
      var request := entries[i];
      if request.owner != who { return Err(NotYourRequest); }
      entries := entries[..i] + entries[i + 1..];
      r := token.Transfer(VaultAddress, who, request.amount);
    }

    method RequestWithdrawal(now: nat, who: Person, amount: int) returns (r: Result<()>)
      requires tma >= 0
      modifies this
      ensures Agrees(r, Vault.RequestWithdrawal(old(State()), now, who, amount), State())
    {
      hide ToAssets, Vault.EffectiveRequestMinimum;
      if amount <= 0 { return Err(SharesMustBePositive); }
      var preview := ToAssets(amount, tma, supply);
      if preview <= 0 { return Err(SharesRedeemToZeroAssets); }
      if |exits| >= MAX_WITHDRAWAL_QUEUE_LEN { return Err(WithdrawalQueueFull); }
      var minimum := EffectiveRequestMinimum(|exits|, MAX_WITHDRAWAL_QUEUE_LEN);
      if preview < minimum { return Err(RequestBelowMinimum); }
      var own := OwnRequests(exits, who);
      if own >= MAX_ACTIVE_REQUESTS_PER_ADDRESS { return Err(TooManyActiveRequests); }
      var ok := UpdateShares(Some(who), Some(VaultAddress), amount);
      if !ok { return Err(InsufficientShares); }
      var id := nextId;
      nextId := id + 1;
      exits := exits + [Request(id, who, amount, now)];
      r := Ok(());
    }

    method CancelWithdrawal(who: Person, id: nat) returns (r: Result<()>)
      modifies this
      ensures Agrees(r, Vault.CancelWithdrawal(old(State()), who, id), State())
    {
      var found := Find(exits, id);
      if found.None? { return Err(RequestNotFound); }
      var i := found.value;
      var request := exits[i];
      if request.owner != who { return Err(NotYourRequest); }
      var ok := UpdateShares(Some(VaultAddress), Some(who), request.amount);
      if !ok { return Err(InsufficientShares); }
      exits := exits[..i] + exits[i + 1..];
      r := Ok(());
    }

    method Collect(who: Person) returns (r: Result<()>)
      modifies this, token
      ensures Agrees(r, Vault.Collect(old(State()), old(token.balances), who), (State(), token.balances))
    {
      var a: Address := who;
      var due := if a in claimable then claimable[a] else 0;
      if due <= 0 { return Err(NothingToCollect); }
      claimable := claimable - {a};
      r := token.Transfer(VaultAddress, who, due);
    }

    method SetMinWithdrawalRequest(min: int) returns (r: Result<()>)
      modifies this`minRequest
      ensures if min >= 0 then r.Ok? && minRequest == min else r == Err(AmountMustBeNonNegative)
    {
      if min < 0 { return Err(AmountMustBeNonNegative); }
      minRequest := min;
      r := Ok(());
    }

    method TransferShares(who: Person, to: Address, count: nat) returns (r: Result<()>)
      modifies this
      ensures if count <= SharesOf(old(shares), who)
              then r.Ok? && State() == old(State()).(shares := MoveShares(old(shares), who, to, count))
              else r == Err(InsufficientShares)
    {
      var ok := UpdateShares(Some(who), Some(to), count);
      r := if ok then Ok(()) else Err(InsufficientShares);
    }
  }

  // What one pass over the head of a queue leaves, and whether it changed anything.
  datatype Batch = Batch(kept: seq<Request>, assets: int, touched: bool)

  datatype Served = InFull(paid: int) | Deferred(left: Request, paid: int)

  lemma KeptInPlace(d: Drain, r: Request, now: nat)
    requires DrainOk(d) && (d.stopped || now < r.requestedAt + LP_PRICING_DELAY)
    ensures ExitStep(d, r, now) == Ok(d.(kept := d.kept + [r], stopped := true))
  {
  }

  lemma EntryKeptInPlace(m: Mint, r: Request, now: nat)
    requires m.tma >= 0 && (m.deferred || now < r.requestedAt + LP_PRICING_DELAY)
    ensures EntryStep(m, r, now) == Ok(m.(kept := m.kept + [r], deferred := true))
  {
  }
}
