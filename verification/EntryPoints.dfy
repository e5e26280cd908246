/** What each call of the oracle, the pool, the owner and governance accepts, and what it
    leaves: stated field by field and flight by flight, apart from the entry points. */
module EntryPoints {
  import opened Results
  import opened Types
  import opened ActiveSet
  import opened Token
  import Governance
  import Oracle
  import Pool
  import Vault
  import Approvals
  import opened Controller
  import opened World
  import opened GovSteps

  type Rows = map<Key, FlightData>

  predicate NotFlown(s: FlightStatus) {
    s.NotInitiated? || s.Active?
  }

  // The row of `k` is `d`, every other row as it was.
  ghost predicate OneRow(rows: Rows, rows': Rows, k: Key, d: FlightData) {
    && k in rows' && rows'[k] == d
    && (forall j :: j != k ==> (j in rows' <==> j in rows) && (j in rows ==> rows'[j] == rows[j]))
  }

  // --- the oracle's reports ---

  /** An estimate is accepted for a flight that has no report yet, within three days of the
      date; it is stored as reported and nothing else changes. */
  lemma EstimateStored(o: Oracle.OracleState, k: Key, eta: nat)
    ensures var r := Oracle.SetEstimatedArrival(o, k, eta);
            && (r.Ok? <==> k in o.rows && o.rows[k].status.NotInitiated? && eta != 0 && k.date <= eta <= k.date + Days(3))
            && (r.Ok? ==>
                  && OneRow(o.rows, r.value.rows, k, FlightData(FlightStatus.Active, eta, o.rows[k].ata, o.rows[k].settledAt))
                  && r.value == o.(rows := r.value.rows))
  {
    assert Oracle.SetEstimatedArrival(o, k, eta).Ok? ==> Oracle.IsValidTransition(o.rows[k].status, FlightStatus.Active);
  }

  /** A landing is accepted for a flight with an estimate, within 30 days of the date; the
      arrival is stored as reported, the estimate kept, and one more outcome is pending. */
  lemma LandingStored(o: Oracle.OracleState, k: Key, ata: nat)
    ensures var r := Oracle.SetLanded(o, k, ata);
            && (r.Ok? <==> k in o.rows && o.rows[k].status.Active? && ata != 0 && k.date <= ata <= k.date + Days(30))
            && (r.Ok? ==>
                  && OneRow(o.rows, r.value.rows, k, FlightData(Landed, o.rows[k].eta, ata, o.rows[k].settledAt))
                  && r.value == o.(rows := r.value.rows, pending := Min(o.pending + 1, U64_MAX)))
  {
  }

  /** A cancellation is refused only for a flight that already has an outcome. It closes the
      sale; it is pending only for a flight that has a row. */
  lemma CancellationStored(o: Oracle.OracleState, k: Key)
    ensures var r := Oracle.SetCancelled(o, k);
            && (r.Ok? <==> k in o.rows ==> NotFlown(o.rows[k].status))
            && (r.Ok? ==>
                  && OneRow(o.rows, r.value.rows, k, if k in o.rows then o.rows[k].(status := Cancelled) else FlightData(Cancelled, 0, 0, 0))
                  && (forall j :: j in r.value.sales <==> j in o.sales && j != k)
                  && (forall j :: j in r.value.sales ==> r.value.sales[j] == o.sales[j])
                  && r.value == o.(rows := r.value.rows, sales := r.value.sales,
                                   pending := if k in o.rows then Min(o.pending + 1, U64_MAX) else o.pending))
  {
  }

  /** A sale opens for at most a day and not past the date, and only while the flight may still
      be sold; the end of the window is stored as given. Closing it leaves the others. */
  lemma SaleWindows(o: Oracle.OracleState, now: nat, k: Key, end: nat)
    ensures var r := Oracle.OpenSale(o, now, k, end);
            && (r.Ok? <==> now < end <= now + Days(1) && end <= k.date && (k in o.rows ==> NotFlown(o.rows[k].status)))
            && (r.Ok? ==>
                  && r.value == o.(sales := r.value.sales) && k in r.value.sales && r.value.sales[k] == end
                  && forall j :: j != k ==> (j in r.value.sales <==> j in o.sales) && (j in o.sales ==> r.value.sales[j] == o.sales[j]))
    ensures var o' := Oracle.CloseSale(o, k);
            && o' == o.(sales := o'.sales) && (forall j :: j in o'.sales <==> j in o.sales && j != k)
            && (forall j :: j in o'.sales ==> o'.sales[j] == o.sales[j])
  {
  }

  /** Registration of a known flight changes nothing; an unknown one gets a blank row and the
      last place in the listing. */
  lemma Registration(o: Oracle.OracleState, k: Key)
    ensures var r := Oracle.RegisterFlight(o, k);
            && (r.Ok? <==> k in o.rows || (|o.active| < 100_000 && k !in o.active))
            && (k in o.rows ==> r == Ok(o))
            && (k !in o.rows && r.Ok? ==>
                  OneRow(o.rows, r.value.rows, k, FlightData(NotInitiated, 0, 0, 0))
                  && r.value == o.(rows := r.value.rows, active := o.active + [k]))
  {
  }

  /** The controller's verdict is accepted on the edges of the status machine, a void only 14
      days after the estimate or the date; times are kept, and only a void is one more outcome. */
  lemma VerdictStored(o: Oracle.OracleState, now: nat, k: Key, verdict: FlightStatus)
    ensures var r := Oracle.SetToBeSettled(o, now, k, verdict);
            && (r.Ok? <==> k in o.rows && var d := o.rows[k];
                  match d.status
                  case Landed => verdict.ToBeSettledOnTime? || verdict.ToBeSettledDelayed?
                  case Cancelled => verdict.ToBeSettledCancelled?
                  case Active => verdict.ToBeSettledOnTime? && now >= d.eta + Days(14)
                  case NotInitiated => verdict.ToBeSettledOnTime? && now >= k.date + Days(14)
                  case _ => false)
            && (r.Ok? ==>
                  && OneRow(o.rows, r.value.rows, k, o.rows[k].(status := verdict))
                  && r.value == o.(rows := r.value.rows,
                                   pending := if NotFlown(o.rows[k].status) then Min(o.pending + 1, U64_MAX) else o.pending))
  {
  }

  /** Only a verdict settles; the time is stored and one outcome is no longer pending. */
  lemma SettlementStored(o: Oracle.OracleState, now: nat, k: Key)
    ensures var r := Oracle.SetSettled(o, now, k);
            && (r.Ok? <==> k in o.rows && var s := o.rows[k].status;
                  s.ToBeSettledOnTime? || s.ToBeSettledDelayed? || s.ToBeSettledCancelled?)
            && (r.Ok? ==>
                  && OneRow(o.rows, r.value.rows, k, FlightData(Settled, o.rows[k].eta, o.rows[k].ata, now))
                  && r.value == o.(rows := r.value.rows, pending := Max(o.pending - 1, 0)))
  {
  }

  /** Only a listed flight without a row is evicted. */
  lemma EvictionTakes(o: Oracle.OracleState, k: Key, flag: bool)
    requires NoDuplicates(o.active)
    ensures var r := Oracle.EvictMissingFlight(o, k, flag);
            && (r.Ok? <==> k in o.active && k !in o.rows)
            && (r.Ok? ==>
                  && (forall j :: j in r.value.active <==> j in o.active && j != k)
                  && r.value == o.(active := r.value.active, pending := if flag then Max(o.pending - 1, 0) else o.pending))
  {
    SwapRemoveElements(o.active, k);
    assert forall j :: j in SwapRemove(o.active, k) <==> j in Elements(SwapRemove(o.active, k));
    assert forall j :: j in o.active <==> j in Elements(o.active);
  }

  // --- the pool ---

  // Everybody's tokens but for `amount` that went from one account to another.
  ghost predicate Paid(b: Balances, b': Balances, from: Address, to: Address, amount: int) {
    forall a :: BalanceOf(b', a) == BalanceOf(b, a) - (if a == from then amount else 0) + (if a == to then amount else 0)
  }

  ghost predicate OneBucket(p: Pool.PoolState, p': Pool.PoolState, k: Key, c: FlightConfig) {
    && k in p'.configs && p'.configs[k] == c
    && (forall j :: j != k ==> (j in p'.configs <==> j in p.configs) && (j in p.configs ==> p'.configs[j] == p.configs[j]))
  }

  /** A transfer needs the tokens and moves them, nothing else. */
  lemma TransferPays(b: Balances, from: Address, to: Address, amount: int)
    ensures var r := Transfer(b, from, to, amount);
            && (r.Ok? <==> 0 <= amount <= BalanceOf(b, from))
            && (r.Ok? ==> Paid(b, r.value, from, to, amount))
  {
  }

  /** A claim is for a policy holder of a paying bucket, once, before its deadline. */
  lemma ClaimPays(p: Pool.PoolState, b: Balances, now: nat, who: Address, k: Key)
    ensures var r := Pool.Claim(p, b, now, who, k);
            && (r.Ok? <==>
                  && k in p.configs && (p.configs[k].status.SettledDelayed? || p.configs[k].status.SettledCancelled?)
                  && now < p.configs[k].claimExpiry && who in Pool.At(p.buyers, k) && who !in Pool.At(p.claimed, k)
                  && 0 <= p.configs[k].payoff <= BalanceOf(b, PoolAddress))
            && (r.Ok? ==> var c, p' := p.configs[k], r.value.0;
                  && Paid(b, r.value.1, PoolAddress, who, c.payoff)
                  && OneBucket(p, p', k, c.(claimedCount := c.claimedCount + 1))
                  && p' == p.(configs := p'.configs, claimed := p'.claimed)
                  && (forall j :: Pool.At(p'.claimed, j) == Pool.At(p.claimed, j) + (if j == k then {who} else {})))
  {
    TransferPays(b, PoolAddress, who, if k in p.configs then p.configs[k].payoff else 0);
    hide Transfer;
  }

  /** What nobody claimed by the deadline becomes recoverable, once. */
  lemma SweepRecovers(p: Pool.PoolState, now: nat, k: Key)
    requires k in p.configs ==> p.configs[k].payoff > 0
    ensures var r := Pool.SweepExpired(p, now, k);
            && (r.Ok? <==>
                  && k in p.configs && (p.configs[k].status.SettledDelayed? || p.configs[k].status.SettledCancelled?)
                  && now >= p.configs[k].claimExpiry && p.configs[k].claimedCount <= p.configs[k].buyerCount)
            && (r.Ok? ==> var c, p' := p.configs[k], r.value;
                  && OneBucket(p, p', k, c.(claimedCount := c.buyerCount))
                  && p' == p.(configs := p'.configs, recovered := p.recovered + c.payoff * (c.buyerCount - c.claimedCount)))
  {
    if k in p.configs && p.configs[k].buyerCount > p.configs[k].claimedCount {
      Positive(p.configs[k].payoff, p.configs[k].buyerCount - p.configs[k].claimedCount);
    }
  }

  /** Recovered tokens go to the owner, as far as there are any. */
  lemma RecoveryPaysOwner(p: Pool.PoolState, b: Balances, amount: int)
    ensures var r := Pool.WithdrawRecovered(p, b, amount);
            && (r.Ok? <==> 0 < amount <= p.recovered && amount <= BalanceOf(b, PoolAddress))
            && (r.Ok? ==> Paid(b, r.value.1, PoolAddress, User(0), amount) && r.value.0 == p.(recovered := p.recovered - amount))
  {
    TransferPays(b, PoolAddress, OWNER, amount);
    hide Transfer;
  }

  /** A bucket is registered once, at terms that pay more than they cost; registering it again
      needs the same terms and changes nothing. */
  lemma RegistrationOpens(p: Pool.PoolState, k: Key, t: Terms)
    ensures var r := Pool.RegisterFlight(p, k, t);
            && (r.Ok? <==>
                  && 0 < t.premium < t.payoff && t.delayHours > 0
                  && (if k in p.configs
                      then p.configs[k].premium == t.premium && p.configs[k].payoff == t.payoff && p.configs[k].delayHours == t.delayHours
                      else |p.active| < 100_000 && k !in p.active))
            && (r.Ok? && k in p.configs ==> r.value == p)
            && (r.Ok? && k !in p.configs ==>
                  && OneBucket(p, r.value, k, FlightConfig(t.premium, t.payoff, t.delayHours, 0, 0, Open, 0))
                  && r.value == p.(configs := r.value.configs, active := p.active + [k]))
  {
  }

  /** A traveler joins an open bucket once. */
  lemma BuyerJoins(p: Pool.PoolState, k: Key, who: Address)
    ensures var r := Pool.AddBuyer(p, k, who);
            && (r.Ok? <==> k in p.configs && p.configs[k].status.Open? && who !in Pool.At(p.buyers, k))
            && (r.Ok? ==>
                  && OneBucket(p, r.value, k, p.configs[k].(buyerCount := p.configs[k].buyerCount + 1))
                  && (forall j :: Pool.At(r.value.buyers, j) == Pool.At(p.buyers, j) + (if j == k then {who} else {}))
                  && r.value == p.(configs := r.value.configs, buyers := r.value.buyers))
  {
  }

  /** Claims open on an open bucket whose payoffs the pool holds, until the earlier of the
      deadline asked for, which must lie ahead, and 90 days after the date. */
  lemma ClaimsOpen(p: Pool.PoolState, b: Balances, now: nat, k: Key, expiry: nat, status: SettlementStatus)
    ensures var r := Pool.SettleWithClaimWindow(p, b, now, k, expiry, status);
            && (r.Ok? <==>
                  && k in p.configs && p.configs[k].status.Open? && now < expiry
                  && (p.configs[k].buyerCount > 0 ==> p.configs[k].payoff * p.configs[k].buyerCount <= BalanceOf(b, PoolAddress)))
            && (r.Ok? ==>
                  && OneBucket(p, r.value, k, p.configs[k].(status := status, claimExpiry := Min(expiry, k.date + Days(90))))
                  && r.value == p.(configs := r.value.configs, active := SwapRemove(p.active, k)))
  {
  }

  /** Settling on time closes an open bucket and sends the vault its premiums, all of them. */
  lemma PremiumsReleased(p: Pool.PoolState, b: Balances, k: Key)
    ensures var r := Pool.SettleOnTime(p, b, k);
            && (r.Ok? <==>
                  && k in p.configs && p.configs[k].status.Open?
                  && (p.configs[k].buyerCount > 0 ==> 0 <= p.configs[k].premium * p.configs[k].buyerCount <= BalanceOf(b, PoolAddress)))
            && (r.Ok? ==> var c, (p', b', income) := p.configs[k], r.value;
                  && income == c.premium * c.buyerCount && Paid(b, b', PoolAddress, VaultAddress, income)
                  && OneBucket(p, p', k, c.(status := SettledOnTime))
                  && p' == p.(configs := p'.configs, active := SwapRemove(p.active, k)))
  {
    hide Transfer;
    if k in p.configs {
      TransferPays(b, PoolAddress, VaultAddress, p.configs[k].premium * p.configs[k].buyerCount);
    }
  }

  // --- the vault ---

  /** Collateral is locked only up to managed assets and released only as far as it was locked;
      income counts only once its tokens are there beside queued deposits, and a payout needs
      managed assets. Each moves its own amount and nothing else. */
  lemma VaultMoves(v: Vault.VaultState, b: Balances, to: Address, amount: int)
    ensures var r := Vault.IncreaseLocked(v, amount);
            && (r.Ok? <==> 0 < amount <= v.tma - v.locked) && (r.Ok? ==> r.value == v.(locked := v.locked + amount))
    ensures var r := Vault.DecreaseLocked(v, amount);
            && (r.Ok? <==> 0 < amount <= v.locked) && (r.Ok? ==> r.value == v.(locked := v.locked - amount))
    ensures var r := Vault.RecordPremiumIncome(v, b, amount);
            && (r.Ok? <==> amount > 0 && v.tma + Vault.SumAmounts(v.entries) + amount <= BalanceOf(b, VaultAddress))
            && (r.Ok? ==> r.value == v.(tma := v.tma + amount))
    ensures var r := Vault.SendPayout(v, b, to, amount);
            && (r.Ok? <==> 0 < amount <= v.tma && amount <= BalanceOf(b, VaultAddress))
            && (r.Ok? ==> r.value.0 == v.(tma := v.tma - amount) && Paid(b, r.value.1, VaultAddress, to, amount))
  {
    hide Transfer;
    TransferPays(b, VaultAddress, to, amount);
  }

  // --- settings ---

  /** The owner's settings are accepted within their bounds and stored as given, the solvency
      ratio with the controller and the vault alike; an approval runs for 180 days from the
      call, a revocation ends it, and nobody else's changes. */
  lemma OwnerSets(c: Chain, now: nat, op: Op)
    requires IsOwnerOp(op)
    ensures var r := OwnerStep(c, now, op);
            && (r.Ok? <==>
                  && (op.SetSolvencyRatio? ==> 100 <= op.ratio <= 10_000)
                  && (op.SetMinLeadTime? ==> op.secs < Days(90))
                  && (op.SetClaimExpiryWindow? ==> Days(1) <= op.secs <= Days(60)))
            && (r.Ok? ==> var c' := r.value;
                  && (if op.SetSolvencyRatio? then c' == c.(ctrl := c.ctrl.(ratio := op.ratio), vault := c.vault.(ratio := op.ratio))
                      else if op.SetMinLeadTime? then c' == c.(ctrl := c.ctrl.(minLead := op.secs))
                      else if op.SetClaimExpiryWindow? then c' == c.(ctrl := c.ctrl.(claimWindow := op.secs))
                      else if op.SetWhitelistEnabled? then c' == c.(ctrl := c.ctrl.(gated := op.enabled))
                      else c' == c.(ctrl := c.ctrl.(approvals := c'.ctrl.approvals)) && ApprovalSet(c, c', now, op)))
  {
  }

  ghost predicate ApprovalSet(c: Chain, c': Chain, now: nat, op: Op)
    requires op.AddWhitelistedBuyer? || op.RemoveWhitelistedBuyer?
  {
    forall a :: Approvals.DeadlineOf(c'.ctrl.approvals, a)
      == if a != op.buyer then Approvals.DeadlineOf(c.ctrl.approvals, a) else if op.AddWhitelistedBuyer? then now + Days(180) else 0
  }

  /** The request minimum rises in a straight line with the queue, rounded down, to the larger
      of ten million and 1/2500 of managed assets, and never falls below the configured minimum
      as far as that allows. */
  lemma RequestMinimumIs(v: Vault.VaultState, length: nat, cap: nat)
    requires cap > 0
    ensures var m, top := Vault.EffectiveRequestMinimum(v, length, cap), Max(v.tma / 2_500, 10_000_000);
            var least := Min(v.minRequest, top);
            && m >= least && m * cap + cap > top * length && (m == least || m * cap <= top * length)
  {
    var top := Max(v.tma / 2_500, 10_000_000);
    var ramp, least := top * length / cap, Min(v.minRequest, top);
    Vault.FloorDivision(top * length, cap);
    if ramp < least {
      Vault.Monotone(ramp + 1, least, cap);
    }
  }
}
