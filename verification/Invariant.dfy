/** What every reachable state satisfies, across all contracts at once. */
module Invariant {
  import opened Types
  import opened ActiveSet
  import opened Token
  import opened MapSums
  import Governance
  import Pool
  import Vault
  import opened Controller
  import opened World

  // --- per-bucket weights ---

  // `n` times `x`, added up; `BucketSums.ManyIsProduct` says that it is the product.
  function Many(x: int, n: int): int
    decreases n
  {
    if n <= 0 then 0 else Many(x, n - 1) + x
  }

  function Collateral(c: FlightConfig): int {
    if c.status.Open? then Many(c.payoff, c.buyerCount) else 0
  }

  function Escrow(c: FlightConfig): int {
    if c.status.Open? then Many(c.premium, c.buyerCount)
    else if Pool.Paying(c.status) then Many(c.payoff, c.buyerCount - c.claimedCount)
    else 0
  }

  function Policies(c: FlightConfig): int { c.buyerCount }

  function Premiums(c: FlightConfig): int { Many(c.premium, c.buyerCount) }

  function Payouts(c: FlightConfig): int {
    if Pool.Paying(c.status) then Many(c.payoff, c.buyerCount) else 0
  }

  function Id(n: nat): int { n }

  // --- oracle rows against pool buckets ---

  predicate RowShape(k: Key, d: FlightData) {
    && (d.eta == 0 || k.date <= d.eta <= k.date + MAX_SCHEDULED_ARRIVAL_AFTER_DATE)
    && (d.status.NotInitiated? ==> d.eta == 0)
    && (d.status.Active? || d.status.Landed? ==> d.eta != 0)
  }

  predicate Tracked(w: World, k: Key) {
    k in w.chain.pool.configs && k !in w.log.evicted
  }

  // A bucket and its oracle row settle together; an open bucket is listed.
  predicate TrackedOk(w: World, k: Key)
    requires k in w.chain.pool.configs
  {
    && (k in w.chain.oracle.rows || k in w.archive)
    && RowShape(k, RowOf(w, k))
    && (w.chain.pool.configs[k].status.Open? <==> !RowOf(w, k).status.Settled?)
    && (w.chain.pool.configs[k].status.Open? ==> Listed(w, k))
  }

  // The settlement barrier counts exactly the listed flights whose outcome is public and unsettled.
  ghost function PublicFlights(w: World): set<Key> {
    set k | k in w.chain.oracle.active && PublicUnsettled(RowOf(w, k).status)
  }

  ghost predicate CounterExact(w: World) {
    w.chain.oracle.pending == |PublicFlights(w)|
  }

  // --- pool ---

  predicate TermsSane(c: FlightConfig) {
    0 < c.premium < c.payoff && c.delayHours > 0 && c.buyerCount >= 1
  }

  predicate BucketOk(p: Pool.PoolState, now: nat, k: Key)
    requires k in p.configs
  {
    var c := p.configs[k];
    && TermsSane(c)
    && c.buyerCount == |Pool.At(p.buyers, k)|
    && Pool.At(p.claimed, k) <= Pool.At(p.buyers, k)
    && c.claimedCount <= c.buyerCount
    && (!Pool.Paying(c.status) ==> c.claimedCount == 0 && Pool.At(p.claimed, k) == {})
    && (Pool.Paying(c.status) ==>
          c.claimExpiry <= k.date + MAX_CLAIM_DEADLINE_AFTER_DATE
          && (c.claimedCount == |Pool.At(p.claimed, k)| || (c.claimedCount == c.buyerCount && now >= c.claimExpiry)))
  }

  predicate PoolKeyOk(p: Pool.PoolState, now: nat, k: Key) {
    && (k in p.configs ==> BucketOk(p, now, k))
    && (k !in p.configs ==> Pool.At(p.buyers, k) == {} && Pool.At(p.claimed, k) == {})
    && (k in p.active <==> k in p.configs && p.configs[k].status.Open?)
  }

  ghost predicate PoolOk(p: Pool.PoolState, now: nat) {
    && (forall k :: PoolKeyOk(p, now, k))
    && NoDuplicates(p.active)
    && p.recovered >= 0
  }

  // --- money ---

  ghost function ClaimableTotal(v: Vault.VaultState): int {
    Total(v.claimable, Id)
  }

  // Everything the pool owes, and everything plain transfers added, is there.
  ghost predicate PoolFunded(w: World) {
    BalanceOf(w.chain.balances, PoolAddress)
      == Total(w.chain.pool.configs, Escrow) + w.chain.pool.recovered + w.log.poolGifts
  }

  ghost predicate CollateralExact(w: World) {
    w.chain.vault.locked == Total(w.chain.pool.configs, Collateral)
  }

  ghost predicate VaultFunded(w: World) {
    BalanceOf(w.chain.balances, VaultAddress)
      == w.chain.vault.tma + ClaimableTotal(w.chain.vault)
       + Vault.SumAmounts(w.chain.vault.entries) + w.log.vaultGifts
  }

  ghost predicate VaultSolvent(w: World) {
    && 0 <= w.chain.vault.locked <= w.chain.vault.tma
    && MIN_SOLVENCY_RATIO <= w.chain.vault.ratio <= MAX_SOLVENCY_RATIO
    && w.chain.ctrl.ratio == w.chain.vault.ratio
  }

  ghost predicate QueuesOk(v: Vault.VaultState) {
    && Vault.PositiveAmounts(v.entries) && Vault.PositiveAmounts(v.exits)
    && Vault.SumAmounts(v.exits) <= Vault.SharesOf(v.shares, VaultAddress)
    && Total(v.shares, Id) == v.supply
  }

  ghost predicate MoneyOk(w: World) {
    PoolFunded(w) && CollateralExact(w) && VaultFunded(w) && VaultSolvent(w) && QueuesOk(w.chain.vault)
  }

  // --- history against state ---

  predicate SaleOk(w: World, x: Sale) {
    && x.key in w.chain.pool.configs
    && x.who in Pool.At(w.chain.pool.buyers, x.key)
    && x.premium == w.chain.pool.configs[x.key].premium
    && x.time <= w.now && x.time < x.key.date <= x.time + MAX_BOOK_AHEAD
  }

  function PremiumSum(sales: seq<Sale>): int {
    if sales == [] then 0 else PremiumSum(sales[..|sales| - 1]) + sales[|sales| - 1].premium
  }

  function FlightsSold(sales: seq<Sale>, a: Address): seq<Key> {
    if sales == [] then []
    else
      var rest, x := FlightsSold(sales[..|sales| - 1], a), sales[|sales| - 1];
      if x.who == a then rest + [x.key] else rest
  }

  function LastN<T>(s: seq<T>, n: nat): seq<T> {
    if |s| <= n then s else s[|s| - n..]
  }

  ghost predicate SalesOk(w: World) {
    && (forall x :: x in w.log.sales ==> SaleOk(w, x))
    && w.chain.ctrl.sold == |w.log.sales| == Total(w.chain.pool.configs, Policies)
    && w.chain.ctrl.collected == PremiumSum(w.log.sales) == Total(w.chain.pool.configs, Premiums)
    && w.chain.ctrl.distributed == Total(w.chain.pool.configs, Payouts)
    && (forall a :: FlightsOf(w.chain.ctrl.travelerFlights, a) == LastN(FlightsSold(w.log.sales, a), MAX_TRAVELER_FLIGHTS))
  }

  function PaidTo(payments: seq<Payment>, k: Key, a: Address): int {
    if payments == [] then 0
    else
      var x := payments[|payments| - 1];
      PaidTo(payments[..|payments| - 1], k, a) + (if x.who == a && x.key == k then x.amount else 0)
  }

  ghost predicate PaymentsOk(w: World) {
    forall k, a :: PaidTo(w.log.payments, k, a)
      == (if a in Pool.At(w.chain.pool.claimed, k) && k in w.chain.pool.configs then w.chain.pool.configs[k].payoff else 0)
  }

  predicate IdFree(g: Governance.GovState, id: Symbol) {
    forall r :: r in g.routes ==> r.id != id
  }

  // The flight id stays with the pair it was sold under until the sale has aged out: its
  // route is stored, or none is and the retirement marker names it.
  predicate Reserved(g: Governance.GovState, now: nat, x: Sale) {
    var id := x.key.id;
    || now >= x.time + FLIGHT_ID_RETIREMENT
    || Governance.RouteKey(id, x.pair) in g.routes
    || (IdFree(g, id) && id in g.retired && g.retired[id].pair == x.pair
        && g.retired[id].until >= x.time + FLIGHT_ID_RETIREMENT)
  }

  // One stored route per flight id, named by its index entry unless that has lapsed.
  predicate RightWherePresent(g: Governance.GovState) {
    && (forall r :: r in g.routes && r.id in g.index ==> g.index[r.id] == r.pair)
    && (forall r, s :: r in g.routes && s in g.routes && r.id == s.id ==> r == s)
  }

  // No other stored route carries the flight id.
  predicate NoRival(g: Governance.GovState, r: Governance.RouteKey) {
    forall s :: s in g.routes && s.id == r.id ==> s.pair == r.pair
  }

  ghost predicate RoutesOk(w: World) {
    && RightWherePresent(w.chain.gov)
    && (forall x :: x in w.log.sales ==> Reserved(w.chain.gov, w.now, x))
    && (forall x, y :: x in w.log.sales && y in w.log.sales && x.key == y.key ==> x.pair == y.pair)
  }

  // --- outcomes ---

  // Reported to have arrived the locked number of hours after the reported estimate.
  predicate LandedLate(w: World, k: Key)
    requires k in w.chain.pool.configs
  {
    k in w.log.etas && k in w.log.outcomes && w.log.outcomes[k].Arrival?
    && w.log.outcomes[k].ata >= w.log.etas[k] + Hours(w.chain.pool.configs[k].delayHours)
  }

  predicate LandedInTime(w: World, k: Key)
    requires k in w.chain.pool.configs
  {
    k in w.log.etas && k in w.log.outcomes && w.log.outcomes[k].Arrival?
    && w.log.outcomes[k].ata < w.log.etas[k] + Hours(w.chain.pool.configs[k].delayHours)
  }

  predicate WasCancelled(w: World, k: Key) {
    k in w.log.outcomes && w.log.outcomes[k].Cancellation?
  }

  // No outcome was reported for 14 days after the estimate, or the date if there was none.
  predicate TimedOut(w: World, k: Key) {
    k !in w.log.outcomes && w.now >= (if k in w.log.etas then w.log.etas[k] else k.date) + Days(14)
  }

  // The row holds the reported times.
  predicate RowReported(w: World, k: Key) {
    && RowOf(w, k).eta == (if k in w.log.etas then w.log.etas[k] else 0) && (k in w.log.etas ==> w.log.etas[k] != 0)
    && (RowOf(w, k).status.Landed? ==> k in w.log.outcomes && w.log.outcomes[k] == Arrival(RowOf(w, k).ata))
  }

  predicate StatusJustified(w: World, k: Key)
    requires k in w.chain.pool.configs
  {
    match RowOf(w, k).status
    case NotInitiated => k !in w.log.outcomes
    case Active => k !in w.log.outcomes
    case Landed => k in w.log.outcomes && w.log.outcomes[k].Arrival?
    case Cancelled => WasCancelled(w, k)
    case ToBeSettledOnTime => LandedInTime(w, k) || TimedOut(w, k)
    case ToBeSettledDelayed => LandedLate(w, k)
    case ToBeSettledCancelled => WasCancelled(w, k)
    case Settled => true
  }

  predicate BucketJustified(w: World, k: Key)
    requires k in w.chain.pool.configs
  {
    match w.chain.pool.configs[k].status
    case Open => true
    case SettledDelayed => LandedLate(w, k)
    case SettledCancelled => WasCancelled(w, k)
    case SettledOnTime => k in w.log.evicted || LandedInTime(w, k) || TimedOut(w, k)
  }

  // All that is claimed about one flight on the oracle's side.
  predicate FlightOk(w: World, k: Key) {
    && (Listed(w, k) ==> Tracked(w, k))
    && (Tracked(w, k) ==> TrackedOk(w, k) && StatusJustified(w, k) && RowReported(w, k))
    && (k !in w.chain.pool.configs ==> TombstoneOnly(w, k))
    && (k in w.chain.pool.configs ==> BucketJustified(w, k))
    && (k in w.log.evicted || k in w.log.etas || k in w.log.outcomes ==> k in w.chain.pool.configs)
    && (k in w.log.outcomes ==> !RowOf(w, k).status.NotInitiated? && !RowOf(w, k).status.Active?)
    && (k in w.log.evicted ==> k in w.archive)
  }

  // A flight nobody bought has no row but a tombstone, stored or archived.
  predicate TombstoneOnly(w: World, k: Key) {
    && (k in w.chain.oracle.rows ==> w.chain.oracle.rows[k].status.Cancelled?)
    && (k in w.archive ==> w.archive[k].status.Cancelled?)
  }

  ghost predicate Coherent(w: World) {
    && NoDuplicates(w.chain.oracle.active)
    && |w.chain.oracle.active| <= MAX_ACTIVE_FLIGHTS
    && (forall k :: FlightOk(w, k))
  }

  predicate ParametersOk(c: CtrlState) {
    c.minLead < MAX_BOOK_AHEAD && MIN_CLAIM_EXPIRY_WINDOW <= c.claimWindow <= MAX_CLAIM_EXPIRY_WINDOW
  }

  // The conjuncts that speak of oracle rows, and the ones that do not.
  ghost predicate OracleSide(w: World) {
    Coherent(w) && CounterExact(w)
  }

  ghost predicate BankSide(w: World) {
    && PoolOk(w.chain.pool, w.now) && MoneyOk(w)
    && SalesOk(w) && PaymentsOk(w) && RoutesOk(w)
    && ParametersOk(w.chain.ctrl)
  }

  ghost predicate Inv(w: World) {
    OracleSide(w) && BankSide(w)
  }

  // What the operators undertake beyond what the contracts check: an eviction carries
  // the right flag, no cancellation is written over the archived row of a sold, unevicted flight, no
  // outcome is written to a row restored after its flight was evicted, and no route is listed
  // while another stored route carries its flight id.
  predicate Admissible(w: World, op: Op) {
    match op
    case SetLanded(k, _) => k !in w.log.evicted
    case SetCancelled(k) => if k in w.chain.oracle.rows then k !in w.log.evicted else !Tracked(w, k)
    case EvictMissingFlight(k, flag) => flag == PublicUnsettled(RowOf(w, k).status)
    case Gov(Whitelist(route, _, _, _)) => NoRival(w.chain.gov, route)
    case _ => true
  }
}
