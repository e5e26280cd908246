/** The protocol as one transition system: every contract entry point, the passage
    of time, and the archival of rows and index entries by the ledger, are atomic steps. */
module World {
  import opened Results
  import opened Types
  import opened Token
  import Approvals
  import Governance
  import Oracle
  import Pool
  import Vault
  import opened Controller

  datatype Sale = Sale(who: Person, key: Key, pair: Governance.Pair, time: nat, premium: int)
  datatype Payment = Payment(who: Person, key: Key, amount: int)

  // How a flight ended, as the oracle reported it.
  datatype Outcome = Arrival(ata: nat) | Cancellation

  // What happened so far, taken from the calls and not from what the contracts stored; no
  // contract reads it.
  datatype Log = Log(
    sales: seq<Sale>,
    payments: seq<Payment>,
    etas: map<Key, nat>,              // reported estimates of the arrival
    outcomes: map<Key, Outcome>,
    evicted: set<Key>,
    poolGifts: nat, vaultGifts: nat)  // tokens sent to a contract by plain transfers

  // `archive` holds the last value of rows the ledger has archived.
  datatype World = World(now: nat, chain: Chain, archive: map<Key, FlightData>, log: Log)

  datatype GovOp =
    | Whitelist(route: Governance.RouteKey, premium: Option<Governance.I128>, payoff: Option<Governance.I128>, delayHours: Option<nat>)
    | Disable(route: Governance.RouteKey)
    | Enable(route: Governance.RouteKey)
    | Remove(route: Governance.RouteKey)
    | QueryStatus(route: Governance.RouteKey)
    | UpdateTerms(route: Governance.RouteKey, newPremium: Governance.Update<Governance.I128>,
                  newPayoff: Governance.Update<Governance.I128>, newDelayHours: Governance.Update<nat>)
    | SetDefaults(defPremium: Governance.I128, defPayoff: Governance.I128, defDelayHours: nat)
    | SetTermLimits(maxPayoff: Governance.I128, maxPayoffRatio: Governance.I128)

  datatype LpOp =
    | RequestDeposit(who: Person, amount: int)
    | CancelDeposit(who: Person, id: nat)
    | RequestWithdrawal(who: Person, amount: int)
    | CancelWithdrawal(who: Person, id: nat)
    | Collect(who: Person)
    | TransferShares(who: Person, to: Address, count: nat)
    | SetMinRequest(min: int)

  datatype Op =
    // environment
    | Tick(seconds: nat)
    | Archive(key: Key)
    | Restore(key: Key)
    | Gift(who: Person, to: Address, amount: nat)
    | Lapse(id: Symbol)
    // oracle aggregator
    | OpenSale(key: Key, expiresAt: nat)
    | CloseSale(key: Key)
    | SetEstimatedArrival(key: Key, eta: nat)
    | SetLanded(key: Key, ata: nat)
    | SetCancelled(key: Key)
    | PruneSettled
    | EvictMissingFlight(key: Key, outcomePending: bool)
    // controller
    | Buy(who: Person, key: Key, pair: Governance.Pair)
    | ClassifyFlights
    | ClassifyFlight(key: Key)
    | ExecuteSettlements
    | ExecuteSettlementsBounded(limit: nat)
    | SettleFlight(key: Key)
    | SettleEvictedFlight(key: Key)
    | RunQueueMaintenance
    | SetSolvencyRatio(ratio: nat)
    | SetMinLeadTime(secs: nat)
    | SetClaimExpiryWindow(secs: nat)
    | SetWhitelistEnabled(enabled: bool)
    | AddWhitelistedBuyer(buyer: Address)
    | RemoveWhitelistedBuyer(buyer: Address)
    // flight pool manager
    | Claim(who: Person, key: Key)
    | SweepExpired(key: Key)
    | Reconcile(key: Key)
    | WithdrawRecovered(sum: int)
    // governance module, underwriters
    | Gov(gov: GovOp)
    | Lp(lp: LpOp)

  function GovStep(g: Governance.GovState, now: nat, op: GovOp): Result<Governance.GovState> {
    match op
    case Whitelist(r, p, q, d) => Governance.WhitelistRoute(g, now, r, p, q, d)
    case Disable(r) => Governance.DisableRoute(g, r)
    case Enable(r) => Governance.EnableRoute(g, r)
    case Remove(r) => Governance.RemoveRoute(g, now, r)
    case QueryStatus(r) => Ok(Governance.ReadRouteStatus(g, r).0)
    case UpdateTerms(r, p, q, d) => Governance.UpdateRouteTerms(g, r, p, q, d)
    case SetDefaults(p, q, d) => Governance.SetDefaults(g, p, q, d)
    case SetTermLimits(m, r) => Governance.SetTermLimits(g, m, r)
  }

  function LpStep(v: Vault.VaultState, b: Balances, now: nat, op: LpOp): Result<(Vault.VaultState, Balances)>
    requires v.tma >= 0
  {
    match op
    case RequestDeposit(who, amount) => Vault.RequestDeposit(v, b, now, who, amount)
    case CancelDeposit(who, id) => Vault.CancelDeposit(v, b, who, id)
    case RequestWithdrawal(who, amount) =>
      var v' :- Vault.RequestWithdrawal(v, now, who, amount);
      Ok((v', b))
    case CancelWithdrawal(who, id) =>
      var v' :- Vault.CancelWithdrawal(v, who, id);
      Ok((v', b))
    case Collect(who) => Vault.Collect(v, b, who)
    case TransferShares(who, to, amount) =>
      var _ :- Need(amount <= Vault.SharesOf(v.shares, who), InsufficientShares);
      Ok((v.(shares := Vault.MoveShares(v.shares, who, to, amount)), b))
    case SetMinRequest(min) =>
      var _ :- Need(min >= 0, AmountMustBeNonNegative);
      Ok((v.(minRequest := min), b))
  }

  predicate VaultUsable(v: Vault.VaultState) {
    Vault.Sound(v) && Vault.PositiveAmounts(v.entries)
  }

  function On(w: World, c: Chain): World {
    w.(chain := c)
  }

  // The row a flight had last, stored or archived.
  function RowOf(w: World, k: Key): FlightData {
    if k in w.chain.oracle.rows then w.chain.oracle.rows[k]
    else if k in w.archive then w.archive[k]
    else Oracle.BLANK
  }

  predicate Listed(w: World, k: Key) {
    k in w.chain.oracle.active
  }

  // --- the steps of each party ---

  predicate IsEnvironmentOp(op: Op) {
    op.Tick? || op.Archive? || op.Restore? || op.Gift? || op.Lapse?
  }

  predicate IsAggregatorOp(op: Op) {
    op.OpenSale? || op.CloseSale? || op.SetEstimatedArrival? || op.SetLanded? || op.SetCancelled?
    || op.PruneSettled? || op.EvictMissingFlight?
  }

  predicate IsKeeperOp(op: Op) {
    op.ClassifyFlights? || op.ClassifyFlight? || op.ExecuteSettlements? || op.ExecuteSettlementsBounded?
    || op.SettleFlight? || op.SettleEvictedFlight? || op.RunQueueMaintenance?
  }

  predicate IsUpkeepOp(op: Op) {
    op.SweepExpired? || op.Reconcile? || op.WithdrawRecovered?
  }

  predicate IsOwnerOp(op: Op) {
    op.SetSolvencyRatio? || op.SetMinLeadTime? || op.SetClaimExpiryWindow?
    || op.SetWhitelistEnabled? || op.AddWhitelistedBuyer? || op.RemoveWhitelistedBuyer?
  }

  function EnvironmentStep(w: World, op: Op): Result<World>
    requires IsEnvironmentOp(op)
  {
    var c := w.chain;
    match op
    case Tick(seconds) => Ok(w.(now := w.now + seconds))
    case Archive(k) =>
      var _ :- Need(k in c.oracle.rows, NotApplicable);
      Ok(On(w, c.(oracle := c.oracle.(rows := c.oracle.rows - {k}))).(archive := w.archive[k := c.oracle.rows[k]]))
    case Restore(k) =>
      var _ :- Need(k !in c.oracle.rows && k in w.archive, NotApplicable);
      Ok(On(w, c.(oracle := c.oracle.(rows := c.oracle.rows[k := w.archive[k]]))))
    case Gift(who, to, amount) =>
      var b :- Transfer(c.balances, who, to, amount);
      Ok(On(w, c.(balances := b)).(log := w.log.(
        poolGifts := w.log.poolGifts + (if to.PoolAddress? then amount else 0),
        vaultGifts := w.log.vaultGifts + (if to.VaultAddress? then amount else 0))))
    case Lapse(id) =>
      var g :- Governance.LapseIndex(c.gov, id);
      Ok(On(w, c.(gov := g)))
  }

  function OracleStep(o: Oracle.OracleState, now: nat, op: Op): Result<Oracle.OracleState>
    requires IsAggregatorOp(op)
  {
    match op
    case OpenSale(k, expiresAt) => Oracle.OpenSale(o, now, k, expiresAt)
    case CloseSale(k) => Ok(Oracle.CloseSale(o, k))
    case SetEstimatedArrival(k, eta) => Oracle.SetEstimatedArrival(o, k, eta)
    case SetLanded(k, ata) => Oracle.SetLanded(o, k, ata)
    case SetCancelled(k) => Oracle.SetCancelled(o, k)
    case PruneSettled => Ok(Oracle.PruneSettled(o, now))
    case EvictMissingFlight(k, flag) => Oracle.EvictMissingFlight(o, k, flag)
  }

  // What an accepted call of the oracle reports. The cancellation of a flight nobody
  // registered is no outcome of a policy.
  function OracleLog(log: Log, o: Oracle.OracleState, op: Op): Log {
    if op.SetEstimatedArrival? then log.(etas := log.etas[op.key := op.eta])
    else if op.SetLanded? then log.(outcomes := log.outcomes[op.key := Arrival(op.ata)])
    else if op.SetCancelled? && op.key in o.rows then log.(outcomes := log.outcomes[op.key := Cancellation])
    else if op.EvictMissingFlight? then log.(evicted := log.evicted + {op.key})
    else log
  }

  function KeeperStep(c: Chain, now: nat, op: Op): Result<Chain>
    requires IsKeeperOp(op) && VaultUsable(c.vault)
  {
    match op
    case ClassifyFlights => Controller.ClassifyFlights(c, now)
    case ClassifyFlight(k) => var (c', _) :- Controller.ClassifyFlight(c, now, k); Ok(c')
    case ExecuteSettlements => Controller.ExecuteSettlements(c, now)
    case ExecuteSettlementsBounded(limit) => Controller.ExecuteSettlementsBounded(c, now, limit)
    case SettleFlight(k) => var (c', _) :- Controller.SettleFlight(c, now, k); Ok(c')
    case SettleEvictedFlight(k) => Controller.SettleEvictedFlight(c, k)
    case RunQueueMaintenance => Controller.RunQueueMaintenance(c, now)
  }

  function BuyStep(w: World, who: Person, k: Key, pair: Governance.Pair): Result<World> {
    var c' :- Controller.BuyInsurance(w.chain, w.now, who, k, pair);
    var premium := if k in c'.pool.configs then c'.pool.configs[k].premium else 0;
    Ok(On(w, c').(log := w.log.(sales := w.log.sales + [Sale(who, k, pair, w.now, premium)])))
  }

  function ClaimStep(w: World, who: Person, k: Key): Result<World> {
    var c := w.chain;
    var (p, b) :- Pool.Claim(c.pool, c.balances, w.now, who, k);
    var paid := if k in c.pool.configs then c.pool.configs[k].payoff else 0;
    Ok(On(w, c.(pool := p, balances := b)).(log := w.log.(payments := w.log.payments + [Payment(who, k, paid)])))
  }

  function PoolStep(p: Pool.PoolState, b: Balances, now: nat, op: Op): Result<(Pool.PoolState, Balances)>
    requires IsUpkeepOp(op)
  {
    match op
    case SweepExpired(k) => var p' :- Pool.SweepExpired(p, now, k); Ok((p', b))
    case Reconcile(k) => var (p', _) :- Pool.ReconcileSettledActiveEntry(p, k); Ok((p', b))
    case WithdrawRecovered(sum) => Pool.WithdrawRecovered(p, b, sum)
  }

  function OwnerStep(c: Chain, now: nat, op: Op): Result<Chain>
    requires IsOwnerOp(op)
  {
    match op
    case SetSolvencyRatio(ratio) => Controller.SetSolvencyRatio(c, ratio)
    case SetMinLeadTime(secs) => Controller.SetMinLeadTime(c, secs)
    case SetClaimExpiryWindow(secs) => Controller.SetClaimExpiryWindow(c, secs)
    case SetWhitelistEnabled(enabled) => Ok(c.(ctrl := c.ctrl.(gated := enabled)))
    case AddWhitelistedBuyer(a) => Ok(c.(ctrl := c.ctrl.(approvals := Approvals.Write(c.ctrl.approvals, now, a, true))))
    case RemoveWhitelistedBuyer(a) => Ok(c.(ctrl := c.ctrl.(approvals := Approvals.Write(c.ctrl.approvals, now, a, false))))
  }

  // A vault that cannot be used, which no run reaches, is left alone.
  function Step(w: World, op: Op): Result<World> {
    var c, now := w.chain, w.now;
    if !VaultUsable(c.vault) then Err(NotApplicable)
    else if IsEnvironmentOp(op) then EnvironmentStep(w, op)
    else if IsAggregatorOp(op) then
      var o :- OracleStep(c.oracle, now, op);
      Ok(On(w, c.(oracle := o)).(log := OracleLog(w.log, c.oracle, op)))
    else if IsKeeperOp(op) then
      var c' :- KeeperStep(c, now, op);
      Ok(On(w, c'))
    else if op.Buy? then BuyStep(w, op.who, op.key, op.pair)
    else if op.Claim? then ClaimStep(w, op.who, op.key)
    else if IsUpkeepOp(op) then
      var (p, b) :- PoolStep(c.pool, c.balances, now, op);
      Ok(On(w, c.(pool := p, balances := b)))
    else if IsOwnerOp(op) then
      var c' :- OwnerStep(c, now, op);
      Ok(On(w, c'))
    else if op.Gov? then
      var g :- GovStep(c.gov, now, op.gov);
      Ok(On(w, c.(gov := g)))
    else
      var (v, b) :- LpStep(c.vault, c.balances, now, op.lp);
      Ok(On(w, c.(vault := v, balances := b)))
  }

  // The host rolls back a transaction whose step fails.
  function Attempt(w: World, op: Op): World {
    match Step(w, op)
    case Ok(w') => w'
    case Err(_) => w
  }

  // --- accepted steps, party by party ---

  predicate EnvironmentMoves(w: World, op: Op, w': World) {
    && IsEnvironmentOp(op) && EnvironmentStep(w, op) == Ok(w')
    && w'.chain == w.chain.(oracle := w'.chain.oracle, balances := w'.chain.balances, gov := w'.chain.gov)
    && w'.chain.oracle == w.chain.oracle.(rows := w'.chain.oracle.rows)
    && w'.log == w.log.(poolGifts := w'.log.poolGifts, vaultGifts := w'.log.vaultGifts)
  }

  predicate AggregatorMoves(w: World, op: Op, w': World) {
    && IsAggregatorOp(op) && OracleStep(w.chain.oracle, w.now, op) == Ok(w'.chain.oracle)
    && w' == On(w, w.chain.(oracle := w'.chain.oracle)).(log := OracleLog(w.log, w.chain.oracle, op))
  }

  predicate KeeperMoves(w: World, op: Op, w': World) {
    && IsKeeperOp(op) && VaultUsable(w.chain.vault)
    && w' == On(w, w'.chain) && KeeperStep(w.chain, w.now, op) == Ok(w'.chain)
  }

  predicate BuyMoves(w: World, op: Op, w': World) {
    && op.Buy? && BuyStep(w, op.who, op.key, op.pair) == Ok(w')
    && w' == On(w, w'.chain).(log := w.log.(sales := w'.log.sales))
  }

  predicate ClaimMoves(w: World, op: Op, w': World) {
    && op.Claim? && ClaimStep(w, op.who, op.key) == Ok(w')
    && w' == On(w, w.chain.(pool := w'.chain.pool, balances := w'.chain.balances)).(log := w.log.(payments := w'.log.payments))
  }

  predicate UpkeepMoves(w: World, op: Op, w': World) {
    && IsUpkeepOp(op) && w' == On(w, w.chain.(pool := w'.chain.pool, balances := w'.chain.balances))
    && PoolStep(w.chain.pool, w.chain.balances, w.now, op) == Ok((w'.chain.pool, w'.chain.balances))
  }

  predicate OwnerMoves(w: World, op: Op, w': World) {
    && IsOwnerOp(op) && OwnerStep(w.chain, w.now, op) == Ok(w'.chain)
    && w' == On(w, w.chain.(ctrl := w'.chain.ctrl, vault := w.chain.vault.(ratio := w'.chain.vault.ratio)))
  }

  predicate GovMoves(w: World, op: Op, w': World) {
    && op.Gov? && w' == On(w, w.chain.(gov := w'.chain.gov))
    && GovStep(w.chain.gov, w.now, op.gov) == Ok(w'.chain.gov)
  }

  predicate LpMoves(w: World, op: Op, w': World) {
    && op.Lp? && VaultUsable(w.chain.vault)
    && w' == On(w, w.chain.(vault := w'.chain.vault, balances := w'.chain.balances))
    && LpStep(w.chain.vault, w.chain.balances, w.now, op.lp) == Ok((w'.chain.vault, w'.chain.balances))
  }

  // The step of the party that can make it.
  predicate Moves(w: World, op: Op, w': World) {
    if IsEnvironmentOp(op) then EnvironmentMoves(w, op, w')
    else if IsAggregatorOp(op) then AggregatorMoves(w, op, w')
    else if IsKeeperOp(op) then KeeperMoves(w, op, w')
    else if op.Buy? then BuyMoves(w, op, w')
    else if op.Claim? then ClaimMoves(w, op, w')
    else if IsUpkeepOp(op) then UpkeepMoves(w, op, w')
    else if IsOwnerOp(op) then OwnerMoves(w, op, w')
    else if op.Gov? then GovMoves(w, op, w')
    else LpMoves(w, op, w')
  }

  lemma EnvironmentSorts(w: World, op: Op, w': World)
    requires IsEnvironmentOp(op) && EnvironmentStep(w, op) == Ok(w')
    ensures EnvironmentMoves(w, op, w')
  {
    hide Transfer, Governance.LapseIndex;
  }

  lemma TravelerSorts(w: World, op: Op, w': World)
    requires (op.Buy? && BuyStep(w, op.who, op.key, op.pair) == Ok(w')) || (op.Claim? && ClaimStep(w, op.who, op.key) == Ok(w'))
    ensures if op.Buy? then BuyMoves(w, op, w') else ClaimMoves(w, op, w')
  {
    hide Controller.BuyInsurance, Pool.Claim;
  }

  lemma OwnerSorts(w: World, op: Op, c: Chain)
    requires IsOwnerOp(op) && OwnerStep(w.chain, w.now, op) == Ok(c)
    ensures OwnerMoves(w, op, On(w, c))
  {
  }

  lemma StepSorts(w: World, op: Op, w': World)
    requires Step(w, op) == Ok(w')
    ensures Moves(w, op, w')
  {
    hide EnvironmentStep, OracleStep, KeeperStep, BuyStep, ClaimStep, PoolStep, OwnerStep, GovStep, LpStep;
    hide EnvironmentMoves, BuyMoves, ClaimMoves, OwnerMoves, OracleLog;
    if IsEnvironmentOp(op) {
      EnvironmentSorts(w, op, w');
    } else if op.Buy? || op.Claim? {
      TravelerSorts(w, op, w');
    } else if IsOwnerOp(op) {
      OwnerSorts(w, op, w'.chain);
    } else if IsUpkeepOp(op) {
      var r := PoolStep(w.chain.pool, w.chain.balances, w.now, op).value;
      assert r == (r.0, r.1);
    } else if op.Lp? {
      var r := LpStep(w.chain.vault, w.chain.balances, w.now, op.lp).value;
      assert r == (r.0, r.1);
    }
  }

  lemma MoveSteps(w: World, op: Op, w': World)
    requires VaultUsable(w.chain.vault) && Moves(w, op, w')
    ensures Step(w, op) == Ok(w')
  {
    hide VaultUsable, EnvironmentStep, OracleStep, KeeperStep, BuyStep, ClaimStep, PoolStep, OwnerStep, GovStep, LpStep;
  }
}
