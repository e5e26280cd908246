/** What a step may change: statuses move forward only, recorded facts stay, tokens only
    move, and the vault's reserve is carried along. */
module Changes {
  import opened Results
  import opened Types
  import opened Token
  import opened MapSums
  import Oracle
  import Pool
  import Vault
  import opened Controller
  import opened World
  import opened Invariant

  // --- the status machine as an order ---

  function Rank(s: FlightStatus): nat {
    match s
    case NotInitiated => 0
    case Active => 1
    case Landed => 2
    case Cancelled => 2
    case ToBeSettledOnTime => 3
    case ToBeSettledDelayed => 3
    case ToBeSettledCancelled => 3
    case Settled => 4
  }

  // The statuses still ahead of `s`, written out.
  predicate Onward(s: FlightStatus, t: FlightStatus) {
    || s == t
    || match s
       case NotInitiated => true
       case Active => !t.NotInitiated?
       case Landed => t.ToBeSettledOnTime? || t.ToBeSettledDelayed? || t.Settled?
       case Cancelled => t.ToBeSettledCancelled? || t.Settled?
       case Settled => false
       case _ => t.Settled?
  }

  predicate IsPath(path: seq<FlightStatus>) {
    |path| > 0 && forall i :: 0 <= i < |path| - 1 ==> Oracle.IsValidTransition(path[i], path[i + 1])
  }

  lemma {:induction false} PathGoesOnward(path: seq<FlightStatus>)
    requires IsPath(path)
    ensures Onward(path[0], path[|path| - 1])
    ensures Rank(path[|path| - 1]) >= Rank(path[0]) + |path| - 1
  {
    if |path| > 1 {
      assert Oracle.IsValidTransition(path[0], path[1]);
      var rest := path[1..];
      forall i | 0 <= i < |rest| - 1 ensures Oracle.IsValidTransition(rest[i], rest[i + 1]) {
        var j := i + 1;
        assert rest[i] == path[j] && rest[i + 1] == path[j + 1];
      }
      PathGoesOnward(rest);
    }
  }

  function PathBetween(s: FlightStatus, t: FlightStatus): seq<FlightStatus> {
    if s == t then [s]
    else if Oracle.IsValidTransition(s, t) then [s, t]
    else match t
      case Landed => [s, FlightStatus.Active, t]
      case ToBeSettledDelayed => (if s.NotInitiated? then [s, FlightStatus.Active] else [s]) + [Landed, t]
      case ToBeSettledCancelled => [s, Cancelled, t]
      case _ => if s.Cancelled? then [s, ToBeSettledCancelled, t] else [s, ToBeSettledOnTime, t]
  }

  /** The order is exactly reachability along accepted edges. */
  lemma OnwardIsReachability(s: FlightStatus, t: FlightStatus)
    ensures Onward(s, t) <==> exists path :: IsPath(path) && path[0] == s && path[|path| - 1] == t
  {
    if Onward(s, t) {
      var path := PathBetween(s, t);
      assert IsPath(path) && path[0] == s && path[|path| - 1] == t;
    } else if path :| IsPath(path) && path[0] == s && path[|path| - 1] == t {
      PathGoesOnward(path);
    }
  }

  // --- one flight between two moments of a run ---

  predicate BucketEvolves(p: Pool.PoolState, p': Pool.PoolState, k: Key) {
    && Pool.At(p.buyers, k) <= Pool.At(p'.buyers, k)
    && Pool.At(p.claimed, k) <= Pool.At(p'.claimed, k)
    && (k in p.configs ==> k in p'.configs && ConfigEvolves(p.configs[k], p'.configs[k]))
  }

  // Terms are locked at the first sale; a closed bucket sells nothing and keeps its deadline.
  predicate ConfigEvolves(c: FlightConfig, d: FlightConfig) {
    && d.premium == c.premium && d.payoff == c.payoff && d.delayHours == c.delayHours
    && c.buyerCount <= d.buyerCount && c.claimedCount <= d.claimedCount
    && (!c.status.Open? ==> d.status == c.status && d.claimExpiry == c.claimExpiry && d.buyerCount == c.buyerCount)
  }

  predicate RowEvolves(w: World, w': World, k: Key) {
    k in w.chain.pool.configs && k !in w'.log.evicted ==> Onward(RowOf(w, k).status, RowOf(w', k).status)
  }

  // A reported outcome stands, and so does the estimate it is compared with.
  predicate OutcomeEvolves(w: World, w': World, k: Key) {
    && (k in w.log.outcomes ==>
          k in w'.log.outcomes && w'.log.outcomes[k] == w.log.outcomes[k] && (k in w'.log.etas ==> k in w.log.etas))
    && (k in w.log.etas && (k in w.log.outcomes || k !in w'.log.evicted) ==>
          k in w'.log.etas && w'.log.etas[k] == w.log.etas[k])
  }

  predicate FlightEvolves(w: World, w': World, k: Key) {
    BucketEvolves(w.chain.pool, w'.chain.pool, k) && RowEvolves(w, w', k) && OutcomeEvolves(w, w', k)
  }

  ghost predicate Evolves(w: World, w': World) {
    && w.now <= w'.now && w.log.evicted <= w'.log.evicted
    && w.log.sales <= w'.log.sales && w.log.payments <= w'.log.payments
    && (forall k :: FlightEvolves(w, w', k))
  }

  lemma EvolvesTransitive(w1: World, w2: World, w3: World)
    requires Evolves(w1, w2) && Evolves(w2, w3)
    ensures Evolves(w1, w3)
  {
    forall k ensures FlightEvolves(w1, w3, k) {
      assert FlightEvolves(w1, w2, k) && FlightEvolves(w2, w3, k);
    }
  }

  lemma SamePlaceEvolves(w: World, w': World)
    requires w'.now >= w.now && w'.chain.pool == w.chain.pool && w'.log == w.log
    requires w'.chain.oracle.rows == w.chain.oracle.rows && w'.archive == w.archive
    ensures Evolves(w, w')
  {
  }

  // --- tokens ---

  ghost function Tokens(b: Balances): int {
    Total(b, Id)
  }

  lemma BalanceSet(b: Balances, a: Address, n: nat)
    ensures Tokens(b[a := n]) == Tokens(b) - BalanceOf(b, a) + n
  {
    hide Total;
    TotalPut(b, Id, a, n);
  }

  lemma TransferConserves(b: Balances, from: Address, to: Address, amount: int)
    requires Transfer(b, from, to, amount).Ok?
    ensures Tokens(Transfer(b, from, to, amount).value) == Tokens(b)
  {
    hide Tokens;
    var b1: Balances := b[from := BalanceOf(b, from) - amount];
    BalanceSet(b, from, BalanceOf(b, from) - amount);
    BalanceSet(b1, to, BalanceOf(b1, to) + amount);
  }

  // Money that moved between pool and vault only.
  lemma PairConserves(b: Balances, b': Balances, paid: int)
    requires BalanceOf(b', PoolAddress) == BalanceOf(b, PoolAddress) - paid
    requires BalanceOf(b', VaultAddress) == BalanceOf(b, VaultAddress) + paid
    requires b' == b[PoolAddress := BalanceOf(b', PoolAddress)][VaultAddress := BalanceOf(b', VaultAddress)]
    ensures Tokens(b') == Tokens(b)
  {
    hide Tokens;
    var b1: Balances := b[PoolAddress := BalanceOf(b', PoolAddress)];
    BalanceSet(b, PoolAddress, BalanceOf(b', PoolAddress));
    BalanceSet(b1, VaultAddress, BalanceOf(b', VaultAddress));
  }

  // --- the reserve for locked collateral ---

  predicate ReserveMet(v: Vault.VaultState) {
    v.locked >= 0 && v.tma >= Vault.RequiredReserve(v.locked, v.ratio)
  }

  // Releasing collateral lowers the reserve by at least as much.
  lemma ReserveFallsWithCollateral(locked: int, released: int, ratio: nat)
    requires 0 <= released <= locked && ratio >= MIN_SOLVENCY_RATIO
    ensures Vault.RequiredReserve(locked - released, ratio) <= Vault.RequiredReserve(locked, ratio) - released
  {
    assert (locked - released) * ratio == locked * ratio - released * ratio;
    Vault.Monotone'(100, ratio, released);
  }

  // A vault that pays out no more than the collateral it releases keeps its reserve.
  lemma ReleaseKeepsReserve(v: Vault.VaultState, v': Vault.VaultState, released: int)
    requires ReserveMet(v) && v.ratio >= MIN_SOLVENCY_RATIO && 0 <= released <= v.locked
    requires v'.ratio == v.ratio && v'.locked == v.locked - released && v'.tma >= v.tma - released
    ensures ReserveMet(v')
  {
    ReserveFallsWithCollateral(v.locked, released, v.ratio);
  }

  predicate ReserveCarried(v: Vault.VaultState, v': Vault.VaultState) {
    v'.ratio == v.ratio && (ReserveMet(v) ==> ReserveMet(v'))
  }

  // --- what every keeper call keeps ---

  // Buckets of unlisted flights that have a row are not touched.
  ghost predicate RestingKept(w: World, w': World) {
    forall k :: k in w.chain.pool.configs && !Listed(w, k) && k in w.chain.oracle.rows
      ==> k in w'.chain.pool.configs && w'.chain.pool.configs[k] == w.chain.pool.configs[k]
  }

  // The oracle keeps its listing and its set of rows; the controller its parameters.
  ghost predicate KeeperFrame(w: World, w': World) {
    && w' == On(w, w'.chain) && w'.chain.gov == w.chain.gov
    && w'.chain.ctrl == w.chain.ctrl.(distributed := w'.chain.ctrl.distributed, classifyCursor := w'.chain.ctrl.classifyCursor,
                                      settleCursor := w'.chain.ctrl.settleCursor)
    && w'.chain.oracle == w.chain.oracle.(rows := w'.chain.oracle.rows, pending := w'.chain.oracle.pending)
    && w'.chain.oracle.rows.Keys == w.chain.oracle.rows.Keys
  }

  ghost predicate KeeperKeeps(w: World, w': World) {
    && KeeperFrame(w, w') && RestingKept(w, w') && Evolves(w, w')
    && Tokens(w'.chain.balances) == Tokens(w.chain.balances)
    && ReserveCarried(w.chain.vault, w'.chain.vault)
  }

  lemma KeeperTransitive(w1: World, w2: World, w3: World)
    requires KeeperKeeps(w1, w2) && KeeperKeeps(w2, w3)
    ensures KeeperKeeps(w1, w3)
  {
    EvolvesTransitive(w1, w2, w3);
    hide Evolves, Tokens, ReserveMet;
  }

  // Moving a cursor, or nothing.
  lemma CursorKept(w: World, classify: nat, settle: nat)
    ensures KeeperKeeps(w, On(w, w.chain.(ctrl := w.chain.ctrl.(classifyCursor := classify, settleCursor := settle))))
  {
    hide Tokens;
    SamePlaceEvolves(w, On(w, w.chain.(ctrl := w.chain.ctrl.(classifyCursor := classify, settleCursor := settle))));
  }

  lemma NothingKept(w: World)
    ensures KeeperKeeps(w, w)
  {
    CursorKept(w, w.chain.ctrl.classifyCursor, w.chain.ctrl.settleCursor);
    assert w.chain.ctrl.(classifyCursor := w.chain.ctrl.classifyCursor, settleCursor := w.chain.ctrl.settleCursor) == w.chain.ctrl;
  }
}
