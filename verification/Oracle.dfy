/** OracleAggregator: what each entry point does to the stored flight rows, the
    active set, the pending-outcome counter and the sale authorizations. */
module Oracle {
  import opened Results
  import opened Types
  import opened ActiveSet

  datatype OracleState = OracleState(
    rows: map<Key, FlightData>,
    active: seq<Key>,
    pending: nat,
    pruneCursor: nat,
    sales: map<Key, nat>)

  // Forward-only state machine: the accepted edges.
  predicate IsValidTransition(from: FlightStatus, to: FlightStatus) {
    match from
    case NotInitiated => to.Active? || to.Cancelled? || to.ToBeSettledOnTime?
    case Active => to.Landed? || to.Cancelled? || to.ToBeSettledOnTime?
    case Landed => to.ToBeSettledOnTime? || to.ToBeSettledDelayed?
    case Cancelled => to.ToBeSettledCancelled?
    case ToBeSettledOnTime => to.Settled?
    case ToBeSettledDelayed => to.Settled?
    case ToBeSettledCancelled => to.Settled?
    case Settled => false
  }

  function Increment(pending: nat): nat {
    if pending >= U64_MAX then U64_MAX else pending + 1
  }

  function Decrement(pending: nat): nat {
    if pending == 0 then 0 else pending - 1
  }

  const BLANK: FlightData := FlightData(NotInitiated, 0, 0, 0)

  // A missing row reads as a blank one.
  function GetFlightData(o: OracleState, k: Key): FlightData {
    if k in o.rows then o.rows[k] else BLANK
  }

  predicate IsSaleOpen(o: OracleState, now: nat, k: Key) {
    k in o.sales && now < o.sales[k]
  }

  function OpenSale(o: OracleState, now: nat, k: Key, expiresAt: nat): Result<OracleState> {
    var _ :- Need(now < expiresAt <= now + SALE_AUTH_MAX_VALIDITY && expiresAt <= k.date, InvalidTimestamp);
    var _ :- Need(k in o.rows ==> o.rows[k].status.NotInitiated? || o.rows[k].status.Active?, InvalidTransition);
    Ok(o.(sales := o.sales[k := expiresAt]))
  }

  function CloseSale(o: OracleState, k: Key): OracleState {
    o.(sales := o.sales - {k})
  }

  function SetEstimatedArrival(o: OracleState, k: Key, eta: nat): Result<OracleState> {
    var _ :- Need(eta != 0 && k.date <= eta <= k.date + MAX_SCHEDULED_ARRIVAL_AFTER_DATE, InvalidTimestamp);
    var _ :- Need(k in o.rows, FlightNotRegistered);
    var data := o.rows[k];
    var _ :- Need(IsValidTransition(data.status, FlightStatus.Active), InvalidTransition);
    Ok(o.(rows := o.rows[k := data.(status := FlightStatus.Active, eta := eta)]))
  }

  function SetLanded(o: OracleState, k: Key, ata: nat): Result<OracleState> {
    var _ :- Need(ata != 0 && k.date <= ata <= k.date + MAX_ACTUAL_ARRIVAL_AFTER_DATE, InvalidTimestamp);
    var _ :- Need(k in o.rows, FlightNotRegistered);
    var data := o.rows[k];
    var _ :- Need(IsValidTransition(data.status, Landed), InvalidTransition);
    Ok(o.(rows := o.rows[k := data.(status := Landed, ata := ata)], pending := Increment(o.pending)))
  }

  // A flight nobody registered gets a tombstone: neither listed nor counted.
  function SetCancelled(o: OracleState, k: Key): Result<OracleState> {
    var closed := CloseSale(o, k);
    if k in o.rows then
      var data := o.rows[k];
      var _ :- Need(IsValidTransition(data.status, Cancelled), InvalidTransition);
      Ok(closed.(rows := o.rows[k := data.(status := Cancelled)], pending := Increment(o.pending)))
    else
      Ok(closed.(rows := o.rows[k := BLANK.(status := Cancelled)]))
  }

  function RegisterFlight(o: OracleState, k: Key): Result<OracleState> {
    if k in o.rows then Ok(o)
    else
      var _ :- Need(|o.active| < MAX_ACTIVE_FLIGHTS, ActiveFlightListFull);
      var _ :- Need(k !in o.active, EntryAlreadyInActiveSet);
      Ok(o.(rows := o.rows[k := BLANK], active := o.active + [k]))
  }

  // A void is admitted only past its timeout and is itself a new outcome.
  function SetToBeSettled(o: OracleState, now: nat, k: Key, status: FlightStatus): Result<OracleState> {
    var _ :- Need(Classified(status), InvalidSettlementStatus);
    var _ :- Need(k in o.rows, FlightNotRegistered);
    var data := o.rows[k];
    var _ :- Need(IsValidTransition(data.status, status), InvalidTransition);
    var _ :- Need(data.status.NotInitiated? ==> now >= k.date + STALE_TIMEOUT, StaleTimeoutNotReached);
    var _ :- Need(data.status.Active? ==> now >= data.eta + ACTIVE_TIMEOUT, ActiveTimeoutNotReached);
    var isVoid := data.status.NotInitiated? || data.status.Active?;
    Ok(o.(rows := o.rows[k := data.(status := status)],
          pending := if isVoid then Increment(o.pending) else o.pending))
  }

  function SetSettled(o: OracleState, now: nat, k: Key): Result<OracleState> {
    var _ :- Need(k in o.rows, FlightNotRegistered);
    var data := o.rows[k];
    var _ :- Need(IsValidTransition(data.status, Settled), InvalidTransition);
    Ok(o.(rows := o.rows[k := data.(status := Settled, settledAt := now)], pending := Decrement(o.pending)))
  }

  predicate AgedOut(o: OracleState, now: nat, k: Key) {
    k in o.rows
    && var data := o.rows[k];
       data.status.Settled? && data.settledAt != 0
       && (if now < data.settledAt then 0 else now - data.settledAt) >= SETTLED_RETENTION
  }

  // Removal is by key against the live set; `window` is a snapshot.
  function PruneKeys(o: OracleState, now: nat, active: seq<Key>, window: seq<Key>): seq<Key>
    decreases |window|
  {
    if window == [] then active
    else PruneKeys(o, now, if AgedOut(o, now, window[0]) then SwapRemove(active, window[0]) else active, window[1..])
  }

  function PruneSettled(o: OracleState, now: nat): OracleState {
    if |o.active| == 0 then o
    else
      o.(active := PruneKeys(o, now, o.active, Window(o.active, o.pruneCursor, MAX_PRUNE_BATCH)),
         pruneCursor := NextCursor(o.pruneCursor, MAX_PRUNE_BATCH, |o.active|))
  }

  function EvictMissingFlight(o: OracleState, k: Key, outcomePending: bool): Result<OracleState> {
    var _ :- Need(k !in o.rows, FlightDataStillPresent);
    var _ :- Need(k in o.active, FlightNotInList);
    Ok(o.(active := SwapRemove(o.active, k),
          pending := if outcomePending then Decrement(o.pending) else o.pending))
  }
}
