/** OracleAggregator as a contract: each entry point rewrites its own storage step by step
    and agrees with the state machine in module Oracle. */
module OracleContract {
  import opened Results
  import opened Types
  import opened ActiveSet
  import opened ActivePages
  import Oracle

  lemma AgedOutIgnoresList(o: Oracle.OracleState, active: seq<Key>, now: nat, k: Key)
    ensures Oracle.AgedOut(o.(active := active), now, k) == Oracle.AgedOut(o, now, k)
  {
  }

  lemma PruneKeysStep(o: Oracle.OracleState, now: nat, active: seq<Key>, window: seq<Key>, j: nat)
    requires j < |window|
    ensures Oracle.PruneKeys(o, now, active, window[j..])
         == Oracle.PruneKeys(o, now, if Oracle.AgedOut(o, now, window[j]) then SwapRemove(active, window[j]) else active,
                             window[j + 1..])
  {
    assert window[j..][1..] == window[j + 1..];
  }

  lemma PruneKeysDone(o: Oracle.OracleState, now: nat, active: seq<Key>)
    ensures Oracle.PruneKeys(o, now, active, []) == active
  {
  }

  class OracleAggregator {
    var rows: map<Key, FlightData>
    var pending: nat
    var pruneCursor: nat
    var sales: map<Key, nat>
    const active: PagedSet

    ghost predicate Valid() reads this, active {
      active.Valid() && active.Intact()
    }

    ghost function State(): Oracle.OracleState
      reads this, active
      requires Valid()
    {
      Oracle.OracleState(rows, active.Contents(), pending, pruneCursor, sales)
    }

    constructor ()
      ensures Valid() && fresh(active)
      ensures State() == Oracle.OracleState(map[], [], 0, 0, map[])
    {
      rows, pending, pruneCursor, sales := map[], 0, 0, map[];
      active := new PagedSet();
    }

    // --- queries ---

    method GetFlightData(k: Key) returns (data: FlightData)
      requires Valid()
      ensures data == Oracle.GetFlightData(State(), k)
    {
      data := if k in rows then rows[k] else Oracle.BLANK;
    }

    method IsFlightListed(k: Key) returns (listed: bool)
      requires Valid()
      ensures listed <==> k in State().active
    {
      listed := active.Contains(k);
    }

    method GetActiveFlightsPage(offset: nat, limit: nat) returns (keys: seq<Key>)
      requires Valid()
      ensures keys == State().active[Min(offset, |State().active|)..Min(offset + limit, |State().active|)]
    {
      keys := active.GetRange(offset, limit);
    }

    // --- the pending-outcome counter saturates at both ends ---

    method IncrementPending()
      modifies this`pending
      ensures pending == Oracle.Increment(old(pending))
    {
      if pending >= U64_MAX { pending := U64_MAX; } else { pending := pending + 1; }
    }

    method DecrementPending()
      modifies this`pending
      ensures pending == Oracle.Decrement(old(pending))
    {
      if pending > 0 { pending := pending - 1; }
    }

    // --- the authorized oracle ---

    method OpenSale(now: nat, k: Key, expiresAt: nat) returns (r: Result<()>)
      requires Valid()
      modifies this
      ensures Valid() && Agrees(r, Oracle.OpenSale(old(State()), now, k, expiresAt), State())
    {
      var latest := now + SALE_AUTH_MAX_VALIDITY;
      if expiresAt <= now || expiresAt > latest || expiresAt > k.date { return Err(InvalidTimestamp); }
      if k in rows && !rows[k].status.NotInitiated? && !rows[k].status.Active? { return Err(InvalidTransition); }
      sales := sales[k := expiresAt];
      r := Ok(());
    }

    method CloseSale(k: Key)
      requires Valid()
      modifies this
      ensures Valid() && State() == Oracle.CloseSale(old(State()), k)
    {
      if k !in sales {
        assert sales - {k} == sales;
        return;
      }
      sales := sales - {k};
    }

    method SetEstimatedArrival(k: Key, eta: nat) returns (r: Result<()>)
      requires Valid()
      modifies this
      ensures Valid() && Agrees(r, Oracle.SetEstimatedArrival(old(State()), k, eta), State())
    {
      var latest := k.date + MAX_SCHEDULED_ARRIVAL_AFTER_DATE;
      if eta == 0 || eta < k.date || eta > latest { return Err(InvalidTimestamp); }
      if k !in rows { return Err(FlightNotRegistered); }
      var data := rows[k];
      if !Oracle.IsValidTransition(data.status, FlightStatus.Active) { return Err(InvalidTransition); }
      data := data.(status := FlightStatus.Active);
      data := data.(eta := eta);
      rows := rows[k := data];
      r := Ok(());
    }

    method SetLanded(k: Key, ata: nat) returns (r: Result<()>)
      requires Valid()
      modifies this
      ensures Valid() && Agrees(r, Oracle.SetLanded(old(State()), k, ata), State())
    {
      var latest := k.date + MAX_ACTUAL_ARRIVAL_AFTER_DATE;
      if ata == 0 || ata < k.date || ata > latest { return Err(InvalidTimestamp); }
      if k !in rows { return Err(FlightNotRegistered); }
      var data := rows[k];
      if !Oracle.IsValidTransition(data.status, Landed) { return Err(InvalidTransition); }
      data := data.(status := Landed);
      data := data.(ata := ata);
      rows := rows[k := data];
      IncrementPending();
      r := Ok(());
    }

    method SetCancelled(k: Key) returns (r: Result<()>)
      requires Valid()
      modifies this
      ensures Valid() && Agrees(r, Oracle.SetCancelled(old(State()), k), State())
    {
      sales := sales - {k};
      if k in rows {
        var data := rows[k];
        if !Oracle.IsValidTransition(data.status, Cancelled) { return Err(InvalidTransition); }
        data := data.(status := Cancelled);
        rows := rows[k := data];
        IncrementPending();
      } else {
        rows := rows[k := FlightData(Cancelled, 0, 0, 0)];
      }
      r := Ok(());
    }

    // --- the controller ---

    method RegisterFlight(k: Key) returns (r: Result<()>)
      requires Valid()
      modifies this, active
      ensures Valid() && Agrees(r, Oracle.RegisterFlight(old(State()), k), State())
    {
      if k in rows { return Ok(()); }
      rows := rows[k := FlightData(NotInitiated, 0, 0, 0)];
      if active.count >= MAX_ACTIVE_FLIGHTS { return Err(ActiveFlightListFull); }
      r := active.Add(k);
    }

    method SetToBeSettled(now: nat, k: Key, status: FlightStatus) returns (r: Result<()>)
      requires Valid()
      modifies this
      ensures Valid() && Agrees(r, Oracle.SetToBeSettled(old(State()), now, k, status), State())
    {
      if !status.ToBeSettledOnTime? && !status.ToBeSettledDelayed? && !status.ToBeSettledCancelled? {
        return Err(InvalidSettlementStatus);
      }
      if k !in rows { return Err(FlightNotRegistered); }
      var data := rows[k];
      if !Oracle.IsValidTransition(data.status, status) { return Err(InvalidTransition); }
      if data.status.NotInitiated? {
        if now < k.date + STALE_TIMEOUT { return Err(StaleTimeoutNotReached); }
        IncrementPending();
      }
      if data.status.Active? {
        if now < data.eta + ACTIVE_TIMEOUT { return Err(ActiveTimeoutNotReached); }
        IncrementPending();
      }
      rows := rows[k := data.(status := status)];
      r := Ok(());
    }

    method SetSettled(now: nat, k: Key) returns (r: Result<()>)
      requires Valid()
      modifies this
      ensures Valid() && Agrees(r, Oracle.SetSettled(old(State()), now, k), State())
    {
      if k !in rows { return Err(FlightNotRegistered); }
      var data := rows[k];
      if !Oracle.IsValidTransition(data.status, Settled) { return Err(InvalidTransition); }
      data := data.(status := Settled);
      data := data.(settledAt := now);
      rows := rows[k := data];
      DecrementPending();
      r := Ok(());
    }

    // --- anyone, and the owner ---

    method IsAgedOut(now: nat, k: Key) returns (agedOut: bool)
      requires Valid()
      ensures agedOut == Oracle.AgedOut(State(), now, k)
    {
      if k !in rows { return false; }
      var data := rows[k];
      var age := if now < data.settledAt then 0 else now - data.settledAt;
      agedOut := data.status.Settled? && data.settledAt != 0 && age >= SETTLED_RETENTION;
    }

    // Removals are by key on the live set.
    method PruneWindow(now: nat, window: seq<Key>)
      requires Valid()
      modifies active
      ensures Valid() && active.Contents() == Oracle.PruneKeys(old(State()), now, old(active.Contents()), window)
    {
      hide Oracle.AgedOut, Oracle.PruneKeys, SwapRemove, Shape, Flat, Stored, Indexed, NoDuplicates;
      ghost var o, before := State(), active.Contents();
      var j := 0;
      assert window[0..] == window;
      while j < |window|
        invariant j <= |window| && Valid() && State() == o.(active := active.Contents())
        invariant Oracle.PruneKeys(o, now, before, window) == Oracle.PruneKeys(o, now, active.Contents(), window[j..])
      {
        var k := window[j];
        AgedOutIgnoresList(o, active.Contents(), now, k);
        PruneKeysStep(o, now, active.Contents(), window, j);
        var agedOut := IsAgedOut(now, k);
        if agedOut {
          var _ := active.Remove(k);
        }
        j := j + 1;
      }
      assert window[j..] == [];
      PruneKeysDone(o, now, active.Contents());
    }

    // The window is read before the first removal.
    method PruneSettled(now: nat)
      requires Valid()
      modifies this, active
      ensures Valid() && State() == Oracle.PruneSettled(old(State()), now)
    {
      hide Oracle.PruneKeys;
      var len := active.count;
      if len == 0 { return; }
      var cursor := pruneCursor;
      if cursor >= len { cursor := 0; }
      var stop: nat := Min(cursor + MAX_PRUNE_BATCH, len);
      var window := active.GetRange(cursor, stop - cursor);
      assert window == Window(State().active, pruneCursor, MAX_PRUNE_BATCH);
      PruneWindow(now, window);
      pruneCursor := if stop >= len then 0 else stop;
    }

    method EvictMissingFlight(k: Key, outcomePending: bool) returns (r: Result<()>)
      requires Valid()
      modifies this, active
      ensures Valid() && Agrees(r, Oracle.EvictMissingFlight(old(State()), k, outcomePending), State())
    {
      if k in rows { return Err(FlightDataStillPresent); }
      var removed := active.Remove(k);
      if !removed { return Err(FlightNotInList); }
      if outcomePending { DecrementPending(); }
      r := Ok(());
    }
  }
}
