# Parametric flight insurance: a verified model

Four contracts sell, settle and pay flight-delay policies. The Controller takes purchases
and runs the keeper sweeps; the OracleAggregator keeps one forward-only status row per
flight; the FlightPoolManager escrows premiums and pays claims per flight id and date; the
GovernanceModule owns routes and terms; and the RiskVault holds the underwriters' capital.
They keep redundant state that must agree in every reachable state and that no single
check compares. This project models all of it as one transition system and proves that it
does agree, for every run.

## How it is organised

- **Values.** `Types`, `Results`, `Token`, `Oracle`, `Pool`, `Governance`, `Vault`,
  `Approvals` and `Controller` say what each entry point does to the stored state, with its
  error codes in the source's order. `World` makes every entry point, the passage of time,
  archival of rows and plain token transfers one step each.
- **Invariant.** `Invariant` states what all contracts agree on, and `Changes` how two states
  of a run may differ. `RowSteps`, `SweepSteps`, `SettleSteps`, `BuySteps`, `PoolSteps`,
  `GovSteps`, `VaultQueues`, `LpSteps`, `Keepers` and `Preservation` prove that each step
  keeps the invariant; `Runs` lifts it to every run from deployment.
- **Calls.** `EntryPoints` and `GovSteps` say of each call, with its limits written out, when it
  is accepted and which fields it leaves how; `QueueAccounts` and `Holdings` say it person by
  person. These statements stand apart from the value-level functions, so a wrong gate or a
  swapped payee there contradicts one of them.
- **Theorems.** `Guarantees` (what each party can rely on), `History` (what never changes),
  `Reserve` (solvency), `Conservation` (tokens), `Drain` (bounded progress of the sweeps),
  `Confluence` (batching), `ListingOrder` and `SwapRemovals` (when the order of settlements
  shows), `Pruning`, `Eviction`, `Traces` (which earlier calls explain a sale, a settlement or a
  purchase under a route), `ApprovalRuns` and `Lossless` (what holds with no undertaking);
  `Scenario` is one run in which every stage happens, and `Witnesses` holds reachable states
  that miss a condition.
- **Contracts.** `ActivePages`, `TokenContract`, `OracleContract`, `PoolContract`,
  `GovernanceContract`, `VaultContract` and `ControllerContract` are classes with the
  contracts' fields, written step by step with the contracts' loops; each method agrees with
  its value-level function. `Host` submits steps to these objects and rolls failures back, so
  the theorems about runs are theorems about the objects.
- **Amounts.** `Amounts` is the decimal printer and parser of the dapp.

Run `dafny verify dfyconfig.toml`.

## Assumptions

- Every field of `Log` is history; no contract reads it. Reported times and outcomes are taken
  from the arguments of accepted calls, not from what the contracts stored. Plain transfers into
  the pool and the vault are recorded too, so that the two balance identities are equalities.
- An accepted step is admissible (`Invariant.Admissible`) when an eviction carries the right
  flag, no cancellation is written over the archived row of a sold, unevicted flight, no outcome is
  written to a row restored after its flight was evicted, and no route is listed while another
  stored route carries its flight id. Operators can check all four before the call; the
  contracts do not. Attempts that the contracts refuse are unrestricted. `Lossless` proves that
  all four hold by themselves as long as the ledger archives no row and drops no index entry;
  `Eviction` and `GovSteps` give the exact conditions otherwise, and `Witnesses` what goes
  wrong.
- The ledger may archive any row of the oracle and bring it back, and may drop entries of the
  governance index, at any time. Routes and retirement markers do not lapse.
- The functions that drain the vault's queues require a solvent vault and positive queued
  amounts. Both are part of the invariant, so no reachable state violates them. In any other
  state `World.Step` refuses every call.
- Governance's payoff cap is not negative: it starts at zero and its setter refuses less.
- Where code and comments disagree the code is followed: the settlement batch is 8, and
  settled entries are pruned after 7 days.

## Model

| member | source | states |
|---|---|---|
| Host.Ledger.Submit | contracts/controller/src/purchase.rs:20-261 | One transaction, a purchase like any other entry point, is exactly one attempt of the transition system: it commits the step or leaves every field as it was, and the invariant of all contracts stands afterwards |
| Runs.InitialInv | contracts/controller/src/admin.rs:58-104 | The state left by the constructors satisfies the invariant |
| Preservation.StepKeeps | contracts/controller/src/settle.rs:290-534 | Every accepted step of every contract and of the environment keeps the whole invariant: row and bucket coherence, exact pending counter, pool and vault token identities, exact collateral, solvency, sale, payment and route history |
| Runs.ReachableInv | contracts/controller/src/purchase.rs:20-261 | The invariant holds after any finite run from deployment, with failed steps rolled back |
| Guarantees.OneRoutePerBucket | contracts/governance_module/src/routes.rs:41-105 | All buyers of one flight id and date bought under the same origin and destination, by the 160-day retirement marker and the 90-day booking horizon, also when index entries lapse, if listings then have no rival |
| Lossless.NoUndertakingNeeded | contracts/controller/src/settle.rs:25-648 | As long as nothing is archived and no index entry lapses, every run from deployment, whatever is attempted, ends in a reachable state: all guarantees hold with no undertaking of the operators |
| Lossless.OneRouteByIndexAlone | contracts/governance_module/src/routes.rs:41-105 | In runs in which no index entry lapses the contract's own index check alone keeps every bucket to one route |
| Lossless.StepKeepsOwned | contracts/governance_module/src/routes.rs:65-398 | Every step but a lapse leaves each stored route the owner of its flight id in the index |
| Lossless.OwnedMeansGuarded | contracts/governance_module/src/routes.rs:82-92 | With all index entries in place an accepted listing has no rival |
| Guarantees.DeadlineWithinProof | contracts/flight_pool_manager/src/settle.rs:125-138 | For every recorded sale, the claim deadline is at most 90 days after the date and so at most 180 days after the purchase |
| Guarantees.PaidNothingOrPayoff | contracts/flight_pool_manager/src/claim.rs:35-68 | Over any run a traveler is paid zero or exactly the locked payoff per flight, and the payoff only as a buyer of a bucket that pays |
| Guarantees.CountsMatchSets | contracts/flight_pool_manager/src/lifecycle.rs:122-138 | buyer_count is the number of buyers, claims are a subset of buyers, claimed_count their number until the sweep |
| Guarantees.SettlementMatchesOutcome | contracts/controller/src/settle.rs:155-256 | On the times the oracle reported, as its calls gave them: a bucket pays only after a reported cancellation or an arrival at least delay_hours after the reported estimate; every other closing is an arrival before that, a void 14 days after the estimate or the date with no outcome reported, or an eviction |
| Traces.SettlementExplained | contracts/controller/src/settle.rs:155-256 | Read off the calls of a run from deployment: delayed after accepted calls set_estimated_arrival(eta) and set_landed(ata) with ata >= eta + delay_hours; cancelled after an accepted set_cancelled; on time after a landing before that, or when no outcome was reported by any accepted call, or for an evicted flight |
| EntryPoints.EstimateStored | contracts/oracle_aggregator/src/lifecycle.rs:110-156 | set_estimated_arrival is accepted if and only if the row is NotInitiated and the time lies within three days of the date; it stores exactly that time, and no other field, row, counter or list changes |
| EntryPoints.LandingStored | contracts/oracle_aggregator/src/lifecycle.rs:158-231 | set_landed is accepted if and only if the row is Active and the time lies within 30 days of the date; it stores exactly that time, keeps the estimate, and one outcome more is pending |
| EntryPoints.CancellationStored | contracts/oracle_aggregator/src/lifecycle.rs:233-276 | set_cancelled is refused only for a flight with an outcome; it closes that sale and no other, and counts only a flight that has a row |
| EntryPoints.SaleWindows | contracts/oracle_aggregator/src/lifecycle.rs:44-108 | open_sale is accepted if and only if the end lies ahead, within a day and not past the date, and the flight has no outcome; it stores exactly that end; close_sale drops it; other windows stay |
| EntryPoints.VerdictStored | contracts/oracle_aggregator/src/lifecycle.rs:317-392 | set_to_be_settled is accepted exactly on the edges of the status machine, a void only past 14 days; times are kept and only a void is one more outcome |
| EntryPoints.SettlementStored | contracts/oracle_aggregator/src/lifecycle.rs:401-422 | set_settled is accepted exactly for a verdict; it stores the time and takes one outcome off the count |
| EntryPoints.EvictionTakes | contracts/oracle_aggregator/src/admin.rs:117-145 | An eviction is accepted if and only if the flight is listed without a row; it delists that flight alone |
| Guarantees.BarrierExact | contracts/oracle_aggregator/src/storage.rs:99-122 | The pending counter is positive exactly when some listed flight is public and unsettled |
| RowSteps.PendingBounded | contracts/oracle_aggregator/src/storage.rs:99-108 | The counter never exceeds the number of listed flights, far below the value where the increment saturates |
| RowSteps.PendingPositive | contracts/oracle_aggregator/src/storage.rs:113-122 | The increment always adds one, and the counter is positive whenever the settlement of an unevicted flight or an eviction that rightly claims a pending outcome is accepted, so the decrement always takes one |
| Guarantees.TombstonesUnlisted | contracts/oracle_aggregator/src/lifecycle.rs:259-272 | The row of a cancelled flight nobody bought is Cancelled, unlisted and uncounted in every reachable state |
| Guarantees.OracleAndPoolAgree | contracts/controller/src/settle.rs:443-534 | Outside eviction a sold flight is Settled at the oracle exactly when its bucket is closed; otherwise both contracts list it |
| Guarantees.ClassifiedFlightSettles | contracts/controller/src/settle.rs:369-534 | Settling any listed classified flight commits, closes its bucket with the matching status, settles the row and delists the bucket: no config-missing, not-active, not-funded or underflow exit |
| Guarantees.SettlementMoves | contracts/controller/src/settle.rs:424-534 | Settling it changes exactly this: premiums of all buyers to the vault, or the top-up from vault to pool and claims open until the earlier of now + claim window and 90 days after the date; collateral of all buyers released; row Settled at that time; one outcome less pending; payoffs counted |
| Guarantees.ClassificationExact | contracts/controller/src/settle.rs:106-257 | For a listed flight with its row in a reachable state classify_flight never aborts, writes if and only if the row is Cancelled, or Landed, or past its 14 days, and writes the verdict, keeping the times, and counting a void |
| Guarantees.CountersExact | contracts/controller/src/purchase.rs:229-250 | TotalPoliciesSold, TotalPremiumsCollected and TotalPayoutsDistributed equal the sums over sales and over buckets |
| Guarantees.TokensAccountedFor | contracts/flight_pool_manager/src/claim.rs:22-146 | Pool balance = escrow + unclaimed payoffs + recovered + plain transfers in; vault balance = managed assets + credits + queued deposits + plain transfers in; locked = sum over open buckets; TMA >= locked >= 0 |
| Guarantees.ReserveHeld | contracts/controller/src/purchase.rs:187-206 | Over any run from a reachable state, with any changes of the solvency ratio, TMA >= ceil(locked * ratio / 100) holds at the end whenever the last accepted raise left it so or a purchase was accepted since |
| Guarantees.ReserveHeldFromDeployment | contracts/controller/src/purchase.rs:187-206 | The same from deployment, where the reserve starts met |
| Reserve.NoRaiseStaysCovered | contracts/controller/src/admin.rs:124-131 | A run without raises is such a run |
| Witnesses.RaiseUncovers | contracts/controller/src/admin.rs:124-131 | A reachable state whose reserve is met and in which an accepted raise leaves it unmet |
| Guarantees.PolicyNeverRevised | contracts/flight_pool_manager/src/lifecycle.rs:58-74 | Premium, payoff and delay of a bucket never change after its first sale, and a closed bucket keeps its status and deadline |
| Guarantees.StatusClimbs | contracts/oracle_aggregator/src/storage.rs:125-152 | Along any run the status of a sold, unevicted flight stays or climbs strictly in rank, along a path of accepted edges |
| Guarantees.SaleWithinLimits | contracts/controller/src/purchase.rs:137-172 | The terms of a sale are the bucket's locked terms and satisfy the governance limits in force at that moment |
| Guarantees.ClaimAndSweepComplement | contracts/flight_pool_manager/src/claim.rs:41-110 | On a paying bucket the sweep is accepted exactly when a claim is refused as too late |
| Guarantees.SweepCreditsOnce | contracts/flight_pool_manager/src/claim.rs:113-138 | A sweep credits payoff times the unclaimed policies, and a second sweep changes nothing |
| Guarantees.LateSettlementIsSweepable | contracts/flight_pool_manager/src/settle.rs:125-138 | A settlement after the 90-day cap still commits and the bucket can be swept at once |
| Guarantees.PurchaseCommitsExactly | contracts/controller/src/purchase.rs:39-250 | In a reachable state a purchase commits if and only if: the date starts a day, the buyer is approved where the gate is on, the route is stored, approved, owns its id and has terms within the limits, the oracle's authorization is there and has not run out, departure lies past the lead time and within 90 days, the flight has no outcome, 100 times managed assets cover locked plus payoff times the ratio, the premium is there, and the buyer has no policy yet; a closed bucket refuses only after an eviction |
| Guarantees.SaleWindowExact | contracts/controller/src/purchase.rs:67-129 | The gates on the sale pass exactly when the authorization lives, departure is past the lead time and within 90 days, and the row is missing, NotInitiated or Active |
| Guarantees.PurchaseMoves | contracts/controller/src/purchase.rs:187-250 | An accepted purchase is at the bucket's terms, or the route's for the first buyer, and changes exactly this: premium from buyer to pool, payoff locked, one buyer more, a blank listed row for a first sale, one policy and one premium counted |
| Traces.SoldInsideWindow | contracts/oracle_aggregator/src/lifecycle.rs:44-108 | Over any run from deployment every recorded sale was made by an accepted purchase at a time inside a window that an accepted open_sale had opened and that no accepted open_sale, close_sale or set_cancelled of that flight came between |
| Traces.WindowExplained | contracts/oracle_aggregator/src/lifecycle.rs:44-108 | At every point of a run a flight has a window up to a time if and only if some accepted call opened it up to that time and no accepted call opened, closed or cancelled it since |
| Conservation.RunConserves | contracts/risk_vault/src/capital.rs:84-140 | No run creates or destroys a token |
| Scenario.SomeRunPays | contracts/controller/src/purchase.rs:20-261 | A concrete run from deployment in which an underwriter enters, a policy is sold, the flight lands late and the traveler is paid |
| Changes.OnwardIsReachability | contracts/oracle_aggregator/src/storage.rs:125-152 | The closed-form order on statuses is exactly reachability along accepted transitions |
| History.StepEvolves | contracts/oracle_aggregator/src/lifecycle.rs:110-422 | Each step moves statuses only onward, never changes locked terms or a reported outcome and its estimate, and only adds buyers and claims |
| History.RunEvolves | contracts/controller/src/settle.rs:25-534 | The same over whole runs |
| Changes.ReserveFallsWithCollateral | contracts/sentinel_types/src/lib.rs:162-171 | ceil((L - P) r / 100) <= ceil(L r / 100) - P for r >= 100 |
| Reserve.StepKeepsReserve | contracts/controller/src/admin.rs:124-131 | Every step but a ratio increase keeps TMA at or above the full reserve |
| Drain.FullPass | contracts/controller/src/settle.rs:44-87 | ceil(n/8) + 1 sweeps bring every ready listed flight past the goal of the pass, whatever the cursor, and leave flights that are not ready alone |
| Drain.DrainTheorem | contracts/controller/src/settle.rs:44-358 | From any reachable state whose listed flights all have their rows and are past their timeouts, ceil(n/8) + 1 classification calls and as many settlement calls settle every listed flight, bring pending to 0, and leave locked exactly the collateral of evicted buckets still open |
| Drain.KnownOutcomesSettle | contracts/controller/src/settle.rs:44-358 | From any reachable state the same calls settle each listed flight with a row whose outcome was reported or has timed out, as cancelled, delayed or on time the way the reported times say, with no further waiting; and leave the row and bucket of any other such flight as they were |
| Drain.DrainFreesAll | contracts/controller/src/settle.rs:44-358 | After these calls locked is 0 if and only if no evicted bucket is open |
| Lossless.DrainWithoutArchival | contracts/controller/src/settle.rs:44-358 | After any run without archival, and without lapse or with guarded listings, locked is 0 |
| Drain.SweepsNeverAbort | contracts/controller/src/settle.rs:270-358 | In every reachable state classification and settlement sweeps of any limit commit |
| ActiveSet.SweepReaches | contracts/controller/src/settle.rs:321-357 | Every slot of an unchanged list falls in the window of one of the next ceil(n / batch) + 1 calls of a rotating cursor |
| Confluence.BatchingUnobservable | contracts/controller/src/settle.rs:270-414 | Any two mixes of full sweeps, bounded sweeps and exact settlements that settle the same flights end in the same state up to the sweep cursor and the order of the pool's listing |
| Confluence.SettledSetDetermines | contracts/controller/src/settle.rs:424-534 | The set of settled flights fixes counter, collateral, managed assets, balances and totals |
| Confluence.SweepIsExactFold | contracts/controller/src/settle.rs:290-358 | A full or bounded sweep of a reachable state is the exact settlement of each flight of its window in turn, and a cursor move |
| ListingOrder.MixListing | contracts/controller/src/settle.rs:290-534 | Any mix of sweeps and exact settlements leaves the pool listing as swap-removing, one by one, the flights that it settles |
| ListingOrder.MixesListAlikeExactly | contracts/sentinel_types/src/active_set.rs:306-341 | Two mixes that settle the same flights leave the same listing if and only if every vacated slot that is left has the same heir, read off the original listing and the two orders |
| ListingOrder.NoMixShowsExactly | contracts/sentinel_types/src/active_set.rs:306-341 | All mixes that settle a given set of n flights leave the same listing if and only if at most one of them is listed before the last n slots |
| ListingOrder.ListingOrderExactly | contracts/sentinel_types/src/active_set.rs:306-341 | Settling two flights in either order leaves the same pool listing if and only if one of them is among the last two listed buckets |
| SwapRemovals.RemoveAllHeirs | contracts/sentinel_types/src/active_set.rs:306-341 | After swap-removes in any order each slot that is left holds the heir of its first entry, found by following slots in the original list |
| SwapRemovals.OrdersAgreeExactly | contracts/sentinel_types/src/active_set.rs:306-341 | Two orders of the same swap-removes leave the same list if and only if the vacated slots have the same heirs |
| SwapRemovals.ExchangeShows | contracts/sentinel_types/src/active_set.rs:306-341 | Exchanging in any order two entries that lie before the last slots changes the list |
| SwapRemovals.NoOrderShowsExactly | contracts/sentinel_types/src/active_set.rs:306-341 | All orders of the same n swap-removes leave the same list if and only if at most one of the entries lies before the last n slots |
| SwapRemovals.SwapRemovesCommuteExactly | contracts/sentinel_types/src/active_set.rs:306-341 | Two swap-removes commute if and only if one of the entries is among the last two |
| Witnesses.ListingOrderShows | contracts/sentinel_types/src/active_set.rs:318-341 | A reachable state with four sales in which the two orders leave different listings |
| Pruning.PruneExact | contracts/oracle_aggregator/src/lifecycle.rs:431-509 | One call inspects up to 60 entries from the cursor on and removes exactly those whose row is Settled and was settled seven days ago or earlier |
| Pruning.FullSweepRemoves | contracts/oracle_aggregator/src/lifecycle.rs:444-507 | If any entry has aged out, ceil(n/60) + 1 calls remove at least one |
| Pruning.PruneFinishes | contracts/oracle_aggregator/src/lifecycle.rs:431-509 | (aged entries) * (ceil(n/60) + 1) calls at a fixed time leave exactly the entries that have not aged out |
| Eviction.TwoStepExit | contracts/controller/src/settle.rs:577-627 | A listed flight whose row was archived leaves in two calls that keep the invariant, close the bucket without a payout, and cannot be repeated |
| Eviction.WrongFlagBreaksCounter | contracts/oracle_aggregator/src/admin.rs:117-145 | After an eviction the counter is exact if and only if the flag was right, or true at a zero counter |
| Eviction.CancellationOverArchivedRow | contracts/oracle_aggregator/src/lifecycle.rs:259-272 | A cancellation written over an archived listed row keeps the counter exact if and only if the archived outcome was already public |
| Eviction.LaterSettlement | contracts/controller/src/settle.rs:544-563 | After an eviction and any further run, the second call commits if and only if the bucket is open and the flight has no row: its last restoration or cancellation was followed by an archival |
| Eviction.StuckUntilArchived | contracts/controller/src/settle.rs:550-558 | A row an evicted flight has again blocks the call until the ledger archives it, and then the call commits |
| Eviction.OutcomeOnUnlistedRow | contracts/oracle_aggregator/src/lifecycle.rs:202-257 | An accepted landing or cancellation on a stored row keeps the counter exact if and only if the flight is listed, which is if and only if it was not evicted |
| Eviction.CancellationOverSettledRow | contracts/oracle_aggregator/src/lifecycle.rs:259-272 | Over the archived row of a settled flight a cancellation leaves the counter exact and the oracle at odds with the closed bucket |
| Witnesses.UnlistedLandingHappens | contracts/oracle_aggregator/src/lifecycle.rs:185-210 | A reachable restored row of an evicted flight on which a landing makes the counter inexact |
| Witnesses.WrongFlagHappens | contracts/oracle_aggregator/src/admin.rs:117-145 | A reachable archived flight whose eviction with the wrong flag makes the counter inexact |
| Witnesses.UncountedCancellationHappens | contracts/oracle_aggregator/src/lifecycle.rs:259-272 | A reachable archived flight whose cancellation makes the counter inexact |
| Witnesses.StuckBucketHappens | contracts/oracle_aggregator/src/lifecycle.rs:259-272 | A reachable state with an evicted, open bucket behind a row |
| PoolSteps.SettleEvictedKeeps | contracts/controller/src/settle.rs:577-627 | Settling an evicted flight commits exactly when its bucket is open, keeps the invariant, and fails the second time |
| PoolSteps.ClaimAlwaysFunded | contracts/flight_pool_manager/src/claim.rs:22-77 | An unclaimed policy holder's claim before the deadline always commits and pays the payoff |
| EntryPoints.ClaimPays | contracts/flight_pool_manager/src/claim.rs:22-77 | A claim is accepted if and only if the bucket pays, its deadline lies ahead, and the claimant bought and has not claimed; it pays the claimant the payoff and marks that claim alone |
| EntryPoints.SweepRecovers | contracts/flight_pool_manager/src/claim.rs:92-146 | The sweep is accepted if and only if the bucket pays and its deadline is past; what was not claimed becomes recoverable |
| EntryPoints.RecoveryPaysOwner | contracts/flight_pool_manager/src/admin.rs:56-88 | Recovered tokens go to the owner and nobody else |
| EntryPoints.ClaimsOpen | contracts/flight_pool_manager/src/settle.rs:109-173 | Claims open exactly on an open, funded bucket, until the earlier of the deadline asked for and 90 days after the date |
| EntryPoints.PremiumsReleased | contracts/flight_pool_manager/src/settle.rs:28-67 | Settling on time closes an open bucket and sends the vault all of its premiums |
| EntryPoints.VaultMoves | contracts/risk_vault/src/capital.rs:27-140 | Locking, releasing, income and payouts are accepted exactly within managed assets, collateral and tokens received, and move their own amount |
| PoolSteps.RecoveredAlwaysFunded | contracts/flight_pool_manager/src/admin.rs:56-88 | A withdrawal within the recovered balance never lacks tokens |
| PoolSteps.ReconcileFindsNothing | contracts/flight_pool_manager/src/claim.rs:168-191 | Settlement already removed the entry: reconciliation changes nothing |
| SettleSteps.SettleOneKeeps | contracts/controller/src/settle.rs:424-534 | Settling a listed flight never aborts, moves exactly that flight's money when it is classified, and otherwise changes nothing |
| SweepSteps.ClassifyOneKeeps | contracts/controller/src/settle.rs:147-257 | Classifying a listed flight never aborts and keeps the invariant; it writes something if and only if the row is Cancelled, or Landed, or without an outcome 14 days after its estimate or its date, and then exactly the verdict that times and locked delay give |
| SweepSteps.EvictKeeps | contracts/oracle_aggregator/src/admin.rs:117-145 | A correctly flagged eviction keeps coherence and the exact counter |
| BuySteps.BuyKeeps | contracts/controller/src/purchase.rs:20-261 | A purchase keeps the invariant, including the one-route rule and all sums |
| GovSteps.ListingSafeExactly | contracts/governance_module/src/routes.rs:82-155 | With index entries that may have lapsed, an accepted listing keeps one route per flight id if and only if no other stored route carries the id |
| GovSteps.IndexImpliesGuard | contracts/governance_module/src/routes.rs:82-92 | While the index entry is there, the check of the contract is that guard |
| GovSteps.GovKeepsReservation | contracts/governance_module/src/routes.rs:41-56 | Every guarded governance call leaves a flight id with the pair it was sold under for 160 days after the sale |
| GovSteps.GovKeepsIndex | contracts/governance_module/src/routes.rs:65-164 | Every guarded governance call keeps one route per flight id and the index right where present |
| GovSteps.LapseKeepsIndex | contracts/governance_module/src/storage.rs:86-101 | A lapsed index entry does not take the one route per flight id away |
| GovSteps.LapseKeepsReservation | contracts/governance_module/src/storage.rs:86-101 | A lapsed index entry does not take a reservation away |
| GovSteps.ActiveMeansSoldPair | contracts/governance_module/src/queries.rs:33-106 | Until a sale has aged out its flight id reads as active only under the pair it was sold under |
| GovSteps.StatusReadOnlyHeals | contracts/governance_module/src/queries.rs:33-106 | The self-healing read writes nothing but a lapsed index entry and answers Unknown exactly for routes not stored |
| GovSteps.StatusExactly | contracts/governance_module/src/queries.rs:33-106 | A route is Active if and only if it is stored, approved, its index entry absent or its own, and its own-or-default terms are within the written-out limits, with those terms; Disabled exactly for the other stored routes that own their id; Unknown otherwise |
| Traces.DisabledSellsNothing | contracts/governance_module/src/routes.rs:177-222 | After an accepted disable_route no purchase under that route commits until an accepted enable_route, or a removal and an accepted new listing |
| GovSteps.ListingExactly | contracts/governance_module/src/routes.rs:65-164 | A listing is accepted if and only if neither index nor live retirement gives the id to another pair, the terms are within the limits, and a stored route is approved with the same terms; it is stored as given |
| GovSteps.ApprovalExactly | contracts/governance_module/src/routes.rs:177-275 | disable_route takes the approval of approved routes only; enable_route gives it back exactly to routes within the limits that own their id |
| GovSteps.RemovalExactly | contracts/governance_module/src/routes.rs:282-322 | Only disabled routes are removed; an owned id becomes free and is retired for its pair for 160 days |
| GovSteps.UpdateExactly | contracts/governance_module/src/routes.rs:329-398 | An update keeps, sets or resets each field it names, no other, and only if the outcome is within the limits |
| GovSteps.SettingsExactly | contracts/governance_module/src/admin.rs:49-101 | Defaults must be within the limits, the cap not negative, the ratio at least two; stored as given |
| Guarantees.OneRoutePerFlightId | contracts/governance_module/src/routes.rs:82-105 | In a reachable state at most one route is stored per flight id |
| Guarantees.SecondPairSellsExactly | contracts/governance_module/src/routes.rs:82-105 | After an accepted listing a flight sold under another pair can be bought under the new one if and only if it is on offer there, and that only if the listing had a rival |
| Witnesses.UnguardedListingMixesBucket | contracts/governance_module/src/routes.rs:82-105 | Without the guard: after a lapse in a reachable state the second route is listed and the same flight is sold under both |
| GovSteps.AdvertisedTermsAdmissible | contracts/governance_module/src/queries.rs:91-102 | Advertised terms are positive, pay more than they cost, and respect cap and ratio computed without saturation |
| GovSteps.AssertionMatchesPredicate | contracts/governance_module/src/storage.rs:147-185 | The panicking and the reading form of the term rules accept the same terms |
| GovSteps.SaturationHidesNothing | contracts/governance_module/src/storage.rs:177-184 | The saturating product never changes the comparison with a positive 128-bit payoff, whatever the ratio |
| ApprovalRuns.ApprovalNeedsRenewal | contracts/controller/src/storage.rs:75-139 | An approved buyer was added by an admin, not removed since, and renewed by purchases less than 180 days apart |
| ApprovalRuns.RenewalSuffices | contracts/controller/src/storage.rs:110-139 | An add that no removal follows and purchases at most 170 days apart keep the buyer approved |
| ApprovalRuns.PurchaseRenews | contracts/controller/src/purchase.rs:47-53 | Right after a gated purchase at t the deadline lies in (t + 170 d, t + 180 d] |
| ApprovalRuns.RunReplays | contracts/controller/src/whitelist.rs:40-60 | Over any run the stored deadlines are the replay of admin writes and gated purchases, in time order |
| EntryPoints.OwnerSets | contracts/controller/src/admin.rs:124-158 | The owner's settings are accepted exactly within their bounds and stored as given, the ratio in both contracts; an approval runs 180 days, a revocation ends it, and no other buyer's changes |
| VaultQueues.WithdrawalPass | contracts/risk_vault/src/capital.rs:144-372 | A pass commits, takes from managed assets exactly what it credits, never goes below the reserve, serves in order and does nothing behind the barrier; QueueAccounts.WithdrawalsByOwner says who is credited |
| VaultQueues.WithdrawalPassPrice | contracts/risk_vault/src/capital.rs:144-372 | The price of the remaining shares does not fall |
| VaultQueues.DepositPass | contracts/risk_vault/src/capital.rs:382-476 | A pass commits, turns queued deposits into managed assets or returns them, and keeps the token identity |
| QueueAccounts.WithdrawalsByOwner | contracts/risk_vault/src/capital.rs:144-372 | For every address, one pass adds to its credit, takes from its queued shares and gives back to it exactly the sums over its own requests; each request of the first 50 is served only after six hours and after all before it, in full or with as many whole shares as the free capital buys, for the floor of its burned shares at the running price, and given back only when worth nothing |
| QueueAccounts.DepositsByOwner | contracts/risk_vault/src/capital.rs:382-476 | For every address, shares minted, tokens sent back and deposits taken off the queue are the sums over its own requests; each is served after six hours in order, minting the floor at the running price, and sent back only when worth no share |
| Holdings.MaintenanceByOwner | contracts/controller/src/settle.rs:636-648 | Behind no barrier maintenance leaves everybody with exactly what the fair service of their own deposits, and then of their own withdrawals, brings them |
| Holdings.CallMoves | contracts/controller/src/purchase.rs:208-216 | In every reachable state every other accepted call changes the tokens, shares, credit and queued requests of each person exactly as stated: gifts, premiums, payoffs and recoveries move tokens, an underwriter's call moves the caller's own, and nothing else moves anything |
| Holdings.OnlyOwnCallsSpend | contracts/risk_vault/src/capital.rs:144-476 | Over any run in which a person makes no call, their tokens, shares and credit do not fall |
| Holdings.DepositRequested | contracts/risk_vault/src/claims.rs:93-154 | A deposit request is accepted exactly with the tokens, the minimum, a share's worth and room in the queue and under the cap of 20; it queues the caller's tokens in the caller's name |
| Holdings.WithdrawalAsked | contracts/risk_vault/src/claims.rs:209-282 | The same of a withdrawal request and its shares, which must be worth the minimum |
| Holdings.DepositCancelled | contracts/risk_vault/src/claims.rs:161-200 | Only its owner cancels a deposit request, and gets back what it holds |
| Holdings.WithdrawalCalledOff | contracts/risk_vault/src/claims.rs:288-337 | The same of a withdrawal request |
| Holdings.CreditCollected | contracts/risk_vault/src/claims.rs:340-366 | Collecting pays the caller their whole credit and leaves all others |
| VaultQueues.DepositPassPrice | contracts/risk_vault/src/capital.rs:382-476 | Minting at the running price does not lower it |
| Vault.PartialFillFits | contracts/risk_vault/src/capital.rs:227-246 | The floor-floor round trip of a partial fill stays within free capital and below the request |
| LpSteps.MaintenanceKeeps | contracts/controller/src/settle.rs:636-648 | Queue maintenance commits, keeps the money identities and the reserve, and changes nothing while an outcome is pending |
| LpSteps.MaintenancePrice | contracts/controller/src/settle.rs:636-648 | The share price does not fall in queue maintenance |
| LpSteps.VaultDebtsAlwaysPayable | contracts/risk_vault/src/claims.rs:161-365 | Credits can be collected and queued requests cancelled without a shortfall |
| Amounts.RoundTrip | playground/lib/format.ts:4-33 | Parsing a printed amount without its commas returns it, for every integer and number of decimals |
| Amounts.RoundTripWithoutStripping | playground/lib/format.ts:4-33 | With the commas left in, the round trip holds if and only if abs(v) < 1000 * 10^d |
| Amounts.FormatInjective | playground/lib/format.ts:4-16 | Different amounts print differently |
| Amounts.ParsedHasNoComma | playground/lib/format.ts:19-33 | No accepted input contains a comma |
| Amounts.PrintedForm | playground/lib/format.ts:4-16 | The print is sign, whole units in groups of exactly three from the right without a leading zero, and a fraction of at most so many decimals that does not end in zero |
| Amounts.WrittenParses | playground/lib/format.ts:19-33 | Every signed decimal with at most so many decimals, with white space around it or not, parses to what it stands for |
| Amounts.ParsedIsWritten | playground/lib/format.ts:19-33 | Nothing else parses |
| ActivePages.PagedSet.Contains | contracts/sentinel_types/src/active_set.rs:167-175 | Membership is exact for entries whose index entry is there or whose page can be read, so always while no page is archived |
| ActivePages.PagedSet.ScanPosition | contracts/sentinel_types/src/active_set.rs:190-207 | Finds the slot of the entry exactly when its page can be read |
| ActivePages.PagedSet.Add | contracts/sentinel_types/src/active_set.rs:216-265 | Appends the entry, refuses it as present, or refuses an archived tail page; duplicates result exactly when an entry is present but neither indexed nor seen by the scan |
| ActivePages.PagedSet.Remove | contracts/sentinel_types/src/active_set.rs:270-353 | Is the swap-remove of the plain sequence, in all three tail cases and with a lost or live index, when the page of the entry and the tail page can be read, and false otherwise |
| ActivePages.PagedSet.GetRange | contracts/sentinel_types/src/active_set.rs:361-392 | Returns the entries of the range whose pages are stored, in order; with all pages stored, the slice of the plain sequence |
| Host.Ledger.RunOracle | contracts/oracle_aggregator/src/lifecycle.rs:44-276 | The authorized oracle's handlers (open and close a sale, estimated arrival, landing, cancellation), the prune and the eviction have the specified effect or fail with the specified error; EntryPoints states those effects field by field |
| Host.Ledger.RunPool | contracts/flight_pool_manager/src/claim.rs:92-191 | The same of the expiry sweep, the reconciliation and the withdrawal of recovered funds |
| Host.Ledger.RunOwner | contracts/controller/src/admin.rs:124-158 | The same of the solvency ratio, mirrored into the vault, the lead time, the claim window and the approval writes |
| Host.Ledger.RunGovernance | contracts/governance_module/src/routes.rs:65-398 | The same of listing, disabling, enabling, removing and updating routes, the status read, the defaults and the term limits |
| Host.Ledger.RunUnderwriter | contracts/risk_vault/src/claims.rs:93-365 | The same of deposit and withdrawal requests, their cancellation, the collection of credits and the request minimum |
| OracleContract.OracleAggregator.RegisterFlight | contracts/oracle_aggregator/src/lifecycle.rs:284-313 | Idempotent registration and listing |
| OracleContract.OracleAggregator.SetToBeSettled | contracts/oracle_aggregator/src/lifecycle.rs:317-392 | Accepts valid edges, voids only past the timeout, counts voids |
| OracleContract.OracleAggregator.SetSettled | contracts/oracle_aggregator/src/lifecycle.rs:401-422 | Final edge, uncounts |
| OracleContract.OracleAggregator.PruneSettled | contracts/oracle_aggregator/src/lifecycle.rs:431-509 | The loop over a snapshot window with live removals is the fold of keyed removals |
| OracleContract.OracleAggregator.EvictMissingFlight | contracts/oracle_aggregator/src/admin.rs:117-145 | Delists a flight without a row and uncounts on the flag |
| PoolContract.FlightPoolManager.RegisterFlight | contracts/flight_pool_manager/src/lifecycle.rs:21-107 | Idempotent for equal terms; first registration locks them |
| PoolContract.FlightPoolManager.AddBuyer | contracts/flight_pool_manager/src/lifecycle.rs:113-148 | One policy per traveler on an open bucket |
| PoolContract.FlightPoolManager.SettleOnTime | contracts/flight_pool_manager/src/settle.rs:28-67 | Closes the bucket and sends all premiums to the vault |
| PoolContract.FlightPoolManager.SettleWithClaimWindow | contracts/flight_pool_manager/src/settle.rs:109-173 | Opens claims with the capped deadline once the payoffs are funded |
| PoolContract.FlightPoolManager.Claim | contracts/flight_pool_manager/src/claim.rs:22-77 | Pays the payoff once to a policy holder before the deadline |
| GovernanceContract.GovernanceModule.ReadStatus | contracts/governance_module/src/queries.rs:33-106 | Status with the index check, the self-heal and revalidated terms, as GovSteps.StatusExactly writes them out |
| GovernanceContract.GovernanceModule.CheckTermsValid | contracts/governance_module/src/queries.rs:118-120 | Valid means positive, paying more than it costs, within the cap, and within the exact, unsaturated product of premium and ratio |
| GovernanceContract.GovernanceModule.CheckTerms | contracts/governance_module/src/storage.rs:162-185 | The panicking form, with its error order |
| GovernanceContract.GovernanceModule.WhitelistRoute | contracts/governance_module/src/routes.rs:65-164 | Lists a route whose id is neither mapped elsewhere nor retired elsewhere; idempotent re-listing renews the index |
| VaultContract.RiskVault.RecordPremiumIncome | contracts/risk_vault/src/capital.rs:84-117 | Only income whose tokens arrived beyond queued deposits |
| VaultContract.RiskVault.SendPayout | contracts/risk_vault/src/capital.rs:121-140 | Pays out of managed assets |
| VaultContract.RiskVault.SumEscrowedDeposits | contracts/risk_vault/src/storage.rs:97-110 | The loop is the sum of queued deposits |
| VaultContract.RiskVault.ProcessWithdrawalQueue | contracts/risk_vault/src/capital.rs:144-372 | The loop with its capacity flag and conditional write-back is the drain of the queue's head, which QueueAccounts.WithdrawalsByOwner states owner by owner |
| VaultContract.RiskVault.ProcessDepositQueue | contracts/risk_vault/src/capital.rs:382-476 | The loop is the minting of the queue's head at the running price, which QueueAccounts.DepositsByOwner states owner by owner |
| VaultContract.RiskVault.WithdrawableCapital | contracts/risk_vault/src/queries.rs:51-65 | Never negative, positive exactly when managed assets exceed the reserve, and then what it leaves is the reserve |
| VaultContract.RiskVault.EffectiveRequestMinimum | contracts/risk_vault/src/claims.rs:41-54 | At least the clamped configured minimum, at most the cap, and the whole cap for a full queue |
| EntryPoints.RequestMinimumIs | contracts/risk_vault/src/claims.rs:41-54 | The minimum is the larger of the clamped configured value and the floor of the straight line from zero to max(10 million, assets / 2500) over the length of the queue |
| Vault.RequestMinimumRises | contracts/risk_vault/src/claims.rs:41-54 | A longer queue never lowers the minimum |
| VaultContract.RiskVault.OwnRequests | contracts/risk_vault/src/claims.rs:61-78 | Counts the caller's queued requests |
| ControllerContract.PolicyController.RememberFlight | contracts/controller/src/storage.rs:44-65 | Keeps the latest thousand flights of a traveler in order |
| ControllerContract.PolicyController.TouchBuyerWhitelisted | contracts/controller/src/storage.rs:110-139 | Slides a live deadline forward by at least ten days or not at all |
| ControllerContract.PolicyController.BuyInsurance | contracts/controller/src/purchase.rs:20-261 | The sequence of gates, bindings, registrations, transfers and counters has the specified effect, or fails with the first failing gate's error; which gates they are is Guarantees.PurchaseCommitsExactly |
| ControllerContract.PolicyController.Target | contracts/controller/src/settle.rs:147-257 | The classification of a row, whose meaning is SweepSteps.ClassifyOneKeeps |
| ControllerContract.PolicyController.ClassifyFlights | contracts/controller/src/settle.rs:25-88 | The loop over the cursor window is the fold of single classifications |
| ControllerContract.PolicyController.ClassifyFlight | contracts/controller/src/settle.rs:106-140 | One listed flight, reporting whether it was classified |
| ControllerContract.PolicyController.SettleListed | contracts/controller/src/settle.rs:424-534 | The calls into pool, vault and oracle compose to the settlement of one flight |
| ControllerContract.PolicyController.SettleWindow | contracts/controller/src/settle.rs:290-358 | The loop over the cursor window is the fold of single settlements |
| ControllerContract.PolicyController.SettleFlight | contracts/controller/src/settle.rs:370-414 | One listed flight, reporting whether it settled |
| ControllerContract.PolicyController.SettleEvictedFlight | contracts/controller/src/settle.rs:577-627 | Releases an unlisted, rowless flight's bucket |
| ControllerContract.PolicyController.RunQueueMaintenance | contracts/controller/src/settle.rs:636-648 | Deposits before withdrawals, both behind the barrier |

## Left out

Value-level functions and datatypes have no row of their own: what they mean is stated by the lemmas and methods above. Single setters and request handlers of the contract classes are covered by the rows of the host methods that dispatch to them.

- Host.Ledger.Submit: rolls back by restoring all fields, where the real host discards a write set.
- Archival of storage and its time-to-live arithmetic, except the steps that archive and restore oracle rows and drop governance index entries, and the archived pages of the active set, which the contracts of the whole protocol keep intact.
- Authorisation, roles, pause switches, ownership transfer, upgrades and address rotation: a step stands for a call its caller may make.
- Events and diagnostics.
- Integer overflow: amounts, counts and times are unbounded, except the 128-bit term arithmetic of governance and the saturating pending counter.
- The vault's daily snapshot, which queue maintenance also takes, and recover_uncollected with its two modes.
- The share token's approvals; share transfers follow the fungible-token standard.
- Network resource budgets behind the batch sizes.
- The rest of the TypeScript dapp, the API, the scripts, the delay-prediction service and date formatting.
