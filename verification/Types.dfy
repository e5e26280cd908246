/** Identities, statuses and constants shared by the four contracts. */
module Types {

  type Symbol = string

  // One insured flight instance; `date` is the departure-day midnight in unix seconds.
  datatype Key = Key(id: Symbol, date: nat)

  // The two contracts that hold tokens, and everybody else.
  datatype Address = PoolAddress | VaultAddress | User(id: nat)
  type Person = a: Address | a.User? witness User(0)

  // The owner of the contracts is an ordinary account.
  const OWNER: Person := User(0)

  datatype FlightStatus =
    | NotInitiated | Active | Landed | Cancelled
    | ToBeSettledOnTime | ToBeSettledDelayed | ToBeSettledCancelled
    | Settled

  datatype FlightData = FlightData(status: FlightStatus, eta: nat, ata: nat, settledAt: nat)

  datatype SettlementStatus = Open | SettledOnTime | SettledDelayed | SettledCancelled

  datatype FlightConfig = FlightConfig(
    premium: int, payoff: int, delayHours: nat,
    buyerCount: nat, claimedCount: nat,
    status: SettlementStatus, claimExpiry: nat)

  datatype Terms = Terms(premium: int, payoff: int, delayHours: nat)

  const U64_MAX: nat := 0xFFFF_FFFF_FFFF_FFFF

  const DAY: nat := 86_400
  const HOUR: nat := 3_600

  // Durations are in seconds, written out: the solver is slow with multiples of a named constant.
  function Hours(n: nat): nat { n * 3_600 }
  function WholeHours(seconds: nat): nat { seconds / 3_600 }
  function Days(n: nat): nat { n * 86_400 }
  predicate StartsDay(time: nat) { time % 86_400 == 0 }

  const STALE_TIMEOUT: nat := 1_209_600  // 14 days
  const ACTIVE_TIMEOUT: nat := 1_209_600  // 14 days
  const MAX_CLAIM_DEADLINE_AFTER_DATE: nat := 7_776_000  // 90 days
  const MAX_SCHEDULED_ARRIVAL_AFTER_DATE: nat := 259_200  // 3 days
  const MAX_ACTUAL_ARRIVAL_AFTER_DATE: nat := 2_592_000  // 30 days
  const SALE_AUTH_MAX_VALIDITY: nat := DAY
  const SETTLED_RETENTION: nat := 604_800  // 7 days
  const MAX_PRUNE_BATCH: nat := 60
  const MAX_ACTIVE_FLIGHTS: nat := 100_000
  const ACTIVE_SET_PAGE_SIZE: nat := 100

  const MAX_CLASSIFY_BATCH: nat := 8
  const MAX_SETTLE_BATCH: nat := 8
  const MAX_BOOK_AHEAD: nat := 7_776_000  // 90 days
  const BUYER_PROOF_TTL: nat := 15_552_000  // 180 days
  const MIN_CLAIM_EXPIRY_WINDOW: nat := DAY
  const MAX_CLAIM_EXPIRY_WINDOW: nat := 5_184_000  // 60 days
  const BUYER_APPROVAL_WINDOW: nat := 15_552_000  // 180 days
  const BUYER_APPROVAL_REFRESH_INTERVAL: nat := 864_000  // 10 days
  const MAX_TRAVELER_FLIGHTS: nat := 1_000
  const FLIGHT_ID_RETIREMENT: nat := 13_824_000  // 160 days

  const MIN_SOLVENCY_RATIO: nat := 100
  const MAX_SOLVENCY_RATIO: nat := 10_000

  function Min(a: int, b: int): int { if a <= b then a else b }
  function Max(a: int, b: int): int { if a >= b then a else b }

  // The outcome is on chain but its money has not moved yet.
  predicate PublicUnsettled(s: FlightStatus) {
    s.Landed? || s.Cancelled? || Classified(s)
  }

  predicate Classified(s: FlightStatus) {
    s.ToBeSettledOnTime? || s.ToBeSettledDelayed? || s.ToBeSettledCancelled?
  }
}
