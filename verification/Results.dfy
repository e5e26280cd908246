/** Failure-carrying results: every contract entry point either commits or fails
    with one error code, in which case the host rolls the transaction back. */
module Results {

  datatype Option<+T> = None | Some(value: T)

  datatype Error =
    // token
    | NegativeAmount | InsufficientBalance
    // oracle aggregator
    | InvalidTransition | InvalidSettlementStatus | ActiveFlightListFull | InvalidTimestamp
    | FlightDataStillPresent | FlightNotInList | StaleTimeoutNotReached | ActiveTimeoutNotReached
    | FlightNotRegistered | EntryAlreadyInActiveSet | TailPageArchived
    // flight pool manager
    | AmountNotPositive | ExceedsRecoveredBalance | FlightNotActive | ClaimExpiryNotInFuture
    | PremiumNotPositive | PayoffNotPositive | PayoffNotAbovePremium | FlightTermsMismatch
    | AlreadyBuyer | FlightNotClaimable | ClaimWindowClosed | NoPolicy | AlreadyClaimed
    | ClaimWindowStillOpen | PayoutNotReceived | DelayHoursNotPositive | FlightStillActive
    | SubtractionUnderflow
    // risk vault
    | AmountMustBePositive | WouldExceedTotalManagedAssets | WouldGoNegative | PremiumNotReceived
    | InsufficientManagedAssets | SolvencyRatioOutOfBounds | NegativeLockedCapital
    | AssetsConvertToZeroShares | DepositQueueFull | RequestBelowMinimum | TooManyActiveRequests
    | SharesMustBePositive | SharesRedeemToZeroAssets | WithdrawalQueueFull | InsufficientShares
    | RequestNotFound | NotYourRequest | NothingToCollect | AmountMustBeNonNegative
    // governance module
    | PremiumMustBePositive | PayoffMustBePositive | PayoffMustExceedPremium | DelayHoursMustBePositive
    | PayoffExceedsCap | PayoffExceedsPremiumRatio | FlightIdAlreadyMapped | FlightIdRetired
    | RouteAlreadyListed | RouteNotFound | RouteAlreadyDisabled | RouteAlreadyActive
    | RouteMustBeDisabledBeforeRemoval | InvalidTermLimits
    // controller
    | DateNotDayAligned | BuyerNotWhitelisted | RouteIsDisabled | RouteNotWhitelisted
    | DepartureTooSoon | DepartureTooFarInFuture | FlightNotOpenForPurchase | SaleNotOpen
    | OracleDataUnavailable | SnapshotTermsExceedLimits | InsufficientVaultCapital
    | FlightNotListed | FlightStillListed | FlightNotRegisteredInPool
    | MinLeadTimeLeavesNoBookingWindow | ClaimExpiryWindowOutOfBounds
    // amount parser
    | NotADecimal | TooManyDecimals
    // an environment step that does not apply
    | NotApplicable

  datatype Result<+T> = Ok(value: T) | Err(error: Error) {
    predicate IsFailure() { Err? }

    function PropagateFailure<U>(): Result<U>
      requires Err?
    {
      Err(error)
    }

    function Extract(): T
      requires Ok?
    {
      value
    }
  }

  // An entry point agrees with its specification: the same state when it commits, the
  // same error when it fails. The host discards the writes of a failed call.
  predicate Agrees<S(==)>(r: Result<()>, spec: Result<S>, state: S) {
    match spec
    case Ok(s) => r.Ok? && state == s
    case Err(e) => r == Err(e)
  }

  // `:- Need(condition, error)` stands for a panicking check.
  function Need(condition: bool, error: Error): Result<()> {
    if condition then Ok(()) else Err(error)
  }
}
