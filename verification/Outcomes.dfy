/** The result of a contract call. A panic aborts the whole call, so an aborted call
    leaves the ledger as it was. */
module Outcomes {

  datatype Error =
    | ArithmeticError          // zero divisor, failed cast or unwrap of a missing value
    | BadRequest
    | NegativeAmount
    // backstop
    | BalanceError
    | NotExpired
    | InsufficientFunds
    | TooManyQ4WEntries
    | InvalidShareMintAmount
    | InvalidTokenWithdrawAmount
    | InvalidRewardZoneEntry
    | NotPool
    | TransferFailed           // a token contract refused a transfer
    // emitter
    | SwapAlreadyExists
    | SwapNotQueued
    | SwapNotUnlocked
    | SwapCannotBeCanceled
    | InsufficientBackstopSize
    | BadDrop
    // pool
    | InvalidBTokenMintAmount
    | InvalidBTokenBurnAmount
    | InvalidDTokenMintAmount
    | InvalidDTokenBurnAmount
    | InvalidUtilRate
    | InvalidPoolStatus
    | InvalidHf
    | InvalidLiquidation
    | InvalidLiqTooLarge
    | InvalidLiqTooSmall
    | InterestTooSmall
    | AuctionInProgress
    | InvalidReserveMetadata

  datatype Option<+T> = None | Some(value: T)

  datatype Outcome<+T> = Ok(value: T) | Abort(error: Error) {
    predicate IsFailure() { Abort? }

    function PropagateFailure<U>(): Outcome<U>
      requires Abort?
    {
      Abort(error)
    }

    function Extract(): T
      requires Ok?
    {
      value
    }
  }
}
