/** Failure-carrying values: the exceptions the source throws become `Failure`/`Fail` results. */
module Wrappers {
  datatype Option<+T> = None | Some(value: T)

  datatype Result<+T, +E> = Success(value: T) | Failure(error: E)

  datatype Outcome<+E> = Pass | Fail(error: E)

  /** The errors the ledger raises, one per `throw new Error(...)` of the source. */
  datatype Error =
    | CannotSignReward      // "Cannot sign transactions for mining rewards"
    | NoSignature           // "No signature in this transaction"
    | MissingAddress        // "Transaction must include from and to address"
    | InvalidTransaction    // "Cannot add invalid transaction to chain"
    | NonPositiveAmount     // "Transaction amount should be higher than 0"
    | InsufficientBalance   // "Not enough balance in sender address"
    | NotPending            // "Transaction not found in pending transactions"
}
