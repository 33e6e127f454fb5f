/** The exceptions the account rules raise, and the two ways a call reports
    them: an Outcome for operations that return nothing on success, a Result
    for the pure rules that compute a new value. */
module AccountErrors {

  datatype AccountError =
    | CurrencyMismatch
    | InsufficientFunds
    | DailyLimitReached
    | InvalidAmount

  datatype Outcome = Success | Failure(error: AccountError)

  datatype Result<T> = Ok(value: T) | Err(error: AccountError)
}
