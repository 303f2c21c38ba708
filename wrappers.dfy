/** Absence and failure values used by the ledger's entry points. */
module Wrappers {

  /** An optional value: `Option<T>` of the canister interface. */
  datatype Option<+T> = None | Some(value: T)

  /** A success value or an error: `Result<T, E>` of the canister interface. */
  datatype Result<+T, +E> = Ok(value: T) | Err(error: E)
}
