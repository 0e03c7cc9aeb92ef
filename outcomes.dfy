/** The two `std::logic_error`s of the core, and the shapes in which an
    operation reports success or one of them instead of throwing. */
module Outcomes {

  /** "Недостаточно средств!" (a main-balance debit) and
      "Недостаточно бонусов!" (a bonus-balance debit). */
  datatype Error = InsufficientFunds | InsufficientBonus

  /** An operation that yields a value or throws. */
  datatype Result<T> = Ok(value: T) | Err(error: Error)

  /** A `void` operation that returns normally or throws. */
  datatype Outcome = Pass | Fail(error: Error)
}
