/** Option and Result, used wherever the source answers None or raises. */
module Wrappers {

  datatype Option<+T> = None | Some(value: T)

  datatype Result<+T, +E> = Ok(value: T) | Err(error: E)

  /** How awaiting a store call ends: it reports success, it raises, or the await is cancelled. In the
      last two cases the store may have applied the call all the same. */
  datatype Awaited<+T> = Took(value: T) | Missed(applied: bool) | Cut(applied: bool)
  {
    predicate TakesEffect() {
      Took? || applied
    }
  }
}
