/**
 * Failure-carrying values shared by the whole model. Every Python exception the
 * core raises is an `Error`; a raising call becomes a `Result` or an `Outcome`.
 */
module Errors {

  datatype Option<+T> = None | Some(value: T)

  /** Why loading a landscape file failed; each one surfaces as a RuntimeError. */
  datatype LoadFailure =
    | CannotOpen                        // IOError / FileNotFoundError on open or read
    | EmptyFile                         // the file has no lines
    | BadInteger(token: string)         // int() rejected a token
    | TooFewValues(found: nat)          // the header unpacks into fewer than two values
    | TooManyValues                     // the header unpacks into more than two values
    | BadDimensions(width: int, height: int)
    | LineCount(expected: int, found: nat)
    | BadRowLength(line: nat)           // 1-based index of the data line

  /** Which range check rejected a value; each one surfaces as a ValueError. */
  datatype Invalid =
    | RateOutOfRange                    // "Rate must be between 0 and 1."
    | DeltaOutOfRange                   // "Delta must be between 0 and 1."
    | DurationNotPositive
    | IntervalAboveDuration
    | IntervalNegative
    | NotAnimals                        // Simulation given something that is neither Mice nor Fox
    | EmptyArray                        // numpy's max of a zero-size array

  datatype Error =
    | RuntimeError(cause: LoadFailure)
    | ValueError(reason: Invalid)
    | IndexError
    | ZeroDivisionError

  datatype Result<+T> = Ok(value: T) | Err(error: Error)

  /** The result of a call that returns None or raises. */
  datatype Outcome = Pass | Fail(error: Error)
}
