/** Vocabulary shared by every module: identifiers, time, results and error codes. */
module Base {

  /** UUIDs, only ever compared; the number NONE plays the empty string. */
  type Id = nat
  const NONE: Id := 0

  /** Normalized names: opaque values with a total order. */
  type Name = nat

  /** Instants on one non-decreasing clock; ZERO plays Go's zero time. */
  type Time = nat
  const ZERO: Time := 0

  datatype Option<+T> = None | Some(value: T)

  datatype Code =
    | InvalidRequest
    | Forbidden
    | NotFound
    | NameConflict
    | InvalidState
    | IdempotencyConflict
    | RestoreConflict
    | RevisionMismatch
    | DependencyUnavailable
    | Internal

  datatype Result<+T> = Ok(value: T) | Err(code: Code)
}
