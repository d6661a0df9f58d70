/** Values shared by every component of the model. */
module Basics {
  datatype Option<+T> = None | Some(value: T)

  /** How a call on an outside system (Redis, a file) ended: an error reply may
      arrive although the command took effect. */
  datatype Reply = Done | FailedClean | FailedLanded {
    /** The caller saw a success. */
    predicate Ok() { Done? }

    /** The command took effect, whatever the caller saw. */
    predicate Landed() { Done? || FailedLanded? }
  }

  function Min(a: int, b: int): int { if a <= b then a else b }

  function Max(a: int, b: int): int { if a >= b then a else b }
}
