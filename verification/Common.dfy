/** Failure-carrying datatypes shared by the whole model. */
module Common {
  datatype Option<+T> = None | Some(value: T)

  datatype Result<+T, +E> = Ok(value: T) | Err(error: E)

  function Max(a: int, b: int): int {
    if a < b then b else a
  }

  function Min(a: int, b: int): int {
    if a < b then a else b
  }
}

/** The five verdicts of a verification (crates/agentverify-core/src/verification_result.rs). */
module Verdicts {
  datatype Verdict = Verified | Failed | Unknown | Partial | Duplicate {
    predicate IsSuccess() {
      Verified? || Duplicate?
    }

    predicate IsFailure() {
      Failed? || Partial?
    }
  }
}
