/**
 * Failure values of the semantic analysis. Every rejection of the front end
 * (a message followed by process termination) becomes one of these kinds;
 * the message text and the exit status are not modelled.
 */
module Errors {

  datatype ErrorKind =
    // Pass 1, class registration
    | DuplicateClass
    | UnknownSuperclass
    | SelfInheritance
    // Pass 2, member registration
    | UnknownType
    | DuplicateField
    | DuplicateMethod
    | MethodNameCollidesWithClass
    | DuplicateParameter
    | DuplicateLocal
    | ReturnTypeMismatch
    | ArityMismatch
    | ParameterTypeMismatch
    // Pass 3, type checking
    | UnknownName
    | IncompatibleTypes
    | InvalidArrayType
    | InvalidIndexType
    | InvalidConditionType
    | TypeMismatch
    | UnknownClass
    | UnknownMethod
    | NoParametersExpected
    | ArgumentTypeMismatch
    | IncompatibleReturnType

  /** The result of a computation that produces a value or stops at the first violation. */
  datatype Result<+T> = Ok(value: T) | Err(error: ErrorKind) {
    predicate IsFailure() { Err? }
    function PropagateFailure<U>(): Result<U>
      requires Err?
    {
      Err(error)
    }
    function Extract(): T
      requires Ok?
    {
      value
    }
  }

  /** The result of a check that produces no value. */
  datatype Outcome = Pass | Fail(error: ErrorKind) {
    predicate IsFailure() { Fail? }
    function PropagateFailure(): Outcome
      requires Fail?
    {
      this
    }
  }

  /** Fails with `kind` unless `condition` holds. */
  function Need(condition: bool, kind: ErrorKind): (r: Outcome)
    ensures r.Pass? <==> condition
    ensures r.Fail? ==> r.error == kind
  {
    if condition then Pass else Fail(kind)
  }
}
