/** Failure-compatible result types shared by the whole model.
    The source aborts the process on user_error and internal_assert; the model
    turns each abort into a `Fault` value instead. */
module Outcomes {

  datatype Option<+T> = None | Some(value: T)

  /** The kinds of fatal error the lowering raises. */
  datatype Fault =
    | UnsupportedConstruct      // a node kind or shape outside the translatable subset
    | DuplicateDefinition       // a computation, constant or buffer declared twice
    | StructuralPrecondition    // a caller contract on the IR shape is broken
    | UntranslatableType        // no Coli type tag exists for a Halide type
    | UnboundSymbol             // a name looked up in the scope is not bound

  datatype Result<+T> = Ok(value: T) | Err(fault: Fault) {
    predicate IsFailure() { Err? }

    function PropagateFailure<U>(): Result<U>
      requires Err?
    {
      Err(fault)
    }

    function Extract(): T
      requires Ok?
    {
      value
    }
  }

  /** What a state-changing method returns: it passed, or the fault it stopped on. */
  datatype Outcome = Pass | Fail(fault: Fault)

  /** `r` and `now` are what a method produced, `spec` is what the specification
      function computes for the same call. */
  predicate Reflects<T(==)>(r: Outcome, spec: Result<T>, now: T) {
    match spec
    case Ok(v) => r == Pass && now == v
    case Err(f) => r == Fail(f)
  }
}
