/** Option/Result wrappers and the library's error kinds (src/error.rs, src/strategy/error.rs). */
module Wrappers {

  datatype Option<T> = None | Some(value: T)

  /** Errors raised while validating a strategy tree. */
  datatype StrategyError = MissingElseBranch | EmptySequence

  /** Errors raised by comparing two outputs. */
  datatype OutputError = TypeMismatch | LengthMismatch(left: nat, right: nat)

  /**
   * The error kinds of `TaError` that the modelled code can raise.
   * `InvalidParameter` stands for the constructor parameter errors (raised
   * directly or through the utility crate's error type).
   */
  datatype TaError =
    | InvalidParameter
    | EmptyIterator
    | Unexpected
    | NotInitialized
    | Cmp(cmpError: OutputError)
    | Strategy(strategyError: StrategyError)

  datatype Result<T> = Ok(value: T) | Err(error: TaError)
  {
    predicate IsFailure() { Err? }
    function PropagateFailure<U>(): Result<U> requires Err? { Err(error) }
    function Extract(): T requires Ok? { value }

    /** The value transformed, an error passed through. */
    function Map<U>(f: T -> U): (r: Result<U>)
      ensures r.Ok? <==> Ok?
      ensures Ok? ==> r.value == f(value)
      ensures Err? ==> r.error == error
    {
      if Ok? then Ok(f(value)) else Err(error)
    }
  }
}
