/** Optional values and failure-carrying results shared by every module of the model.
    Each exception the modelled Python code raises becomes a `Failure` constructor. */
module Outcome {

  datatype Option<+T> = None | Some(value: T)

  /** The kinds of exception the modelled code raises. */
  datatype Failure =
    | NotFound                               // `next(...)` found nothing: StopIteration
    | InvalidQuery                           // InvalidQueryError from `raise_on_invalid`
    | UnknownEndpoint                        // KeyError for an endpoint other than LogicLayer
    | NotImplemented                         // NotImplementedError
    | InvalidDimensionType(value: string)    // ValueError from the dimension-type validator
    | MissingKey(key: string)                // KeyError on a record or a parameter mapping
    | BadOperand(reason: string)             // TypeError or AttributeError while formatting
    | ValidationError(reason: string)        // a record a schema class refuses to build

  /** A value, or the exception raised instead; usable with `:-`. */
  datatype Result<+T> = Ok(value: T) | Err(error: Failure) {

    predicate IsFailure() {
      Err?
    }

    function PropagateFailure<U>(): Result<U>
      requires Err?
    {
      Err(error)
    }

    function Extract(): T
      requires Ok?
    {
      value
    }
  }
}
