/** Shared vocabulary: the ways a Python `assert`/`raise` of the engines can fire, and the
    result of an operation that may hit one of them. */
module Common {

  datatype Error =
    | OutOfGpuBlocks         // "not enough free blocks on GPU"
    | OutOfCpuBlocks         // "not enough free blocks on CPU"
    | NotAllocated           // "request ... not allocated"
    | OnCpu                  // "request ... is currently on CPU"
    | WrongLocation          // "request ... is on ... now" when swapping
    | PopFromEmptyBatch      // IndexError of `requests.pop(-1)`
    | DuplicateInBatch       // "request ... already exists"
    | AlreadyStarted         // "the batch has already started one iteration"
    | NotStarted             // "the batch has not been started"
    | TooManyTokens          // ValueError of add_generated_token
    | NotAllOnGpu            // "Some requests are currently swapped out to CPU"
    | MigrationSizeMismatch  // assert on the lengths of source and target block lists

  datatype Option<+T> = None | Some(value: T)

  datatype Result<+T> = Ok(value: T) | Err(error: Error) {
    predicate IsFailure() { Err? }

    function PropagateFailure<U>(): Result<U>
      requires Err?
    {
      Err(error)
    }

    function Extract(): T
      requires Ok?
    {
      value
    }
  }

  /** An operation that mutates an object did what its specification says: it raised the error the
      specification raises, or it returned and left the object in the specified state. After an
      exception the state is unspecified: the event loop that owned the object is dead. */
  predicate Agrees<T(==)>(raised: Option<Error>, spec: Result<T>, now: T) {
    match spec
    case Ok(v) => raised.None? && now == v
    case Err(e) => raised == Some(e)
  }
}
