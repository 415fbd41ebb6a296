/** Fatal error codes raised by the emulator core and the result type that carries them. */
module Errors {

  /** The RAISE_ERROR codes that the modelled code raises.  Every one of them halts emulation. */
  datatype ErrorCode =
    | ErrorIntegrity        // internal consistency violated (ERROR_INTEGRITY)
    | ErrorUnimplemented    // feature or encoding not supported (ERROR_UNIMPLEMENTED)
    | UndefinedBehaviour    // the C code would shift by 32 or more here: no defined result

  /** Either a value or the fatal error that was raised instead. */
  datatype Result<+T> = Ok(value: T) | Err(code: ErrorCode) {
    predicate IsFailure() { Err? }

    function PropagateFailure<U>(): Result<U>
      requires Err?
    {
      Err(code)
    }

    function Extract(): T
      requires Ok?
    {
      value
    }
  }
}
