/** Option and Result for the model, and the ways an execution can fail. */
module Wrappers {

  datatype Option<+T> = None | Some(value: T)

  /** Every failure of the machine is fatal: the source panics, or its behaviour is undefined. */
  datatype Error =
    | OutOfRange          // Tape::get_next or a Vec index past the end (a panic)
    | WildRead            // an unchecked pointer read outside the tape buffer (undefined behaviour)
    | IllTyped            // a word decoded with the wrong shape, e.g. a hint called as a function (undefined behaviour)
    | TypeMismatch        // an arithmetic operand that is not a float ("Invalid arguments!")
    | InvalidHint(code: nat)  // a hint word other than Return or While ("Invalid block hint")
    | IndexOutOfBounds    // a global slot past the end of the globals vector
    | StackUnderflow      // `stack.pop().unwrap()` on an empty stack
    | OutOfFuel           // the model's step bound ran out (the source would keep running)

  datatype Result<+T> = Ok(value: T) | Err(error: Error) {
    predicate IsFailure() { Err? }
    function PropagateFailure<U>(): Result<U>
      requires Err?
    {
      Err(error)
    }
    function Extract(): T
      requires Ok?
    {
      value
    }
  }

  /** A method's result `r` and state `now` are what the specification `spec` computes. */
  ghost predicate Yields<T, S>(r: Result<T>, spec: Result<(T, S)>, now: S) {
    match spec
    case Ok((v, s)) => r == Ok(v) && now == s
    case Err(e) => r == Err(e)
  }
}
