/** Failure-compatible wrappers shared by the evaluator modules. */
module Outcomes {

  datatype Option<+T> = None | Some(value: T)

  /** Every way an evaluation can stop without a value. */
  datatype Error =
    | InvalidEquation                  // a terminal symbol other than '-' with no operand before it
    | SymbolNotFound(name: string)     // an operand that is no literal, no constant and no bound variable
    | NumberFormat(text: string)       // the prefix of an imaginary literal that does not parse as a real
    | FunctionNotSupported(name: string)
    | DivisionByZero
    | InvalidOperator(op: char)
    | UnbalancedParenthesis            // the bracket scan ran past the end of the text
    | IndexOutOfBounds                 // an operator without a right-hand operand during reduction
    | NoSuchElement                    // no operand at all once the reduction is done
    | NonFiniteQuotient                // `tan` where `cos` is exactly zero: the platform yields NaN/Infinity

  datatype Result<+T> = Ok(value: T) | Err(error: Error) {
    predicate IsFailure() {
      Err?
    }

    function PropagateFailure<U>(): Result<U>
      requires Err?
    {
      Err(error)
    }

    function Extract(): T
      requires Ok?
    {
      value
    }
  }
}
