/**
  Error values standing for the exceptions the calculator raises, and the
  failure-compatible wrappers that carry them.
 */
module Results {
  import opened Tokens

  datatype Option<T> = None | Some(value: T)

  /** One constructor per way an evaluation can be aborted. */
  datatype Error =
    | InvalidCharacter(ch: char, pos: nat)        // Lexer.error
    | InvalidLiteral                              // int("") inside Lexer.integer
    | InvalidSyntax(expected: Kind, found: Kind)  // Parser.error raised by eat
    | NoVisitMethod                               // NodeVisitor.generic_visit on a None node
    | DivisionByZero                              // ZeroDivisionError from `//`
    | OperandIsNone                               // TypeError from arithmetic on None

  datatype Result<T> = Ok(value: T) | Err(error: Error) {
    predicate IsFailure() {
      Err?
    }

    function PropagateFailure<U>(): Result<U>
      requires Err?
    {
      Err(error)
    }

    function Extract(): T
      requires Ok?
    {
      value
    }
  }

  /** The result of an operation that returns nothing or raises (`eat`). */
  datatype Outcome = Pass | Fail(error: Error) {
    predicate IsFailure() {
      Fail?
    }

    function PropagateFailure<U>(): Result<U>
      requires Fail?
    {
      Err(error)
    }
  }
}
