/** Tokens handed to the evaluator by the tokenizer, and the ways an evaluation can fail.

    A C# `double` is modelled as a `real`. What an operator computes is not part of the
    evaluator: each operator token carries its own evaluation function, and the engine only
    ever calls it, so any function of the right shape may stand there. */
module Tokens {

  /** The three operator classes: a binary arithmetic operator (`TOpArithmetic`, with its
      symbol), a unary operator (`TOpUnary`) and a single-argument function (`TOpFunction`). */
  datatype OpKind =
    | Arithmetic(symbol: char, binary: (real, real) -> real)
    | Unary(unary: real -> real)
    | Function(name: string, apply: real -> real)

  /** An operator token with its intrinsic priority. */
  datatype Operator = Operator(kind: OpKind, priority: int)

  datatype Token =
    | Number(value: real)
    | Op(op: Operator)
    | Punct(symbol: char)
    | Variable(name: string)
    | End
    | Error(message: string)

  /** `EvalError` is an `EvalException` with its message; `UnknownToken` is the one whose
      message names the token; `EmptyStack` is the exception `Stack.Pop` throws on an empty
      stack; `IndexOutOfRange` is the one a list throws when indexed past its end. */
  datatype Failure =
    | EvalError(message: string)
    | UnknownToken(token: Token)
    | EmptyStack
    | IndexOutOfRange

  datatype Option<+T> = None | Some(value: T)

  datatype Result<+T> = Ok(value: T) | Err(error: Failure) {
    predicate IsFailure() {
      Err?
    }

    function PropagateFailure<U>(): Result<U>
      requires Err?
    {
      Err(error)
    }

    function Extract(): T
      requires Ok?
    {
      value
    }
  }

  /** True for the operator `=` as the tokenizer classifies it: an arithmetic operator. */
  predicate IsAssignOp(t: Token) {
    t.Op? && t.op.kind.Arithmetic? && t.op.kind.symbol == '='
  }
}
