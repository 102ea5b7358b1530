# Expression evaluator (Evaluator.cs) in Dafny

This project models the evaluation engine of a small single-line expression evaluator. The
tokenizer hands the `Evaluator` class a stream of classified tokens. These are numbers, operators
(binary arithmetic, unary, single-argument functions), punctuation, variable references, an end
marker and lexical errors. `Evaluate` does the following:

- resets the per-call state;
- buffers tokens up to the end marker, and aborts on a lexical error;
- strips a leading `name =` assignment pattern;
- feeds each token to `Process`, an operator-precedence loop over an operand stack and an
  operator stack;
- drains the operator stack and checks what is left, in order: too many operators, too many
  operands, unbalanced parentheses;
- pops the result and, for an assignment, stores it in the variable table. That table is the only
  state that outlives a call.

Parentheses change no stack. Each `(` adds 10 to a running offset, `BasePriority`, and any other
punctuation subtracts 10. Each operator is stamped with a final priority: the offset plus its
intrinsic priority. The stacked operator on top is applied while its final priority is not
strictly lower than the incoming one, except that an incoming unary operator is always pushed
at once.

The model has these modules:

- `Tokens` holds the token and failure types and a `Result` type for the exception paths.
- `Engine` holds the algorithm as functions over values: `ApplyTop`, `OkToPush`, `PushOperator`,
  `Step`, `Run`, `Drain`, `Finish`, `Ingest`, `SplitAssignment` and `EvaluateSpec`.
- `Evaluation` holds the class `Evaluator`. Its seq and map fields are updated in place by
  methods named after the C# ones. Each method's postcondition ties its result and new state to
  the matching `Engine` function, and its loops carry the invariants that make this so.
- `Properties` holds lemmas about the engine: the push/pop rule, parentheses, reachability of
  the final checks, and the variable table.
- `Steps` holds small step lemmas about `Run` used by the larger proofs.
- `Grouping` holds what the precedence rule does to concrete shapes of input: three operands,
  a unary operator after a binary one, chains of non-rising priority, and parentheses that are
  only counted.
- `Reference` holds an independent semantics: expression trees with a recursive `Value`. A tree
  written out fully parenthesised evaluates to exactly its value, and as an assignment stores it.

C# `double` is modelled as `real`. What an operator computes is a function carried by its token.
Every exception becomes an `Err` value:

- `EvalError(message)` is an `EvalException`;
- `UnknownToken(t)` is the "Unknown token" exception;
- `EmptyStack` is `Stack.Pop` on an empty stack;
- `IndexOutOfRange` is `mTokens[^1]` on an empty list.

The code subtracts 10 for any punctuation other than `(`, not only for `)`. The model follows
the code.

## Model

| member | source | states |
|---|---|---|
| Evaluation.Evaluator.constructor | Evaluator.cs:62-63 | A new evaluator has empty operand, operator and token lists, offset 0 and an empty variable table. The field initialisers of `mVars` (line 40) and `mTokens` (line 89) are covered too. |
| Evaluation.Evaluator.Reset | Evaluator.cs:83-85 | Both stacks and the token buffer are emptied and the offset is 0. The variable table is unchanged. |
| Evaluation.Evaluator.GetVariable | Evaluator.cs:36-39 | A stored name yields its value. An unknown name fails with `Unknown variable: <name>`. |
| Evaluation.Evaluator.GetPrevToken | Evaluator.cs:87 | Yields the last buffered token. It fails when the buffer is empty. |
| Engine.ApplyTop | Evaluator.cs:65-81 | Succeeds iff there is an operator and an operand, plus a second operand for an arithmetic operator. On success it pops exactly one operator and replaces the top one or two operands by a single result, leaving the rest of the stack unchanged. Exactly one operand under an arithmetic operator fails with "Too few operands". An empty stack fails with `EmptyStack`. |
| Evaluation.Evaluator.ApplyOperator | Evaluator.cs:65-81 | The new stacks or the failure are those of `ApplyTop` on the old stacks. The buffer, table and offset do not change. |
| Engine.PushOperator | Evaluator.cs:48-51 | On success the incoming operator is on top. Beneath it is a prefix of the old operator stack on which `OkToPush` holds, and the operand stack never grows. Failures are only stack faults. |
| Engine.OkToPush | Evaluator.cs:60 | Definition of the tie-break rule: push when the stack is empty, when the top's final priority is strictly lower, or when the incoming operator is unary. Its properties are stated by `Engine.PushOperator` (everything left beneath a pushed operator satisfies it), `Properties.UnaryAlwaysPushes` and `Properties.PushAgainstTop`. |
| Properties.UnaryAlwaysPushes | Evaluator.cs:60 | A unary operator is pushed without applying anything, whatever is on the stack. |
| Properties.PushAgainstTop | Evaluator.cs:49-60 | A non-unary operator goes straight over a top whose final priority is strictly lower. Against an equal or higher top, the top is applied first and the push is retried. |
| Properties.PushReduces | Evaluator.cs:49-51 | Pushing a non-unary operator is the same as applying every stacked operator whose final priority is at least its own, then pushing it. |
| Engine.Step | Evaluator.cs:42-58 | A number is pushed as an operand. `(` raises the offset by 10 and any other punctuation lowers it by 10. An operator ends on top with final priority offset plus intrinsic priority, and the offset is unchanged. Any other token fails with `UnknownToken`. Failures are only stack faults or unknown tokens. |
| Evaluation.Evaluator.Process | Evaluator.cs:42-61 | The new state or the failure is that of `Step` on the old state. The buffer and table do not change. |
| Engine.Run | Evaluator.cs:24 | After processing a token sequence, the offset is the old one plus 10 times the number of `(` less the number of other punctuation. Failures are only stack faults or unknown tokens. |
| Evaluation.Evaluator.ProcessTokens | Evaluator.cs:24 | The new state or the failure is that of `Run` over the whole buffer from the old state. |
| Properties.RunAppend | Evaluator.cs:24 | Processing `a + b` is processing `a` and then `b`, and a failure in `a` stops the run. |
| Properties.RunNeedsKnownTokens | Evaluator.cs:56-57 | A run that succeeds saw only numbers, operators and punctuation. A variable reference left in the buffer fails. |
| Engine.Drain | Evaluator.cs:25 | A successful drain leaves the operator stack empty and never adds operands. Failures are only stack faults. |
| Evaluation.Evaluator.DrainOperators | Evaluator.cs:25 | The new stacks or the failure are those of `Drain`. The offset, buffer and table do not change. |
| Properties.DrainAfterReduce | Evaluator.cs:25 | The final drain may first apply everything at or above any threshold and then drain the rest. |
| Engine.Finish | Evaluator.cs:26-29 | Succeeds iff there are no operators, exactly one operand and offset 0, and then yields that operand. Each failure is named, in the order the checks are made. Leftover operators fail with "Too many operators". Otherwise more than one operand fails with "Too many operands". Otherwise a non-zero offset fails with "Invalid Paranthesis". Otherwise an empty operand stack fails with `EmptyStack`, the fault of the final pop. |
| Properties.TooManyOperatorsUnreachable | Evaluator.cs:25-26 | The "Too many operators" check never fires, because the drain always empties the operator stack. |
| Properties.UnbalancedNeverSucceeds | Evaluator.cs:28 | A sequence whose `(` and closing punctuation do not balance never yields a value. |
| Grouping.ParenthesesOnlyCounted | Evaluator.cs:28 | The balance check compares only the final offset with 0, so `) a (` is accepted and evaluates to `a`. |
| Engine.Ingest | Evaluator.cs:11-16 | Definition of the ingestion loop. Its properties are stated by `Engine.IngestStopsAtEnd`, and `Evaluation.Evaluator.ReadTokens` is proved equal to it. |
| Engine.IngestStopsAtEnd | Evaluator.cs:11-16 | Ingestion keeps exactly the tokens before the first end marker, in order. It fails iff a lexical error comes first, with that error's message. |
| Evaluation.Evaluator.ReadTokens | Evaluator.cs:11-16 | The buffer afterwards, or the failure, is what `Ingest` gives for the input. |
| Engine.SplitAssignment | Evaluator.cs:19-23 | There is an assignment iff there are more than two tokens and they begin with a variable and the arithmetic operator `=`. Then the target is that variable's name and exactly the first two tokens are removed. Otherwise the tokens are unchanged. |
| Engine.Resolve | Evaluator.cs:24-29 | Definition of the processing, drain and checks, from the reset state. Its properties are stated by `Engine.Run`, `Engine.Drain`, `Engine.Finish`, `Properties.TooManyOperatorsUnreachable`, `Properties.UnbalancedNeverSucceeds` and `Reference.ResolvesToValue`. |
| Engine.EvaluateSpec | Evaluator.cs:8-32 | Definition of a whole call on the tokenizer's output and the table before it. `Evaluation.Evaluator.Evaluate` is proved equal to it. Its properties are stated by `Properties.OnlyAssignmentWrites`, `Properties.NoAssignmentKeepsTable`, `Properties.ValueIgnoresTable`, the `Grouping` lemmas and `Reference.EvaluatesToValue`. |
| Evaluation.Evaluator.Evaluate | Evaluator.cs:8-32 | Result and new table are those of `EvaluateSpec` on the input and the old table. On any failure the table is unchanged. On success both stacks are empty and the offset is 0. |
| Evaluation.AssignThenRead | Evaluator.cs:30-39 | After a successful assignment, looking the target up yields the assigned value. The table changes only under that name, and a failed assignment leaves it unchanged. |
| Properties.OnlyAssignmentWrites | Evaluator.cs:19-30 | A successful call writes the table only under the assignment target, with the value of the tokens after `name =`. Without an assignment the table is unchanged and the value is that of the whole buffer. |
| Properties.NoAssignmentKeepsTable | Evaluator.cs:8-32 | A successful call without assignment leaves the table unchanged. |
| Properties.ValueIgnoresTable | Evaluator.cs:8-32 | For a given token sequence, whether a call succeeds and its value do not depend on the table it starts from. |
| Grouping.ThreeOperands | Evaluator.cs:47-60 | `a o1 b o2 c` with arithmetic operators is `(a o1 b) o2 c` when o1's priority is at least o2's, and `a o1 (b o2 c)` when it is strictly lower. |
| Grouping.UnaryBindsTighter | Evaluator.cs:60 | `a o u b` with `u` unary is `a o (u b)`, whatever the two priorities. |
| Grouping.LeftToRight | Evaluator.cs:47-60 | A chain of binary operators whose priorities never rise evaluates strictly from left to right. So equal priorities are left-associative. |
| Reference.RunExpr | Evaluator.cs:42-60 | Processing a fully parenthesised well-formed tree keeps the offset. It leaves only operators above the next parenthesis level on the stack, and those reduce to the tree's value pushed on the old stacks. |
| Reference.ResolvesToValue | Evaluator.cs:24-29 | Processing, draining and checking a fully parenthesised well-formed tree yields its value, as computed recursively on the tree. |
| Reference.EvaluatesToValue | Evaluator.cs:8-32 | `Evaluate` on a fully parenthesised well-formed tree returns its value and leaves the table unchanged. |
| Reference.AssignmentStoresValue | Evaluator.cs:19-30 | `x = e`, with `e` a fully parenthesised well-formed tree, returns the value of `e` and stores it under `x`. |

## Left out

- The tokenizer (`Tokenizer`, lines 10 and 12) is not part of this model. The input is the
  sequence of tokens it would produce, and the end of that sequence acts as the end marker.
  Its calls back into `GetVariable` and `GetPrevToken` while scanning are not modelled. The
  model assumes the tokenizer has already replaced each variable reference in the expression
  by a `Number` token carrying the variable's value. A `Variable` token left in the body fails
  with `UnknownToken`, not with "Unknown variable".
- Properties.ValueIgnoresTable: holds for a fixed token sequence only. In the program the
  tokens for `x + 1` are produced with the table in hand (line 10 passes the evaluator to the
  tokenizer), so the value of such an input does depend on the table.
- Properties.NoAssignmentKeepsTable: rests on the same assumption. Scenarios such as `x = 5`
  followed by `x + 1` giving 6 are covered only through that assumption: the second call's
  tokens must already carry 5 in place of `x`.
- Floating point: `double` is modelled as `real`, so rounding, infinities and NaN are not
  captured.
- What operators and functions compute (the `Evaluate` members of the operator token classes)
  is not part of this model. Each token carries an arbitrary function of the right shape.
- The `EvalException` class (lines 3-5) is modelled only as the `EvalError(message)` failure.
  Exception types are not distinguished beyond the `Failure` variants.
- The "Unknown token" message renders the token as text. The model keeps the token itself
  (`UnknownToken(t)`), since the token's string form is not part of this model.
- `FinalPriority` is written onto the operator token object itself. The model pairs the
  operator with its final priority on the stack instead, so aliasing between the buffer and
  the operator stack is not captured. Each buffered token is processed once, so nothing
  observable depends on it, provided the tokenizer yields a fresh token object each time. If
  it handed out one shared `-` instance twice, line 48 would rewrite the stacked operator's
  `FinalPriority` too, and `a - (b - c)` would apply the outer `-` first. The model assumes
  distinct objects.
- Evaluation.Evaluator.Evaluate: after a failure only the variable table is specified. The
  partly processed stacks the C# object keeps until the next `Reset` are left unspecified.
- Reference.EvaluatesToValue: proved only for trees written fully parenthesised, with
  intrinsic priorities from 0 to 9. The tokenizer's priority table is not part of this model,
  and a higher intrinsic priority could let an operator inside parentheses outrank one outside.
- Reference.AssignmentStoresValue: same restriction on the expression as
  Reference.EvaluatesToValue.
