/** The evaluator's algorithm, stated as functions over the values it works on: the operand
    and operator stacks, the parenthesis offset, the token buffer and the variable table.
    The class in module Evaluation runs the same algorithm by updating its fields in place and
    is proved to agree with these functions. */
module Engine {
  import opened Tokens

  /** An operator on the operator stack, with the final priority it was given when it was
      processed: the parenthesis offset of that moment plus its intrinsic priority. */
  datatype Pending = Pending(op: Operator, finalPriority: int)

  /** The operand stack and the operator stack; the top of each is its last element. */
  datatype Stacks = Stacks(operands: seq<real>, operators: seq<Pending>)

  /** Everything an evaluation changes while it processes tokens. */
  datatype Machine = Machine(stacks: Stacks, basePriority: int)

  /** A successful evaluation: its value and the variable table afterwards. */
  datatype Outcome = Outcome(value: real, vars: map<string, real>)

  /** Each `(` raises the parenthesis offset by this much and each `)` lowers it by as much. */
  const ParenStep := 10

  /** The state right after `Reset`. */
  const Start := Machine(Stacks([], []), 0)

  function Top<T>(s: seq<T>): T
    requires |s| > 0
  {
    s[|s| - 1]
  }

  function Pop<T>(s: seq<T>): seq<T>
    requires |s| > 0
  {
    s[..|s| - 1]
  }

  /** The failures popping and applying an operator can raise. */
  predicate StackFault(e: Failure) {
    e.EmptyStack? || (e.EvalError? && e.message == "Too few operands")
  }

  /** Pops the top operator and applies it to the operands: one operand for a function or a
      unary operator, two for an arithmetic one, the deeper of the two being the left
      argument. Popping an empty stack fails. */
  function ApplyTop(s: Stacks): (r: Result<Stacks>)
    ensures r.Ok? <==> |s.operators| > 0 && |s.operands| > 0 &&
                       (Top(s.operators).op.kind.Arithmetic? ==> |s.operands| > 1)
    ensures r.Ok? ==> r.value.operators == Pop(s.operators)
    ensures r.Ok? ==> var arity := if Top(s.operators).op.kind.Arithmetic? then 2 else 1;
                      |r.value.operands| == |s.operands| - arity + 1 &&
                      Pop(r.value.operands) == s.operands[..|s.operands| - arity]
    ensures |s.operators| > 0 && |s.operands| == 1 && Top(s.operators).op.kind.Arithmetic? ==>
              r == Err(EvalError("Too few operands"))
    ensures (|s.operators| == 0 || |s.operands| == 0) ==> r == Err(EmptyStack)
    ensures r.Err? ==> StackFault(r.error)
  {
    if |s.operators| == 0 then Err(EmptyStack)
    else
      var op, operators := Top(s.operators).op, Pop(s.operators);
      if |s.operands| == 0 then Err(EmptyStack)
      else
        var f1, rest := Top(s.operands), Pop(s.operands);
        match op.kind
        case Function(_, g) => Ok(Stacks(rest + [g(f1)], operators))
        case Arithmetic(_, g) =>
          if |rest| < 1 then Err(EvalError("Too few operands"))
          else Ok(Stacks(Pop(rest) + [g(Top(rest), f1)], operators))
        case Unary(g) => Ok(Stacks(rest + [g(f1)], operators))
  }

  /** The incoming operator may be pushed as it is: the stack is empty, the top was given a
      strictly lower final priority, or the incoming operator is unary. */
  predicate OkToPush(operators: seq<Pending>, incoming: Pending) {
    |operators| == 0 || Top(operators).finalPriority < incoming.finalPriority || incoming.op.kind.Unary?
  }

  /** Applies stacked operators until the incoming one may be pushed, then pushes it. */
  function PushOperator(s: Stacks, p: Pending): (r: Result<Stacks>)
    ensures r.Ok? ==> |r.value.operators| > 0 && Top(r.value.operators) == p
    ensures r.Ok? ==> Pop(r.value.operators) <= s.operators && OkToPush(Pop(r.value.operators), p)
    ensures r.Ok? ==> |r.value.operands| <= |s.operands|
    ensures r.Err? ==> StackFault(r.error)
    decreases |s.operators|
  {
    if OkToPush(s.operators, p) then Ok(Stacks(s.operands, s.operators + [p]))
    else
      match ApplyTop(s)
      case Err(e) => Err(e)
      case Ok(s') => PushOperator(s', p)
  }

  /** The change one token makes (the body of `Process`). */
  function Step(m: Machine, t: Token): (r: Result<Machine>)
    ensures t.Number? ==> r == Ok(m.(stacks := m.stacks.(operands := m.stacks.operands + [t.value])))
    ensures t.Punct? ==> r == Ok(m.(basePriority := m.basePriority + if t.symbol == '(' then ParenStep else -ParenStep))
    ensures t.Op? && r.Ok? ==> r.value.basePriority == m.basePriority && |r.value.stacks.operators| > 0 &&
                               Top(r.value.stacks.operators) == Pending(t.op, m.basePriority + t.op.priority)
    ensures !(t.Number? || t.Op? || t.Punct?) ==> r == Err(UnknownToken(t))
    ensures r.Err? ==> StackFault(r.error) || r.error.UnknownToken?
  {
    match t
    case Number(v) => Ok(Machine(Stacks(m.stacks.operands + [v], m.stacks.operators), m.basePriority))
    case Op(op) =>
      var s :- PushOperator(m.stacks, Pending(op, m.basePriority + op.priority));
      Ok(Machine(s, m.basePriority))
    case Punct(c) => Ok(Machine(m.stacks, m.basePriority + if c == '(' then ParenStep else -ParenStep))
    case _ => Err(UnknownToken(t))
  }

  /** Number of `(` minus number of other punctuation tokens. */
  function Balance(ts: seq<Token>): int
  {
    if ts == [] then 0
    else (if ts[0].Punct? then (if ts[0].symbol == '(' then 1 else -1) else 0) + Balance(ts[1..])
  }

  /** Processes the tokens in order, stopping at the first failure. */
  function Run(m: Machine, ts: seq<Token>): (r: Result<Machine>)
    ensures r.Ok? ==> r.value.basePriority == m.basePriority + ParenStep * Balance(ts)
    ensures r.Err? ==> StackFault(r.error) || r.error.UnknownToken?
    decreases |ts|
  {
    if ts == [] then Ok(m)
    else
      var m' :- Step(m, ts[0]);
      Run(m', ts[1..])
  }

  /** Applies operators until the operator stack is empty. */
  function Drain(s: Stacks): (r: Result<Stacks>)
    ensures r.Ok? ==> r.value.operators == []
    ensures r.Ok? ==> |r.value.operands| <= |s.operands|
    ensures r.Err? ==> StackFault(r.error)
    decreases |s.operators|
  {
    if |s.operators| == 0 then Ok(s)
    else
      var s' :- ApplyTop(s);
      Drain(s')
  }

  /** The checks after the drain, in the order the evaluator makes them, and the popped
      result. */
  function Finish(m: Machine): (r: Result<real>)
    ensures r.Ok? <==> m.stacks.operators == [] && |m.stacks.operands| == 1 && m.basePriority == 0
    ensures r.Ok? ==> r.value == m.stacks.operands[0]
    ensures m.stacks.operators != [] ==> r == Err(EvalError("Too many operators"))
    ensures m.stacks.operators == [] && |m.stacks.operands| > 1 ==> r == Err(EvalError("Too many operands"))
    ensures m.stacks.operators == [] && |m.stacks.operands| <= 1 && m.basePriority != 0 ==>
              r == Err(EvalError("Invalid Paranthesis"))
    ensures m.stacks.operators == [] && m.stacks.operands == [] && m.basePriority == 0 ==> r == Err(EmptyStack)
  {
    if |m.stacks.operators| > 0 then Err(EvalError("Too many operators"))
    else if |m.stacks.operands| > 1 then Err(EvalError("Too many operands"))
    else if m.basePriority != 0 then Err(EvalError("Invalid Paranthesis"))
    else if |m.stacks.operands| == 0 then Err(EmptyStack)
    else Ok(Top(m.stacks.operands))
  }

  /** Neither the end marker nor a lexical error. */
  predicate Ordinary(t: Token) {
    !t.End? && !t.Error?
  }

  /** Pulls tokens until the end marker (or the end of the input, which the tokenizer also
      reports as the end marker); a lexical error aborts with its message. */
  function Ingest(input: seq<Token>): Result<seq<Token>>
  {
    if input == [] then Ok([])
    else if input[0].End? then Ok([])
    else if input[0].Error? then Err(EvalError(input[0].message))
    else
      var rest :- Ingest(input[1..]);
      Ok([input[0]] + rest)
  }

  /** Ingestion keeps every token before the first end marker, in order; it fails exactly
      when a lexical error comes before the end marker, with that error's message. */
  lemma {:induction false} IngestStopsAtEnd(input: seq<Token>)
    ensures Ingest(input).Ok? ==>
              var ts := Ingest(input).value;
              && |ts| <= |input| && ts == input[..|ts|]
              && (forall j :: 0 <= j < |ts| ==> Ordinary(ts[j]))
              && (|ts| == |input| || input[|ts|].End?)
    ensures Ingest(input).Err? ==>
              exists k :: && 0 <= k < |input| && input[k].Error?
                          && Ingest(input).error == EvalError(input[k].message)
                          && (forall j :: 0 <= j < k ==> Ordinary(input[j]))
  {
    if input != [] && !input[0].End? && !input[0].Error? {
      IngestStopsAtEnd(input[1..]);
      var rest := Ingest(input[1..]);
      if rest.Err? {
        var k :| 0 <= k < |input[1..]| && input[1..][k].Error? && rest.error == EvalError(input[1..][k].message) &&
                 forall j :: 0 <= j < k ==> Ordinary(input[1..][j]);
        assert input[k + 1] == input[1..][k];
        assert forall j :: 0 <= j < k + 1 ==> Ordinary(input[j]) by {
          forall j | 0 <= j < k + 1 ensures Ordinary(input[j]) {
            if j > 0 { assert input[j] == input[1..][j - 1]; }
          }
        }
      }
    }
  }

  /** The assignment pattern: more than two tokens, a variable, then the arithmetic
      operator `=`. On a match the target's name is returned and exactly those two tokens
      are removed. */
  function SplitAssignment(ts: seq<Token>): (r: (Option<string>, seq<Token>))
    ensures r.0.Some? <==> |ts| > 2 && ts[0].Variable? && IsAssignOp(ts[1])
    ensures r.0.Some? ==> r.0.value == ts[0].name && r.1 == ts[2..]
    ensures r.0.None? ==> r.1 == ts
  {
    if |ts| > 2 && ts[0].Variable? && IsAssignOp(ts[1]) then (Some(ts[0].name), ts[2..])
    else (None, ts)
  }

  /** Processing the buffered tokens from the reset state, draining the operator stack and
      the final checks. */
  function Resolve(body: seq<Token>): (r: Result<real>)
  {
    var m :- Run(Start, body);
    var s :- Drain(m.stacks);
    Finish(Machine(s, m.basePriority))
  }

  /** A whole call of `Evaluate` on the tokenizer's output, given the variable table before
      the call. */
  function EvaluateSpec(input: seq<Token>, vars: map<string, real>): (r: Result<Outcome>)
  {
    var ts :- Ingest(input);
    var (target, body) := SplitAssignment(ts);
    var v :- Resolve(body);
    Ok(Outcome(v, if target.Some? then vars[target.value := v] else vars))
  }
}
