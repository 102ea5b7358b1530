/** The evaluator object: its stacks, token buffer, parenthesis offset and variable table are
    fields that its methods update in place. Each method is proved to do what the function of
    module Engine with the same role says. */
module Evaluation {
  import opened Tokens
  import opened Engine

  /** `Ingest` of a suffix, with the tokens already buffered put in front. */
  ghost function Prepend(buffered: seq<Token>, rest: Result<seq<Token>>): Result<seq<Token>>
  {
    if rest.Ok? then Ok(buffered + rest.value) else rest
  }

  class Evaluator {
    var operands: seq<real>
    var operators: seq<Pending>
    var tokens: seq<Token>
    /** The variable table: the only state that outlives a call of `Evaluate`. */
    var vars: map<string, real>
    var basePriority: int

    constructor ()
      ensures operands == [] && operators == [] && tokens == [] && basePriority == 0
      ensures vars == map[]
    {
      operands, operators, tokens, vars, basePriority := [], [], [], map[], 0;
    }

    /** The part of the state that token processing works on. */
    function State(): Machine
      reads this
    {
      Machine(Stacks(operands, operators), basePriority)
    }

    /** Clears the per-call state; the variable table is kept. */
    method Reset()
      modifies this
      ensures operands == [] && operators == [] && tokens == [] && basePriority == 0
      ensures vars == old(vars)
    {
      operators := [];
      operands := [];
      tokens := [];
      basePriority := 0;
    }

    /** Looks up a variable assigned by an earlier evaluation. */
    method GetVariable(name: string) returns (r: Result<real>)
      ensures name in vars ==> r == Ok(vars[name])
      ensures name !in vars ==> r == Err(EvalError("Unknown variable: " + name))
    {
      if name in vars {
        r := Ok(vars[name]);
      } else {
        r := Err(EvalError("Unknown variable: " + name));
      }
    }

    /** The token buffered last; indexing an empty buffer fails. */
    method GetPrevToken() returns (r: Result<Token>)
      ensures tokens != [] ==> r == Ok(tokens[|tokens| - 1])
      ensures tokens == [] ==> r == Err(IndexOutOfRange)
    {
      if |tokens| == 0 {
        r := Err(IndexOutOfRange);
      } else {
        r := Ok(tokens[|tokens| - 1]);
      }
    }

    /** Pops the top operator and applies it to the top one or two operands. */
    method ApplyOperator() returns (r: Result<()>)
      modifies this
      ensures tokens == old(tokens) && vars == old(vars) && basePriority == old(basePriority)
      ensures ApplyTop(old(State().stacks)) == if r.Ok? then Ok(State().stacks) else Err(r.error)
    {
      if |operators| == 0 {
        return Err(EmptyStack);
      }
      var op := operators[|operators| - 1];
      operators := operators[..|operators| - 1];
      if |operands| == 0 {
        return Err(EmptyStack);
      }
      var f1 := operands[|operands| - 1];
      operands := operands[..|operands| - 1];
      match op.op.kind {
        case Function(_, g) =>
          operands := operands + [g(f1)];
        case Arithmetic(_, g) =>
          if |operands| < 1 {
            return Err(EvalError("Too few operands"));
          }
          var f2 := operands[|operands| - 1];
          operands := operands[..|operands| - 1];
          operands := operands + [g(f2, f1)];
        case Unary(g) =>
          operands := operands + [g(f1)];
      }
      r := Ok(());
    }

    /** Handles one buffered token. */
    method Process(t: Token) returns (r: Result<()>)
      modifies this
      ensures tokens == old(tokens) && vars == old(vars)
      ensures Step(old(State()), t) == if r.Ok? then Ok(State()) else Err(r.error)
    {
      match t
      case Number(v) =>
        operands := operands + [v];
        r := Ok(());
      case Op(op) =>
        var p := Pending(op, basePriority + op.priority);
        while !OkToPush(operators, p)
          invariant tokens == old(tokens) && vars == old(vars) && basePriority == old(basePriority)
          invariant PushOperator(old(State().stacks), p) == PushOperator(State().stacks, p)
          decreases |operators|
        {
          var a := ApplyOperator();
          if a.Err? {
            return Err(a.error);
          }
        }
        operators := operators + [p];
        r := Ok(());
      case Punct(c) =>
        basePriority := basePriority + if c == '(' then ParenStep else -ParenStep;
        r := Ok(());
      case _ =>
        r := Err(UnknownToken(t));
    }

    /** Buffers the tokenizer's output up to the end marker; a lexical error aborts with its
        message. */
    method ReadTokens(input: seq<Token>) returns (r: Result<()>)
      requires tokens == []
      modifies this`tokens
      ensures Ingest(input) == if r.Ok? then Ok(tokens) else Err(r.error)
    {
      var i := 0;
      assert input[i..] == input;
      assert Ingest(input).Ok? ==> [] + Ingest(input).value == Ingest(input).value;
      while i < |input|
        invariant 0 <= i <= |input|
        invariant Ingest(input) == Prepend(tokens, Ingest(input[i..]))
      {
        var t := input[i];
        if t.End? {
          assert Ingest(input[i..]) == Ok([]) && tokens + [] == tokens;
          break;
        }
        if t.Error? {
          return Err(EvalError(t.message));
        }
        assert input[i..][1..] == input[i + 1..];
        assert Ingest(input[i..]) == Prepend([t], Ingest(input[i + 1..]));
        assert Ingest(input[i + 1..]).Ok? ==> tokens + ([t] + Ingest(input[i + 1..]).value) == (tokens + [t]) + Ingest(input[i + 1..]).value;
        tokens := tokens + [t];
        i := i + 1;
      }
      assert i == |input| ==> input[i..] == [] && tokens + [] == tokens;
      r := Ok(());
    }

    /** Processes every buffered token in order (the `foreach` over the buffer). */
    method ProcessTokens() returns (r: Result<()>)
      modifies this
      ensures tokens == old(tokens) && vars == old(vars)
      ensures Run(old(State()), tokens) == if r.Ok? then Ok(State()) else Err(r.error)
    {
      var j := 0;
      while j < |tokens|
        invariant 0 <= j <= |tokens| && tokens == old(tokens) && vars == old(vars)
        invariant Run(old(State()), tokens) == Run(State(), tokens[j..])
      {
        var p := Process(tokens[j]);
        if p.Err? {
          return Err(p.error);
        }
        assert tokens[j..][1..] == tokens[j + 1..];
        j := j + 1;
      }
      r := Ok(());
    }

    /** Applies the remaining operators until the operator stack is empty. */
    method DrainOperators() returns (r: Result<()>)
      modifies this
      ensures tokens == old(tokens) && vars == old(vars) && basePriority == old(basePriority)
      ensures Drain(old(State().stacks)) == if r.Ok? then Ok(State().stacks) else Err(r.error)
    {
      while |operators| > 0
        invariant tokens == old(tokens) && vars == old(vars) && basePriority == old(basePriority)
        invariant Drain(old(State().stacks)) == Drain(State().stacks)
        decreases |operators|
      {
        var a := ApplyOperator();
        if a.Err? {
          return Err(a.error);
        }
      }
      r := Ok(());
    }

    /** Evaluates the tokenizer's output. The variable table changes only when the call
        succeeds and the input is an assignment. */
    method Evaluate(input: seq<Token>) returns (r: Result<real>)
      modifies this
      ensures var spec := EvaluateSpec(input, old(vars));
              if spec.Ok? then r == Ok(spec.value.value) && vars == spec.value.vars
              else r == Err(spec.error) && vars == old(vars)
      ensures r.Ok? ==> operands == [] && operators == [] && basePriority == 0
    {
      Reset();
      var read := ReadTokens(input);
      if read.Err? {
        return Err(read.error);
      }
      assert Ingest(input) == Ok(tokens);

      // A leading `name =` makes the call an assignment to `name`.
      ghost var ingested := tokens;
      var target: Option<string> := None;
      if |tokens| > 2 && tokens[0].Variable? && IsAssignOp(tokens[1]) {
        target := Some(tokens[0].name);
        tokens := tokens[2..];
      }
      assert SplitAssignment(ingested) == (target, tokens);

      ghost var body := tokens;
      var processed := ProcessTokens();
      if processed.Err? {
        return Err(processed.error);
      }
      var drained := DrainOperators();
      if drained.Err? {
        return Err(drained.error);
      }
      assert Resolve(body) == Finish(State());
      if |operators| > 0 {
        return Err(EvalError("Too many operators"));
      }
      if |operands| > 1 {
        return Err(EvalError("Too many operands"));
      }
      if basePriority != 0 {
        return Err(EvalError("Invalid Paranthesis"));
      }
      if |operands| == 0 {
        return Err(EmptyStack);
      }
      var f := operands[|operands| - 1];
      operands := operands[..|operands| - 1];
      if target.Some? {
        vars := vars[target.value := f];
      }
      r := Ok(f);
    }
  }

  /** An assignment followed by a lookup of its target on the same evaluator: a successful
      assignment makes the stored value readable, and it stays so across calls. */
  method AssignThenRead(ev: Evaluator, input: seq<Token>, name: string) returns (r: Result<real>, read: Result<real>)
    requires Ingest(input).Ok? && SplitAssignment(Ingest(input).value).0 == Some(name)
    modifies ev
    ensures r.Ok? ==> read == r && ev.vars == old(ev.vars)[name := r.value]
    ensures r.Err? ==> ev.vars == old(ev.vars)
  {
    r := ev.Evaluate(input);
    read := ev.GetVariable(name);
  }
}
