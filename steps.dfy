/** Single steps of the evaluation functions, stated on stacks of any depth, so that longer
    runs can be computed one token at a time. */
module Steps {
  import opened Tokens
  import opened Engine

  /** An arithmetic operator on top takes the two top operands, the deeper one as its left
      argument. */
  lemma {:induction false} ApplyBinary(xs: seq<real>, x: real, y: real, ops: seq<Pending>, p: Pending)
    requires p.op.kind.Arithmetic?
    ensures ApplyTop(Stacks(xs + [x, y], ops + [p])) == Ok(Stacks(xs + [p.op.kind.binary(x, y)], ops))
  {
    var s := Stacks(xs + [x, y], ops + [p]);
    assert Top(s.operators) == p && Pop(s.operators) == ops;
    assert Top(s.operands) == y && Pop(s.operands) == xs + [x];
    assert Top(xs + [x]) == x && Pop(xs + [x]) == xs;
  }

  /** What a unary operator or a function does to its single operand. */
  function ApplyOne(k: OpKind, x: real): real
    requires !k.Arithmetic?
  {
    if k.Unary? then k.unary(x) else k.apply(x)
  }

  /** A unary operator or a function on top takes the top operand. */
  lemma {:induction false} ApplyUnary(xs: seq<real>, x: real, ops: seq<Pending>, p: Pending)
    requires !p.op.kind.Arithmetic?
    ensures ApplyTop(Stacks(xs + [x], ops + [p])) == Ok(Stacks(xs + [ApplyOne(p.op.kind, x)], ops))
  {
    var s := Stacks(xs + [x], ops + [p]);
    assert Top(s.operators) == p && Pop(s.operators) == ops;
    assert Top(s.operands) == x && Pop(s.operands) == xs;
  }

  lemma {:induction false} PushOnto(s: Stacks, p: Pending)
    requires OkToPush(s.operators, p)
    ensures PushOperator(s, p) == Ok(Stacks(s.operands, s.operators + [p]))
  {
  }

  lemma {:induction false} PushAfterApply(s: Stacks, p: Pending, s': Stacks)
    requires !OkToPush(s.operators, p) && ApplyTop(s) == Ok(s')
    ensures PushOperator(s, p) == PushOperator(s', p)
  {
  }

  lemma {:induction false} DrainOne(s: Stacks, s': Stacks)
    requires |s.operators| > 0 && ApplyTop(s) == Ok(s')
    ensures Drain(s) == Drain(s')
  {
  }

  lemma {:induction false} StepOp(m: Machine, o: Operator, s': Stacks)
    requires PushOperator(m.stacks, Pending(o, m.basePriority + o.priority)) == Ok(s')
    ensures Step(m, Op(o)) == Ok(Machine(s', m.basePriority))
  {
  }

  lemma {:induction false} RunCons(m: Machine, t: Token, rest: seq<Token>, next: Machine)
    requires Step(m, t) == Ok(next)
    ensures Run(m, [t] + rest) == Run(next, rest)
  {
    assert ([t] + rest)[0] == t && ([t] + rest)[1..] == rest;
  }

  /** An opening parenthesis at the head of the tokens raises the offset by one step. */
  lemma {:induction false} RunParen(m: Machine, rest: seq<Token>)
    ensures Run(m, [Punct('(')] + rest) == Run(Machine(m.stacks, m.basePriority + ParenStep), rest)
  {
    RunCons(m, Punct('('), rest, Machine(m.stacks, m.basePriority + ParenStep));
  }

  /** A number at the head of the tokens is pushed on the operand stack. */
  lemma {:induction false} RunNumber(m: Machine, v: real, rest: seq<Token>)
    ensures Run(m, [Number(v)] + rest) == Run(Machine(Stacks(m.stacks.operands + [v], m.stacks.operators), m.basePriority), rest)
  {
    RunCons(m, Number(v), rest, Machine(Stacks(m.stacks.operands + [v], m.stacks.operators), m.basePriority));
  }

  /** An operator at the head of the tokens goes through `PushOperator` with its final
      priority. */
  lemma {:induction false} RunOperator(m: Machine, o: Operator, s': Stacks, rest: seq<Token>)
    requires PushOperator(m.stacks, Pending(o, m.basePriority + o.priority)) == Ok(s')
    ensures Run(m, [Op(o)] + rest) == Run(Machine(s', m.basePriority), rest)
  {
    StepOp(m, o, s');
    RunCons(m, Op(o), rest, Machine(s', m.basePriority));
  }

  /** Input made only of processable tokens is buffered whole. */
  lemma {:induction false} IngestOrdinary(ts: seq<Token>)
    requires forall i :: 0 <= i < |ts| ==> Ordinary(ts[i])
    ensures Ingest(ts) == Ok(ts)
    decreases |ts|
  {
    if ts != [] {
      assert Ordinary(ts[0]);
      assert forall i :: 0 <= i < |ts[1..]| ==> ts[1..][i] == ts[i + 1];
      IngestOrdinary(ts[1..]);
      assert [ts[0]] + ts[1..] == ts;
    }
  }

  /** A call whose input holds only processable tokens and is not an assignment leaves the
      variable table alone and yields what its tokens resolve to. */
  lemma {:induction false} EvaluatePlain(ts: seq<Token>, vars: map<string, real>)
    requires forall i :: 0 <= i < |ts| ==> Ordinary(ts[i])
    requires !(|ts| > 2 && ts[0].Variable? && IsAssignOp(ts[1]))
    ensures EvaluateSpec(ts, vars) == (var v := Resolve(ts); if v.Ok? then Ok(Outcome(v.value, vars)) else Err(v.error))
  {
    IngestOrdinary(ts);
  }

  /** Plain input whose run from the reset state ends at offset 0 with stacks that drain to
      a single value evaluates to that value and leaves the table as it was. */
  lemma {:induction false} EvaluateByRun(ts: seq<Token>, vars: map<string, real>, m: Machine, v: real)
    requires forall i :: 0 <= i < |ts| ==> Ordinary(ts[i])
    requires ts != [] && ts[0].Number?
    requires Run(Start, ts) == Ok(m) && m.basePriority == 0
    requires Drain(m.stacks) == Ok(Stacks([v], []))
    ensures EvaluateSpec(ts, vars) == Ok(Outcome(v, vars))
  {
    assert Resolve(ts) == Ok(v);
    EvaluatePlain(ts, vars);
  }
}
