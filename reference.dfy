/** A reference semantics for the evaluator: expression trees with their value computed by
    recursion on the tree. Written out with every operator application in its own
    parentheses, a tree evaluates to exactly its value, and the assignment form stores that
    value under the target name. */
module Reference {
  import opened Tokens
  import opened Engine
  import opened Properties
  import opened Steps

  datatype Expr =
    | Lit(value: real)
    | Binary(left: Expr, op: Operator, right: Expr)
    | Prefix(op: Operator, arg: Expr)

  /** Binary nodes hold arithmetic operators, prefix nodes unary operators or functions, and
      every intrinsic priority lies below the parenthesis step. */
  predicate WellFormed(e: Expr) {
    match e
    case Lit(_) => true
    case Binary(l, o, r) => o.kind.Arithmetic? && 0 <= o.priority < ParenStep && WellFormed(l) && WellFormed(r)
    case Prefix(o, a) => !o.kind.Arithmetic? && 0 <= o.priority < ParenStep && WellFormed(a)
  }

  /** The value of a tree, computed directly on it. */
  function Value(e: Expr): real
    requires WellFormed(e)
  {
    match e
    case Lit(v) => v
    case Binary(l, o, r) => o.kind.binary(Value(l), Value(r))
    case Prefix(o, a) => ApplyOne(o.kind, Value(a))
  }

  /** The tokens of a tree: `(l o r)` for a binary node and `(f a)` for a prefix node. */
  function Spelled(e: Expr): seq<Token>
  {
    match e
    case Lit(v) => [Number(v)]
    case Binary(l, o, r) => [Punct('(')] + (Spelled(l) + ([Op(o)] + (Spelled(r) + [Punct(')')])))
    case Prefix(o, a) => [Punct('(')] + ([Op(o)] + (Spelled(a) + [Punct(')')]))
  }

  /** Every stacked final priority is below `bound`. */
  ghost predicate Below(ops: seq<Pending>, bound: int) {
    forall i :: 0 <= i < |ops| ==> ops[i].finalPriority < bound
  }

  /** Every stacked final priority is at least `bound`. */
  ghost predicate AtLeast(ops: seq<Pending>, bound: int) {
    forall i :: 0 <= i < |ops| ==> ops[i].finalPriority >= bound
  }

  /** What running the tokens of a tree with value `v` from `m` leaves: the same parenthesis
      offset, `m`'s operators with only operators of final priority at least one step above
      the offset on top of them, and stacks that reduce, at that step, to `m`'s stacks with
      `v` pushed. */
  ghost predicate Leaves(m: Machine, r: Result<Machine>, v: real) {
    && r.Ok? && r.value.basePriority == m.basePriority
    && |m.stacks.operators| <= |r.value.stacks.operators|
    && r.value.stacks.operators[..|m.stacks.operators|] == m.stacks.operators
    && AtLeast(r.value.stacks.operators[|m.stacks.operators|..], m.basePriority + ParenStep)
    && Reduce(r.value.stacks, m.basePriority + ParenStep) == Ok(Stacks(m.stacks.operands + [v], m.stacks.operators))
  }

  lemma {:induction false} ReduceStops(s: Stacks, t: int)
    requires Below(s.operators, t)
    ensures Reduce(s, t) == Ok(s)
  {
    if |s.operators| > 0 {
      assert Top(s.operators) == s.operators[|s.operators| - 1];
    }
  }

  lemma {:induction false} ReduceOne(s: Stacks, t: int, s': Stacks)
    requires |s.operators| > 0 && Top(s.operators).finalPriority >= t && ApplyTop(s) == Ok(s')
    ensures Reduce(s, t) == Reduce(s', t)
  {
  }

  /** The stacks `operands + [x]` and `ops + [p]` reduce, at a threshold `p` reaches and no
      operator of `ops` does, to `p` applied to the top operand or two. */
  lemma {:induction false} ReduceLast(operands: seq<real>, x: real, ops: seq<Pending>, p: Pending, t: int)
    requires !p.op.kind.Arithmetic? && p.finalPriority >= t && Below(ops, t)
    ensures Reduce(Stacks(operands + [x], ops + [p]), t) == Ok(Stacks(operands + [ApplyOne(p.op.kind, x)], ops))
  {
    ApplyUnary(operands, x, ops, p);
    ReduceOne(Stacks(operands + [x], ops + [p]), t, Stacks(operands + [ApplyOne(p.op.kind, x)], ops));
    ReduceStops(Stacks(operands + [ApplyOne(p.op.kind, x)], ops), t);
  }

  lemma {:induction false} ReduceLastBinary(operands: seq<real>, x: real, y: real, ops: seq<Pending>, p: Pending, t: int)
    requires p.op.kind.Arithmetic? && p.finalPriority >= t && Below(ops, t)
    ensures Reduce(Stacks(operands + [x, y], ops + [p]), t) == Ok(Stacks(operands + [p.op.kind.binary(x, y)], ops))
  {
    ApplyBinary(operands, x, y, ops, p);
    ReduceOne(Stacks(operands + [x, y], ops + [p]), t, Stacks(operands + [p.op.kind.binary(x, y)], ops));
    ReduceStops(Stacks(operands + [p.op.kind.binary(x, y)], ops), t);
  }

  /** Running the tokens of a well-formed tree, from any state whose stacked priorities are
      below the next parenthesis level, leaves what `Leaves` describes. */
  lemma {:induction false} RunExpr(e: Expr, m: Machine)
    requires WellFormed(e) && Below(m.stacks.operators, m.basePriority + ParenStep)
    ensures Leaves(m, Run(m, Spelled(e)), Value(e))
    decreases e, 1
  {
    match e
    case Lit(v) =>
      var m' := Machine(Stacks(m.stacks.operands + [v], m.stacks.operators), m.basePriority);
      assert Run(m, Spelled(e)) == Ok(m') by {
        assert Spelled(e) == [Number(v)] + [];
        RunCons(m, Number(v), [], m');
      }
      ReduceStops(m'.stacks, m.basePriority + ParenStep);
    case Binary(l, o, r) =>
      RunBinary(l, o, r, m);
    case Prefix(o, a) =>
      RunPrefix(o, a, m);
  }

  /** The closing parenthesis after an operand run at one level above `ops + [p]`: the
      offset comes back down, and reducing at that level first finishes the operand and then
      reaches `p`. */
  lemma {:induction false} CloseRun(mk: Machine, ts: seq<Token>)
    requires Run(mk, ts).Ok? && Run(mk, ts).value.basePriority == mk.basePriority
    ensures Run(mk, ts + [Punct(')')]) == Ok(Machine(Run(mk, ts).value.stacks, mk.basePriority - ParenStep))
  {
    var m3 := Run(mk, ts).value;
    RunAppend(mk, ts, [Punct(')')]);
    assert [Punct(')')] == [Punct(')')] + [];
    RunCons(m3, Punct(')'), [], Machine(m3.stacks, mk.basePriority - ParenStep));
  }

  /** The closing parenthesis after an operand run at one level above `ops + [p]`: the
      offset comes back down, and reducing at that level first finishes the operand and then
      reaches `p`. */
  lemma {:induction false} Close(mk: Machine, ts: seq<Token>, v: real, ops: seq<Pending>, p: Pending)
    requires mk.stacks.operators == ops + [p] && Leaves(mk, Run(mk, ts), v)
    requires p.finalPriority >= mk.basePriority
    ensures var B := mk.basePriority - ParenStep;
            var r := Run(mk, ts + [Punct(')')]);
            && r.Ok? && r.value.basePriority == B
            && |ops| <= |r.value.stacks.operators| && r.value.stacks.operators[..|ops|] == ops
            && AtLeast(r.value.stacks.operators[|ops|..], B + ParenStep)
            && Reduce(r.value.stacks, B + ParenStep) == Reduce(Stacks(mk.stacks.operands + [v], ops + [p]), B + ParenStep)
  {
    CloseRun(mk, ts);
    var s3 := Run(mk, ts).value.stacks;
    SplitAbove(s3.operators, ops, p, mk.basePriority, mk.basePriority + ParenStep);
    ReduceInStages(s3, mk.basePriority, mk.basePriority + ParenStep);
  }

  lemma {:induction false} SplitAbove(all: seq<Pending>, ops: seq<Pending>, p: Pending, bound: int, higher: int)
    requires |ops| + 1 <= |all| && all[..|ops| + 1] == ops + [p]
    requires p.finalPriority >= bound && bound <= higher && AtLeast(all[|ops| + 1..], higher)
    ensures |ops| <= |all| && all[..|ops|] == ops && AtLeast(all[|ops|..], bound)
  {
    assert all[..|ops|] == all[..|ops| + 1][..|ops|];
    forall i | |ops| <= i < |all| ensures all[i].finalPriority >= bound {
      if i == |ops| {
        assert all[i] == all[..|ops| + 1][i];
      } else {
        assert all[i] == all[|ops| + 1..][i - |ops| - 1];
      }
    }
  }

  /** An operator pushed one level above `ops`, after a left operand whose operators all lie
      two levels above: those are applied first and the operator then goes on top of `ops`. */
  lemma {:induction false} PushOver(m1: Machine, ops: seq<Pending>, rest: seq<Pending>, xs: seq<real>, p: Pending, base: int)
    requires m1.stacks.operators == ops + rest && Below(ops, base) && AtLeast(rest, base + ParenStep)
    requires Reduce(m1.stacks, base + ParenStep) == Ok(Stacks(xs, ops))
    requires base <= p.finalPriority < base + ParenStep && !p.op.kind.Unary?
    ensures PushOperator(m1.stacks, p) == Ok(Stacks(xs, ops + [p]))
  {
    assert GapIn(m1.stacks.operators, p.finalPriority, base + ParenStep) by {
      forall i | 0 <= i < |m1.stacks.operators|
        ensures !(p.finalPriority <= m1.stacks.operators[i].finalPriority < base + ParenStep)
      {
        if i < |ops| {
          assert m1.stacks.operators[i] == ops[i];
        } else {
          assert m1.stacks.operators[i] == rest[i - |ops|];
        }
      }
    }
    ReduceAcrossGap(m1.stacks, p.finalPriority, base + ParenStep);
    PushReduces(m1.stacks, p);
  }

  /** An operator at or above every stacked priority is pushed without applying anything. */
  lemma {:induction false} PushAbove(s: Stacks, p: Pending, bound: int)
    requires Below(s.operators, bound) && bound <= p.finalPriority
    ensures PushOperator(s, p) == Ok(Stacks(s.operands, s.operators + [p]))
  {
    if |s.operators| > 0 {
      assert Top(s.operators) == s.operators[|s.operators| - 1];
    }
    PushOnto(s, p);
  }

  lemma {:induction false} BelowPush(ops: seq<Pending>, p: Pending, bound: int, higher: int)
    requires Below(ops, bound) && bound <= higher && p.finalPriority < higher
    ensures Below(ops + [p], higher)
  {
    assert forall i :: 0 <= i < |ops| ==> (ops + [p])[i] == ops[i];
  }

  /** `(` and a left operand. */
  lemma {:induction false} OpenLeft(m: Machine, left: seq<Token>, m1: Machine, rest: seq<Token>)
    requires Run(Machine(m.stacks, m.basePriority + ParenStep), left) == Ok(m1)
    ensures Run(m, [Punct('(')] + (left + rest)) == Run(m1, rest)
  {
    RunParen(m, left + rest);
    RunAppend(Machine(m.stacks, m.basePriority + ParenStep), left, rest);
  }

  /** The operator of a binary node pushed after its left operand: what the left operand
      left above the stacked operators is applied first. */
  lemma {:induction false} PushAboveLeft(m0: Machine, r: Result<Machine>, v: real, p: Pending)
    requires Below(m0.stacks.operators, m0.basePriority) && Leaves(m0, r, v)
    requires m0.basePriority <= p.finalPriority < m0.basePriority + ParenStep && !p.op.kind.Unary?
    ensures PushOperator(r.value.stacks, p) == Ok(Stacks(m0.stacks.operands + [v], m0.stacks.operators + [p]))
  {
    var all, ops := r.value.stacks.operators, m0.stacks.operators;
    assert all == ops + all[|ops|..];
    PushOver(r.value, ops, all[|ops|..], m0.stacks.operands + [v], p, m0.basePriority);
  }

  /** The operator of a binary node, after its left operand: what the left operand left
      above `ops` is applied and the operator is pushed. */
  lemma {:induction false} PushAfterLeft(m: Machine, r: Result<Machine>, o: Operator, v: real, right: seq<Token>)
    requires Below(m.stacks.operators, m.basePriority + ParenStep)
    requires 0 <= o.priority < ParenStep && o.kind.Arithmetic?
    requires Leaves(Machine(m.stacks, m.basePriority + ParenStep), r, v)
    ensures Run(r.value, [Op(o)] + right) ==
            Run(Machine(Stacks(m.stacks.operands + [v], m.stacks.operators + [Pending(o, m.basePriority + ParenStep + o.priority)]),
                        m.basePriority + ParenStep),
                right)
  {
    var m0 := Machine(m.stacks, m.basePriority + ParenStep);
    var p := Pending(o, m.basePriority + ParenStep + o.priority);
    PushAboveLeft(m0, r, v, p);
    RunOperator(r.value, o, Stacks(m.stacks.operands + [v], m.stacks.operators + [p]), right);
  }

  /** `(`, a left operand and a binary operator. */
  lemma {:induction false} OpenBinary(m: Machine, left: seq<Token>, vl: real, o: Operator, rest: seq<Token>)
    requires Below(m.stacks.operators, m.basePriority + ParenStep)
    requires 0 <= o.priority < ParenStep && o.kind.Arithmetic?
    requires Leaves(Machine(m.stacks, m.basePriority + ParenStep), Run(Machine(m.stacks, m.basePriority + ParenStep), left), vl)
    ensures Run(m, [Punct('(')] + (left + ([Op(o)] + rest))) ==
            Run(Machine(Stacks(m.stacks.operands + [vl], m.stacks.operators + [Pending(o, m.basePriority + ParenStep + o.priority)]),
                        m.basePriority + ParenStep),
                rest)
  {
    var m0 := Machine(m.stacks, m.basePriority + ParenStep);
    var r := Run(m0, left);
    OpenLeft(m, left, r.value, [Op(o)] + rest);
    PushAfterLeft(m, r, o, vl, rest);
  }

  /** The right operand of a binary node and the closing parenthesis: the node's operator is
      applied to the two operand values when reducing one level above the offset. */
  lemma {:induction false} CloseBinary(xs: seq<real>, vl: real, ops: seq<Pending>, p: Pending, base: int, right: seq<Token>, vr: real)
    requires p.op.kind.Arithmetic? && Below(ops, base) && base <= p.finalPriority
    requires var m2 := Machine(Stacks(xs + [vl], ops + [p]), base); Leaves(m2, Run(m2, right), vr)
    ensures var r := Run(Machine(Stacks(xs + [vl], ops + [p]), base), right + [Punct(')')]);
            && r.Ok? && r.value.basePriority == base - ParenStep
            && |ops| <= |r.value.stacks.operators| && r.value.stacks.operators[..|ops|] == ops
            && AtLeast(r.value.stacks.operators[|ops|..], base)
            && Reduce(r.value.stacks, base) == Ok(Stacks(xs + [p.op.kind.binary(vl, vr)], ops))
  {
    var m2 := Machine(Stacks(xs + [vl], ops + [p]), base);
    Close(m2, right, vr, ops, p);
    assert (xs + [vl]) + [vr] == xs + [vl, vr];
    ReduceLastBinary(xs, vl, vr, ops, p, base);
  }

  /** A binary node's tokens, given what its two operands' tokens leave. */
  lemma {:induction false} BinaryFrame(m: Machine, left: seq<Token>, vl: real, o: Operator, right: seq<Token>, vr: real)
    requires Below(m.stacks.operators, m.basePriority + ParenStep)
    requires 0 <= o.priority < ParenStep && o.kind.Arithmetic?
    requires Leaves(Machine(m.stacks, m.basePriority + ParenStep), Run(Machine(m.stacks, m.basePriority + ParenStep), left), vl)
    requires var m2 := Machine(Stacks(m.stacks.operands + [vl], m.stacks.operators + [Pending(o, m.basePriority + ParenStep + o.priority)]),
                               m.basePriority + ParenStep);
             Leaves(m2, Run(m2, right), vr)
    ensures Leaves(m, Run(m, [Punct('(')] + (left + ([Op(o)] + (right + [Punct(')')])))), o.kind.binary(vl, vr))
  {
    OpenBinary(m, left, vl, o, right + [Punct(')')]);
    CloseBinary(m.stacks.operands, vl, m.stacks.operators, Pending(o, m.basePriority + ParenStep + o.priority),
                m.basePriority + ParenStep, right, vr);
  }

  lemma {:induction false} RunBinary(l: Expr, o: Operator, r: Expr, m: Machine)
    requires WellFormed(Binary(l, o, r)) && Below(m.stacks.operators, m.basePriority + ParenStep)
    ensures Leaves(m, Run(m, Spelled(Binary(l, o, r))), Value(Binary(l, o, r)))
    decreases Binary(l, o, r), 0
  {
    var p := Pending(o, m.basePriority + ParenStep + o.priority);
    var m0 := Machine(m.stacks, m.basePriority + ParenStep);
    var m2 := Machine(Stacks(m.stacks.operands + [Value(l)], m.stacks.operators + [p]), m.basePriority + ParenStep);
    RunExpr(l, m0);
    BelowPush(m.stacks.operators, p, m.basePriority + ParenStep, m.basePriority + 2 * ParenStep);
    RunExpr(r, m2);
    BinaryFrame(m, Spelled(l), Value(l), o, Spelled(r), Value(r));
  }

  /** `(` and the operator of a prefix node, which is pushed at once: everything below it has a lower final
      priority. */
  lemma {:induction false} OpenPrefix(m: Machine, o: Operator, arg: seq<Token>)
    requires Below(m.stacks.operators, m.basePriority + ParenStep) && 0 <= o.priority
    ensures Run(m, [Punct('(')] + ([Op(o)] + arg)) ==
            Run(Machine(Stacks(m.stacks.operands, m.stacks.operators + [Pending(o, m.basePriority + ParenStep + o.priority)]),
                        m.basePriority + ParenStep),
                arg)
  {
    var m0 := Machine(m.stacks, m.basePriority + ParenStep);
    var p := Pending(o, m.basePriority + ParenStep + o.priority);
    var s1 := Stacks(m.stacks.operands, m.stacks.operators + [p]);
    assert Run(m, [Punct('(')] + ([Op(o)] + arg)) == Run(m0, [Op(o)] + arg) by {
      RunParen(m, [Op(o)] + arg);
    }
    assert PushOperator(m0.stacks, p) == Ok(s1) by {
      PushAbove(m.stacks, p, m.basePriority + ParenStep);
    }
    RunOperator(m0, o, s1, arg);
  }

  /** The operand of a prefix node and the closing parenthesis: the node's operator is
      applied to the operand value when reducing one level above the offset. */
  lemma {:induction false} ClosePrefix(xs: seq<real>, ops: seq<Pending>, p: Pending, base: int, arg: seq<Token>, v: real)
    requires !p.op.kind.Arithmetic? && Below(ops, base) && base <= p.finalPriority
    requires var m1 := Machine(Stacks(xs, ops + [p]), base); Leaves(m1, Run(m1, arg), v)
    ensures var r := Run(Machine(Stacks(xs, ops + [p]), base), arg + [Punct(')')]);
            && r.Ok? && r.value.basePriority == base - ParenStep
            && |ops| <= |r.value.stacks.operators| && r.value.stacks.operators[..|ops|] == ops
            && AtLeast(r.value.stacks.operators[|ops|..], base)
            && Reduce(r.value.stacks, base) == Ok(Stacks(xs + [ApplyOne(p.op.kind, v)], ops))
  {
    Close(Machine(Stacks(xs, ops + [p]), base), arg, v, ops, p);
    ReduceLast(xs, v, ops, p, base);
  }

  /** A prefix node's tokens, given what its operand's tokens leave. */
  lemma {:induction false} PrefixFrame(m: Machine, o: Operator, arg: seq<Token>, v: real)
    requires Below(m.stacks.operators, m.basePriority + ParenStep)
    requires 0 <= o.priority < ParenStep && !o.kind.Arithmetic?
    requires var m1 := Machine(Stacks(m.stacks.operands, m.stacks.operators + [Pending(o, m.basePriority + ParenStep + o.priority)]),
                               m.basePriority + ParenStep);
             Leaves(m1, Run(m1, arg), v)
    ensures Leaves(m, Run(m, [Punct('(')] + ([Op(o)] + (arg + [Punct(')')]))), ApplyOne(o.kind, v))
  {
    OpenPrefix(m, o, arg + [Punct(')')]);
    ClosePrefix(m.stacks.operands, m.stacks.operators, Pending(o, m.basePriority + ParenStep + o.priority),
                m.basePriority + ParenStep, arg, v);
  }

  lemma {:induction false} RunPrefix(o: Operator, a: Expr, m: Machine)
    requires WellFormed(Prefix(o, a)) && Below(m.stacks.operators, m.basePriority + ParenStep)
    ensures Leaves(m, Run(m, Spelled(Prefix(o, a))), Value(Prefix(o, a)))
    decreases Prefix(o, a), 0
  {
    var p := Pending(o, m.basePriority + ParenStep + o.priority);
    var m1 := Machine(Stacks(m.stacks.operands, m.stacks.operators + [p]), m.basePriority + ParenStep);
    BelowPush(m.stacks.operators, p, m.basePriority + ParenStep, m.basePriority + 2 * ParenStep);
    RunExpr(a, m1);
    PrefixFrame(m, o, Spelled(a), Value(a));
  }

  /** The tokens of a tree are numbers, operators and parentheses, and start with a number or
      an opening parenthesis. */
  lemma {:induction false} SpelledTokens(e: Expr)
    ensures |Spelled(e)| > 0 && (Spelled(e)[0].Number? || Spelled(e)[0] == Punct('('))
    ensures forall i :: 0 <= i < |Spelled(e)| ==> Spelled(e)[i].Number? || Spelled(e)[i].Op? || Spelled(e)[i].Punct?
  {
    match e
    case Lit(_) =>
    case Binary(l, o, r) =>
      SpelledTokens(l);
      SpelledTokens(r);
      var tail := [Op(o)] + (Spelled(r) + [Punct(')')]);
      assert forall i :: 0 <= i < |tail| ==> tail[i].Number? || tail[i].Op? || tail[i].Punct? by {
        forall i | 0 <= i < |tail| ensures tail[i].Number? || tail[i].Op? || tail[i].Punct? {
          if 1 <= i < 1 + |Spelled(r)| {
            assert tail[i] == Spelled(r)[i - 1];
          }
        }
      }
      var body := Spelled(l) + tail;
      assert forall i :: 0 <= i < |body| ==> body[i].Number? || body[i].Op? || body[i].Punct? by {
        forall i | 0 <= i < |body| ensures body[i].Number? || body[i].Op? || body[i].Punct? {
          if i < |Spelled(l)| {
            assert body[i] == Spelled(l)[i];
          } else {
            assert body[i] == tail[i - |Spelled(l)|];
          }
        }
      }
      assert forall i :: 1 <= i < |Spelled(e)| ==> Spelled(e)[i] == body[i - 1];
    case Prefix(o, a) =>
      SpelledTokens(a);
      var body := [Op(o)] + (Spelled(a) + [Punct(')')]);
      assert forall i :: 0 <= i < |body| ==> body[i].Number? || body[i].Op? || body[i].Punct? by {
        forall i | 0 <= i < |body| ensures body[i].Number? || body[i].Op? || body[i].Punct? {
          if 1 <= i < 1 + |Spelled(a)| {
            assert body[i] == Spelled(a)[i - 1];
          }
        }
      }
      assert forall i :: 1 <= i < |Spelled(e)| ==> Spelled(e)[i] == body[i - 1];
  }

  /** A well-formed tree, written out fully parenthesised, resolves to its value. */
  lemma {:induction false} ResolvesToValue(e: Expr)
    requires WellFormed(e)
    ensures Resolve(Spelled(e)) == Ok(Value(e))
  {
    var ts := Spelled(e);
    RunExpr(e, Start);
    var m := Run(Start, ts).value;
    assert Reduce(m.stacks, ParenStep) == Ok(Stacks([Value(e)], [])) by {
      assert [] + [Value(e)] == [Value(e)];
    }
    assert Drain(m.stacks) == Ok(Stacks([Value(e)], [])) by {
      DrainAfterReduce(m.stacks, ParenStep);
    }
  }

  /** A well-formed tree, written out fully parenthesised, evaluates to its value and leaves
      the variable table alone. */
  lemma {:induction false} EvaluatesToValue(e: Expr, vars: map<string, real>)
    requires WellFormed(e)
    ensures EvaluateSpec(Spelled(e), vars) == Ok(Outcome(Value(e), vars))
  {
    SpelledTokens(e);
    ResolvesToValue(e);
    EvaluatePlain(Spelled(e), vars);
  }

  /** `x = e` stores the value of `e` under `x` and returns it. */
  lemma {:induction false} AssignmentStoresValue(x: string, eq: Operator, e: Expr, vars: map<string, real>)
    requires eq.kind.Arithmetic? && eq.kind.symbol == '=' && WellFormed(e)
    ensures EvaluateSpec([Variable(x), Op(eq)] + Spelled(e), vars) == Ok(Outcome(Value(e), vars[x := Value(e)]))
  {
    var ts := [Variable(x), Op(eq)] + Spelled(e);
    SpelledTokens(e);
    assert forall i :: 0 <= i < |ts| ==> Ordinary(ts[i]) by {
      forall i | 0 <= i < |ts| ensures Ordinary(ts[i]) {
        if i >= 2 {
          assert ts[i] == Spelled(e)[i - 2];
        }
      }
    }
    IngestOrdinary(ts);
    assert ts[2..] == Spelled(e);
    ResolvesToValue(e);
  }
}
