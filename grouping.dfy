/** How the evaluator groups operands, compared with the grouping the priorities call for:
    two binary operators around three operands, a unary operator after a binary one, and a
    chain of binary operators whose priorities never rise. */
module Grouping {
  import opened Tokens
  import opened Engine
  import opened Properties
  import opened Steps

  /** The state with the given stacks at parenthesis offset 0. */
  function At(operands: seq<real>, operators: seq<Pending>): Machine {
    Machine(Stacks(operands, operators), 0)
  }

  /** An operator as it is stacked at parenthesis offset 0. */
  function AtZero(o: Operator): Pending {
    Pending(o, o.priority)
  }

  /** `a o1` at the start of the input leaves `a` and `o1` stacked. */
  lemma {:induction false} RunOpening(a: real, o1: Operator, rest: seq<Token>)
    ensures Run(Start, [Number(a), Op(o1)] + rest) == Run(At([a], [AtZero(o1)]), rest)
  {
    assert [Number(a), Op(o1)] + rest == [Number(a)] + ([Op(o1)] + rest);
    assert [] + [a] == [a] && [] + [AtZero(o1)] == [AtZero(o1)];
    RunNumber(Start, a, [Op(o1)] + rest);
    PushOnto(Stacks([a], []), AtZero(o1));
    RunOperator(At([a], []), o1, Stacks([a], [AtZero(o1)]), rest);
  }

  /** `a o1 b` leaves both operands and the operator stacked. */
  lemma {:induction false} RunPrefix(a: real, o1: Operator, b: real)
    ensures Run(Start, [Number(a), Op(o1), Number(b)]) == Ok(At([a, b], [AtZero(o1)]))
  {
    assert [Number(a), Op(o1), Number(b)] == [Number(a), Op(o1)] + ([Number(b)] + []);
    RunOpening(a, o1, [Number(b)] + []);
    assert [a] + [b] == [a, b];
    RunNumber(At([a], [AtZero(o1)]), b, []);
  }

  /** Pushing an operator of equal or lower priority over `a o1 b` first applies `o1`. */
  lemma {:induction false} PushAppliesFirst(a: real, b: real, o1: Operator, o2: Operator)
    requires o1.kind.Arithmetic? && !o2.kind.Unary? && o1.priority >= o2.priority
    ensures PushOperator(Stacks([a, b], [AtZero(o1)]), AtZero(o2)) == Ok(Stacks([o1.kind.binary(a, b)], [AtZero(o2)]))
  {
    var p1, p2 := AtZero(o1), AtZero(o2);
    var x := o1.kind.binary(a, b);
    ApplyBinary([], a, b, [], p1);
    assert [] + [a, b] == [a, b] && [] + [p1] == [p1] && [] + [x] == [x] && [] + [p2] == [p2];
    assert Top([p1]) == p1;
    PushAfterApply(Stacks([a, b], [p1]), p2, Stacks([x], []));
    PushOnto(Stacks([x], []), p2);
  }

  /** A second operator of equal or lower priority applies the first one before it is pushed. */
  lemma {:induction false} GroupLeft(a: real, b: real, c: real, o1: Operator, o2: Operator)
    requires o1.kind.Arithmetic? && !o2.kind.Unary? && o1.priority >= o2.priority
    ensures Run(At([a, b], [AtZero(o1)]), [Op(o2), Number(c)]) == Ok(At([o1.kind.binary(a, b), c], [AtZero(o2)]))
  {
    var x := o1.kind.binary(a, b);
    PushAppliesFirst(a, b, o1, o2);
    assert [Op(o2), Number(c)] == [Op(o2)] + ([Number(c)] + []);
    RunOperator(At([a, b], [AtZero(o1)]), o2, Stacks([x], [AtZero(o2)]), [Number(c)] + []);
    assert [x] + [c] == [x, c];
    RunNumber(At([x], [AtZero(o2)]), c, []);
  }

  /** A second operator of strictly higher priority is pushed over the first. */
  lemma {:induction false} GroupRight(a: real, b: real, c: real, o1: Operator, o2: Operator)
    requires o1.priority < o2.priority
    ensures Run(At([a, b], [AtZero(o1)]), [Op(o2), Number(c)]) == Ok(At([a, b, c], [AtZero(o1), AtZero(o2)]))
  {
    var p1, p2 := AtZero(o1), AtZero(o2);
    assert [p1] + [p2] == [p1, p2] && [a, b] + [c] == [a, b, c];
    PushOnto(Stacks([a, b], [p1]), p2);
    assert [Op(o2), Number(c)] == [Op(o2)] + ([Number(c)] + []);
    RunOperator(At([a, b], [p1]), o2, Stacks([a, b], [p1, p2]), [Number(c)] + []);
    RunNumber(At([a, b], [p1, p2]), c, []);
  }

  /** The last stacked operator of `(a o1 b) o2 c` is applied by the drain. */
  lemma {:induction false} DrainLeft(x: real, c: real, o2: Operator)
    requires o2.kind.Arithmetic?
    ensures Drain(Stacks([x, c], [AtZero(o2)])) == Ok(Stacks([o2.kind.binary(x, c)], []))
  {
    var v := o2.kind.binary(x, c);
    ApplyBinary([], x, c, [], AtZero(o2));
    assert [] + [x, c] == [x, c] && [] + [AtZero(o2)] == [AtZero(o2)] && [] + [v] == [v];
    DrainOne(Stacks([x, c], [AtZero(o2)]), Stacks([v], []));
  }

  /** The drain applies `o2` and then `o1` to `a b c`. */
  lemma {:induction false} DrainRight(a: real, b: real, c: real, o1: Operator, o2: Operator)
    requires o1.kind.Arithmetic? && o2.kind.Arithmetic?
    ensures Drain(Stacks([a, b, c], [AtZero(o1), AtZero(o2)])) == Ok(Stacks([o1.kind.binary(a, o2.kind.binary(b, c))], []))
  {
    var p1, p2 := AtZero(o1), AtZero(o2);
    var y := o2.kind.binary(b, c);
    assert Drain(Stacks([a, b, c], [p1, p2])) == Drain(Stacks([a, y], [p1])) by {
      ApplyBinary([a], b, c, [p1], p2);
      assert [a] + [b, c] == [a, b, c] && [p1] + [p2] == [p1, p2] && [a] + [y] == [a, y];
      DrainOne(Stacks([a, b, c], [p1, p2]), Stacks([a, y], [p1]));
    }
    DrainLeft(a, y, o1);
  }

  /** `a o1 b o2 c` with o1's priority at least o2's leaves `a o1 b` applied. */
  lemma {:induction false} RunThreeLeft(a: real, b: real, c: real, o1: Operator, o2: Operator)
    requires o1.kind.Arithmetic? && !o2.kind.Unary? && o1.priority >= o2.priority
    ensures Run(Start, [Number(a), Op(o1), Number(b), Op(o2), Number(c)]) == Ok(At([o1.kind.binary(a, b), c], [AtZero(o2)]))
  {
    assert [Number(a), Op(o1), Number(b), Op(o2), Number(c)] == [Number(a), Op(o1), Number(b)] + [Op(o2), Number(c)];
    RunPrefix(a, o1, b);
    RunAppend(Start, [Number(a), Op(o1), Number(b)], [Op(o2), Number(c)]);
    GroupLeft(a, b, c, o1, o2);
  }

  /** `a o1 b o2 c` with o1's priority below o2's leaves everything stacked. */
  lemma {:induction false} RunThreeRight(a: real, b: real, c: real, o1: Operator, o2: Operator)
    requires o1.priority < o2.priority
    ensures Run(Start, [Number(a), Op(o1), Number(b), Op(o2), Number(c)]) == Ok(At([a, b, c], [AtZero(o1), AtZero(o2)]))
  {
    assert [Number(a), Op(o1), Number(b), Op(o2), Number(c)] == [Number(a), Op(o1), Number(b)] + [Op(o2), Number(c)];
    RunPrefix(a, o1, b);
    RunAppend(Start, [Number(a), Op(o1), Number(b)], [Op(o2), Number(c)]);
    GroupRight(a, b, c, o1, o2);
  }

  /** `a o1 b o2 c` is `(a o1 b) o2 c` when o1's priority is at least o2's (equal priorities
      group to the left) and `a o1 (b o2 c)` when it is strictly lower. */
  lemma {:induction false} ThreeOperands(a: real, b: real, c: real, o1: Operator, o2: Operator, vars: map<string, real>)
    requires o1.kind.Arithmetic? && o2.kind.Arithmetic?
    ensures EvaluateSpec([Number(a), Op(o1), Number(b), Op(o2), Number(c)], vars) ==
            Ok(Outcome(if o1.priority >= o2.priority
                       then o2.kind.binary(o1.kind.binary(a, b), c)
                       else o1.kind.binary(a, o2.kind.binary(b, c)), vars))
  {
    var ts := [Number(a), Op(o1), Number(b), Op(o2), Number(c)];
    assert forall i :: 0 <= i < |ts| ==> Ordinary(ts[i]);
    if o1.priority >= o2.priority {
      RunThreeLeft(a, b, c, o1, o2);
      DrainLeft(o1.kind.binary(a, b), c, o2);
      EvaluateByRun(ts, vars, At([o1.kind.binary(a, b), c], [AtZero(o2)]), o2.kind.binary(o1.kind.binary(a, b), c));
    } else {
      RunThreeRight(a, b, c, o1, o2);
      DrainRight(a, b, c, o1, o2);
      EvaluateByRun(ts, vars, At([a, b, c], [AtZero(o1), AtZero(o2)]), o1.kind.binary(a, o2.kind.binary(b, c)));
    }
  }

  /** After `a o`, a unary operator and a number are both stacked: the unary operator is
      pushed without applying the binary one below it. */
  lemma {:induction false} UnaryThenNumber(a: real, b: real, o: Operator, u: Operator)
    requires u.kind.Unary?
    ensures Run(At([a], [AtZero(o)]), [Op(u), Number(b)]) == Ok(At([a, b], [AtZero(o), AtZero(u)]))
  {
    assert [Op(u), Number(b)] == [Op(u)] + ([Number(b)] + []);
    assert [AtZero(o)] + [AtZero(u)] == [AtZero(o), AtZero(u)] && [a] + [b] == [a, b];
    PushOnto(Stacks([a], [AtZero(o)]), AtZero(u));
    RunOperator(At([a], [AtZero(o)]), u, Stacks([a], [AtZero(o), AtZero(u)]), [Number(b)] + []);
    RunNumber(At([a], [AtZero(o), AtZero(u)]), b, []);
  }

  /** `a o u b` with `u` unary leaves both operands and both operators stacked. */
  lemma {:induction false} RunUnaryAfterBinary(a: real, b: real, o: Operator, u: Operator)
    requires u.kind.Unary?
    ensures Run(Start, [Number(a), Op(o), Op(u), Number(b)]) == Ok(At([a, b], [AtZero(o), AtZero(u)]))
  {
    assert [Number(a), Op(o), Op(u), Number(b)] == [Number(a), Op(o)] + [Op(u), Number(b)];
    RunOpening(a, o, [Op(u), Number(b)]);
    UnaryThenNumber(a, b, o, u);
  }

  /** The drain applies the unary operator and then the binary one. */
  lemma {:induction false} DrainUnaryAfterBinary(a: real, b: real, o: Operator, u: Operator)
    requires o.kind.Arithmetic? && u.kind.Unary?
    ensures Drain(Stacks([a, b], [AtZero(o), AtZero(u)])) == Ok(Stacks([o.kind.binary(a, u.kind.unary(b))], []))
  {
    var y := u.kind.unary(b);
    assert Drain(Stacks([a, b], [AtZero(o), AtZero(u)])) == Drain(Stacks([a, y], [AtZero(o)])) by {
      ApplyUnary([a], b, [AtZero(o)], AtZero(u));
      assert [a] + [b] == [a, b] && [AtZero(o)] + [AtZero(u)] == [AtZero(o), AtZero(u)] && [a] + [y] == [a, y];
      DrainOne(Stacks([a, b], [AtZero(o), AtZero(u)]), Stacks([a, y], [AtZero(o)]));
    }
    DrainLeft(a, y, o);
  }

  /** `a o u b` with `u` unary is `a o (u b)`, whatever the two priorities. */
  lemma {:induction false} UnaryBindsTighter(a: real, b: real, o: Operator, u: Operator, vars: map<string, real>)
    requires o.kind.Arithmetic? && u.kind.Unary?
    ensures EvaluateSpec([Number(a), Op(o), Op(u), Number(b)], vars) == Ok(Outcome(o.kind.binary(a, u.kind.unary(b)), vars))
  {
    var ts := [Number(a), Op(o), Op(u), Number(b)];
    assert forall i :: 0 <= i < |ts| ==> Ordinary(ts[i]);
    RunUnaryAfterBinary(a, b, o, u);
    DrainUnaryAfterBinary(a, b, o, u);
    EvaluateByRun(ts, vars, At([a, b], [AtZero(o), AtZero(u)]), o.kind.binary(a, u.kind.unary(b)));
  }

  /** One binary operator and the operand after it, in a chain `a0 o1 a1 o2 a2 ...`. */
  datatype Link = Link(op: Operator, operand: real)

  /** The tokens of the chain `first rest[0].op rest[0].operand ...`. */
  function ChainTokens(first: real, rest: seq<Link>): (ts: seq<Token>)
    ensures |ts| == 1 + 2 * |rest| && ts[0] == Number(first)
    ensures forall i :: 0 <= i < |ts| ==> ts[i].Number? || ts[i].Op?
  {
    if rest == [] then [Number(first)]
    else ChainTokens(first, Pop(rest)) + [Op(Top(rest).op), Number(Top(rest).operand)]
  }

  /** The chain evaluated strictly from left to right. */
  function FoldLeft(first: real, rest: seq<Link>): real
    requires forall i :: 0 <= i < |rest| ==> rest[i].op.kind.Arithmetic?
  {
    if rest == [] then first
    else Top(rest).op.kind.binary(FoldLeft(first, Pop(rest)), Top(rest).operand)
  }

  /** Binary operators whose priorities never rise along the chain. */
  ghost predicate Descending(rest: seq<Link>) {
    && (forall i :: 0 <= i < |rest| ==> rest[i].op.kind.Arithmetic?)
    && (forall i, j :: 0 <= i < j < |rest| ==> rest[i].op.priority >= rest[j].op.priority)
  }

  /** The stacks after a non-empty descending chain: the fold of all but the last link, the
      last operand, and the last operator. */
  function ChainState(first: real, rest: seq<Link>): Machine
    requires Descending(rest) && rest != []
  {
    At([FoldLeft(first, Pop(rest)), Top(rest).operand], [AtZero(Top(rest).op)])
  }

  /** One more link of a descending chain: the pending operator is applied before the new one
      is pushed. */
  lemma {:induction false} ChainLink(first: real, rest: seq<Link>)
    requires Descending(rest) && |rest| >= 2
    ensures Descending(Pop(rest))
    ensures Run(ChainState(first, Pop(rest)), [Op(Top(rest).op), Number(Top(rest).operand)]) == Ok(ChainState(first, rest))
  {
    var init, last := Pop(rest), Top(rest);
    assert Descending(init);
    var x, y, q := FoldLeft(first, Pop(init)), Top(init).operand, Top(init).op;
    assert Top(init) == rest[|rest| - 2] && last == rest[|rest| - 1];
    assert q.priority >= last.op.priority && q.kind.Arithmetic? && last.op.kind.Arithmetic?;
    assert FoldLeft(first, init) == q.kind.binary(x, y);
    GroupLeft(x, y, last.operand, q, last.op);
  }

  /** The first link of a chain: the operator is pushed on an empty stack. */
  lemma {:induction false} ChainFirst(first: real, link: Link)
    ensures Run(At([first], []), [Op(link.op), Number(link.operand)]) == Ok(At([first, link.operand], [AtZero(link.op)]))
  {
    assert [Op(link.op), Number(link.operand)] == [Op(link.op)] + ([Number(link.operand)] + []);
    assert [] + [AtZero(link.op)] == [AtZero(link.op)] && [first] + [link.operand] == [first, link.operand];
    PushOnto(Stacks([first], []), AtZero(link.op));
    RunOperator(At([first], []), link.op, Stacks([first], [AtZero(link.op)]), [Number(link.operand)] + []);
    RunNumber(At([first], [AtZero(link.op)]), link.operand, []);
  }

  /** After a non-empty descending chain the stacks are `ChainState`; after the lone first
      operand they hold just that operand. */
  lemma {:induction false} RunChain(first: real, rest: seq<Link>)
    requires Descending(rest)
    ensures rest == [] ==> Run(Start, ChainTokens(first, rest)) == Ok(At([first], []))
    ensures rest != [] ==> Run(Start, ChainTokens(first, rest)) == Ok(ChainState(first, rest))
    decreases |rest|
  {
    if rest == [] {
      assert [] + [first] == [first] && [Number(first)] == [Number(first)] + [];
      RunNumber(Start, first, []);
    } else {
      var init, last := Pop(rest), Top(rest);
      var tail := [Op(last.op), Number(last.operand)];
      assert Descending(init);
      RunChain(first, init);
      RunAppend(Start, ChainTokens(first, init), tail);
      if init == [] {
        ChainFirst(first, last);
      } else {
        ChainLink(first, rest);
      }
    }
  }

  /** A chain whose priorities never rise is evaluated from left to right; in particular
      operators of equal priority are left-associative (`8 - 3 - 2` is `(8 - 3) - 2`). */
  lemma {:induction false} LeftToRight(first: real, rest: seq<Link>, vars: map<string, real>)
    requires Descending(rest)
    ensures EvaluateSpec(ChainTokens(first, rest), vars) == Ok(Outcome(FoldLeft(first, rest), vars))
  {
    var ts := ChainTokens(first, rest);
    RunChain(first, rest);
    assert forall i :: 0 <= i < |ts| ==> Ordinary(ts[i]);
    if rest == [] {
      assert Drain(Stacks([first], [])) == Ok(Stacks([first], []));
      EvaluateByRun(ts, vars, At([first], []), first);
    } else {
      var x, y, o := FoldLeft(first, Pop(rest)), Top(rest).operand, Top(rest).op;
      assert Top(rest) == rest[|rest| - 1];
      DrainLeft(x, y, o);
      EvaluateByRun(ts, vars, ChainState(first, rest), FoldLeft(first, rest));
    }
  }

  /** Parentheses are only counted: the final check compares the offset with zero, so a `)`
      before its `(` is accepted, and `) a (` evaluates to `a`. */
  lemma {:induction false} ParenthesesOnlyCounted(a: real, vars: map<string, real>)
    ensures EvaluateSpec([Punct(')'), Number(a), Punct('(')], vars) == Ok(Outcome(a, vars))
  {
    var ts := [Punct(')'), Number(a), Punct('(')];
    var low := Machine(Stacks([], []), -ParenStep);
    assert ts == [Punct(')')] + ([Number(a)] + ([Punct('(')] + []));
    RunCons(Start, Punct(')'), [Number(a)] + ([Punct('(')] + []), low);
    assert [] + [a] == [a];
    RunNumber(low, a, [Punct('(')] + []);
    RunParen(Machine(Stacks([a], []), -ParenStep), []);
    assert Run(Start, ts) == Ok(At([a], []));
    assert Resolve(ts) == Ok(a);
    assert forall i :: 0 <= i < |ts| ==> Ordinary(ts[i]);
    EvaluatePlain(ts, vars);
  }
}
