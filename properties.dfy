/** Properties of the evaluation algorithm: how the push/pop rule groups operands, what the
    parenthesis offset guarantees, which tokens can be processed, and when the variable table
    changes. */
module Properties {
  import opened Tokens
  import opened Engine

  /** Applies stacked operators while the top one's final priority is at least `threshold`.
      Pushing a non-unary operator first does exactly this with its own final priority
      (see PushReduces). */
  function Reduce(s: Stacks, threshold: int): Result<Stacks>
    decreases |s.operators|
  {
    if |s.operators| == 0 || Top(s.operators).finalPriority < threshold then Ok(s)
    else
      var s' :- ApplyTop(s);
      Reduce(s', threshold)
  }

  /** No operator on the stack has a final priority in [lo, hi). */
  ghost predicate GapIn(operators: seq<Pending>, lo: int, hi: int) {
    forall i :: 0 <= i < |operators| ==> !(lo <= operators[i].finalPriority < hi)
  }

  lemma {:induction false} PushReduces(s: Stacks, p: Pending)
    requires !p.op.kind.Unary?
    ensures PushOperator(s, p) ==
            (var reduced := Reduce(s, p.finalPriority);
             if reduced.Ok? then Ok(Stacks(reduced.value.operands, reduced.value.operators + [p])) else reduced)
    decreases |s.operators|
  {
    if !OkToPush(s.operators, p) && ApplyTop(s).Ok? {
      PushReduces(ApplyTop(s).value, p);
    }
  }

  /** Reducing to a lower threshold is reducing to the higher one and then to the lower. */
  lemma {:induction false} ReduceInStages(s: Stacks, lo: int, hi: int)
    requires lo <= hi
    ensures Reduce(s, lo) ==
            (var first := Reduce(s, hi); if first.Ok? then Reduce(first.value, lo) else first)
    decreases |s.operators|
  {
    if |s.operators| > 0 && Top(s.operators).finalPriority >= hi && ApplyTop(s).Ok? {
      ReduceInStages(ApplyTop(s).value, lo, hi);
    }
  }

  /** Two thresholds that no stacked priority lies between reduce alike. */
  lemma {:induction false} ReduceAcrossGap(s: Stacks, lo: int, hi: int)
    requires lo <= hi && GapIn(s.operators, lo, hi)
    ensures Reduce(s, lo) == Reduce(s, hi)
    decreases |s.operators|
  {
    if |s.operators| > 0 {
      assert Top(s.operators) == s.operators[|s.operators| - 1];
      if Top(s.operators).finalPriority >= hi && ApplyTop(s).Ok? {
        var s' := ApplyTop(s).value;
        assert forall i :: 0 <= i < |s'.operators| ==> s'.operators[i] == s.operators[i];
        ReduceAcrossGap(s', lo, hi);
      }
    }
  }

  /** The final drain can be split at any threshold. */
  lemma {:induction false} DrainAfterReduce(s: Stacks, threshold: int)
    ensures Drain(s) == (var first := Reduce(s, threshold); if first.Ok? then Drain(first.value) else first)
    decreases |s.operators|
  {
    if |s.operators| > 0 && Top(s.operators).finalPriority >= threshold && ApplyTop(s).Ok? {
      DrainAfterReduce(ApplyTop(s).value, threshold);
    }
  }

  /** Processing a concatenation is processing its two parts one after the other. */
  lemma {:induction false} RunAppend(m: Machine, a: seq<Token>, b: seq<Token>)
    ensures Run(m, a + b) == (var first := Run(m, a); if first.Ok? then Run(first.value, b) else first)
    decreases |a|
  {
    if a == [] {
      assert a + b == b;
    } else {
      assert (a + b)[0] == a[0] && (a + b)[1..] == a[1..] + b;
      if Step(m, a[0]).Ok? {
        RunAppend(Step(m, a[0]).value, a[1..], b);
      }
    }
  }

  /** A unary operator never pops anything: it goes straight on top. */
  lemma UnaryAlwaysPushes(s: Stacks, p: Pending)
    requires p.op.kind.Unary?
    ensures PushOperator(s, p) == Ok(Stacks(s.operands, s.operators + [p]))
  {
  }

  /** An operator of final priority equal to or lower than the top's applies the top first,
      and only a strictly higher one is pushed over it. */
  lemma PushAgainstTop(s: Stacks, p: Pending)
    requires |s.operators| > 0 && !p.op.kind.Unary?
    ensures Top(s.operators).finalPriority < p.finalPriority ==>
              PushOperator(s, p) == Ok(Stacks(s.operands, s.operators + [p]))
    ensures Top(s.operators).finalPriority >= p.finalPriority ==>
              PushOperator(s, p) == (var applied := ApplyTop(s); if applied.Ok? then PushOperator(applied.value, p) else applied)
  {
  }

  /** Only numbers, operators and punctuation can be processed: any other token left in the
      buffer (a variable reference, say) makes the run fail. */
  lemma {:induction false} RunNeedsKnownTokens(m: Machine, ts: seq<Token>)
    ensures Run(m, ts).Ok? ==> forall i :: 0 <= i < |ts| ==> ts[i].Number? || ts[i].Op? || ts[i].Punct?
    decreases |ts|
  {
    if ts != [] && Step(m, ts[0]).Ok? {
      RunNeedsKnownTokens(Step(m, ts[0]).value, ts[1..]);
      assert forall i :: 1 <= i < |ts| ==> ts[i] == ts[1..][i - 1];
    }
  }

  /** The "Too many operators" check never fires: the drain always leaves the operator stack
      empty. */
  lemma TooManyOperatorsUnreachable(body: seq<Token>)
    ensures Resolve(body) != Err(EvalError("Too many operators"))
  {
    var m := Run(Start, body);
    if m.Ok? && Drain(m.value.stacks).Ok? {
      var final := Machine(Drain(m.value.stacks).value, m.value.basePriority);
      assert Resolve(body) == Finish(final);
      assert final.stacks.operators == [];
      if |final.stacks.operands| > 1 {
        assert Finish(final) == Err(EvalError("Too many operands"));
        assert "Too many operands"[14] != "Too many operators"[14];
      } else if final.basePriority != 0 {
        assert Finish(final) == Err(EvalError("Invalid Paranthesis"));
        assert "Invalid Paranthesis"[0] != "Too many operators"[0];
      }
    }
  }

  /** A parenthesis offset that does not come back to zero fails the call, whatever else the
      expression holds: unbalanced parentheses never produce a value. */
  lemma UnbalancedNeverSucceeds(body: seq<Token>)
    requires Balance(body) != 0
    ensures Resolve(body).Err?
  {
    var m := Run(Start, body);
    if m.Ok? {
      assert m.value.basePriority == ParenStep * Balance(body);
    }
  }

  /** The variable table is written only on success, and then only under the assignment
      target, with the evaluated value. */
  lemma {:induction false} OnlyAssignmentWrites(input: seq<Token>, vars: map<string, real>)
    requires EvaluateSpec(input, vars).Ok?
    ensures var ts := Ingest(input).value;
            var out := EvaluateSpec(input, vars).value;
            if |ts| > 2 && ts[0].Variable? && IsAssignOp(ts[1]) then
              out.vars == vars[ts[0].name := out.value] && Resolve(ts[2..]) == Ok(out.value)
            else
              out.vars == vars && Resolve(ts) == Ok(out.value)
  {
  }

  /** A call without assignment leaves the table as it was, so evaluating the same input again
      starts from the same table. */
  lemma NoAssignmentKeepsTable(input: seq<Token>, vars: map<string, real>)
    requires Ingest(input).Ok? && SplitAssignment(Ingest(input).value).0.None?
    ensures EvaluateSpec(input, vars).Ok? ==> EvaluateSpec(input, vars).value.vars == vars
  {
  }

  /** The value of a call does not depend on the variable table it starts from: variables
      reach an expression only through the tokenizer. */
  lemma ValueIgnoresTable(input: seq<Token>, vars1: map<string, real>, vars2: map<string, real>)
    ensures EvaluateSpec(input, vars1).Ok? <==> EvaluateSpec(input, vars2).Ok?
    ensures EvaluateSpec(input, vars1).Ok? ==> EvaluateSpec(input, vars1).value.value == EvaluateSpec(input, vars2).value.value
  {
  }
}
