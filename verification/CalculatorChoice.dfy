/** A formula that chooses, c ? x : y, through both passes of the calculator. */
module CalculatorChoice {
  import opened Options
  import opened Calculator
  import opened CalculatorProof

  function ChoiceText(c: Expr, x: Expr, y: Expr): string {
    Text(c) + (['?'] + (Text(x) + ([':'] + Text(y))))
  }

  function ChoicePostorder(c: Expr, x: Expr, y: Expr): string {
    Postorder(c) + (Postorder(x) + (Postorder(y) + [':', '?']))
  }

  predicate Written(c: Expr, x: Expr, y: Expr) {
    && WellFormed(c) && Parenthesised(c) && WellFormed(x) && Parenthesised(x) && WellFormed(y) && Parenthesised(y)
  }

  // ----- Infix to reverse Polish -----

  /** The operator stack never fills while tokens are left. */
  predicate Room(c: Expr, x: Expr, y: Expr) {
    && Peak(c) < STACK_SIZE && |Spine(c)| < STACK_SIZE
    && 1 + Peak(x) < STACK_SIZE && 1 + |Spine(x)| < STACK_SIZE
    && 2 + Peak(y) < STACK_SIZE
  }

  /** An expression and the sign of the choice behind it. */
  lemma ReadsPart(e: Expr, sign: char, rest: string, s: State)
    requires WellFormed(e) && Parenthesised(e) && IsChoice(sign)
    requires s.stack == [] || (s.stack == ['?'] && sign == ':')
    ensures Run(Text(e) + ([sign] + rest), s) ==
            if |s.stack| + Peak(e) < STACK_SIZE && |s.stack| + |Spine(e)| < STACK_SIZE
            then Run(rest, State(s.out + Postorder(e), s.stack + [sign])) else None
  {
    hide Step, Run, Postorder, Emitted, Parenthesised, WellFormed;
    RunSplit(Text(e), [sign] + rest, s);
    ReadsExpr(e, s);
    if |s.stack| + Peak(e) < STACK_SIZE {
      var m := State(s.out + Emitted(e), s.stack + Spine(e));
      RunToken(sign, rest, m);
      SignPops(sign, e);
      StepOperator(sign, e, s);
    }
  }

  lemma SignPops(sign: char, e: Expr)
    requires WellFormed(e) && IsChoice(sign)
    ensures e.Binary? ==> Pops(sign, e.op)
  {
  }

  lemma {:induction false} ReversedSum(s: string, t: string)
    ensures Reversed(s + t) == Reversed(t) + Reversed(s)
  {
    if s == [] {
      assert s + t == t && Reversed(t) + [] == Reversed(t);
    } else {
      ReversedSum(s[1..], t);
      assert (s + t)[1..] == s[1..] + t;
    }
  }

  /** The operator stack leaves the three parts in order, then both signs. */
  lemma ChoiceCompiles(c: Expr, x: Expr, y: Expr)
    requires Written(c, x, y)
    ensures Yard(ChoiceText(c, x, y)) == if Room(c, x, y) then Some(ChoicePostorder(c, x, y)) else None
  {
    hide Run, Flush, Text, Postorder, Parenthesised, WellFormed, Peak, Spine, Emitted, Reversed;
    var start := State([], []);
    var after := State(start.out + Postorder(c), start.stack + ['?']);
    ReadsPart(c, '?', Text(x) + ([':'] + Text(y)), start);
    if |Spine(c)| < STACK_SIZE && Peak(c) < STACK_SIZE {
      assert start.stack + ['?'] == ['?'];
      ReadsPart(x, ':', Text(y), after);
      if 1 + Peak(x) < STACK_SIZE && 1 + |Spine(x)| < STACK_SIZE {
        var last := State(after.out + Postorder(x), after.stack + [':']);
        ReadsExpr(y, last);
        if 2 + Peak(y) < STACK_SIZE {
          LastFlush(Postorder(c), Postorder(x), y);
          assert last.stack + Spine(y) == ['?', ':'] + Spine(y);
          assert last.out + Emitted(y) == Postorder(c) + Postorder(x) + Emitted(y);
        }
      }
    }
  }

  lemma LastFlush(c: string, x: string, y: Expr)
    requires WellFormed(y)
    ensures Flush(State(c + x + Emitted(y), ['?', ':'] + Spine(y))) == Some(c + (x + (Postorder(y) + [':', '?'])))
  {
    hide Flush, Postorder, Emitted, Spine, WellFormed;
    NoParenthesisInSpine(y);
    FlushesSpine(c + x + Emitted(y), ['?', ':'] + Spine(y));
    EmittedThenSpine(y);
    ReversedSum(['?', ':'], Spine(y));
    assert ['?', ':'][1..] == [':'] && [':'][1..] == [];
    assert Reversed(['?', ':']) == [':', '?'];
    assert c + x + Emitted(y) + (Reversed(Spine(y)) + [':', '?'])
        == c + (x + ((Emitted(y) + Reversed(Spine(y))) + [':', '?']));
  }

  // ----- Evaluation -----

  /** The value stack never fills while tokens are left. */
  predicate Fitting(c: Expr, x: Expr, y: Expr) {
    Height(c) < STACK_SIZE && 1 + Height(x) < STACK_SIZE && 2 + Height(y) < STACK_SIZE
  }

  /** A colon keeps its operand. */
  ghost predicate KeepsColon<V(!new)>(a: Arithmetic<V>) {
    forall v, w :: a.calculate(':', v, w) == Some(v)
  }

  /** What the test of the choice looks at: the value of the condition, but zero for a
      condition that is a lone operand. */
  function Tested<V>(a: Arithmetic<V>, c: Expr): V {
    if HasOperator(c) then Value(a, c) else a.zero
  }

  lemma ThreeParts<V>(a: Arithmetic<V>, c: Expr, x: Expr, y: Expr)
    requires WellFormed(c) && WellFormed(x) && WellFormed(y)
    ensures var r := Execute(a, Postorder(c) + (Postorder(x) + Postorder(y)), Cleared(a));
      if !Fitting(c, x, y) then r.None?
      else
        && r.Some? && r.value.sl == 3 && r.value.stack[0].val == Tested(a, c)
        && ValueOf(a, r.value.stack[1]) == Value(a, x) && ValueOf(a, r.value.stack[2]) == Value(a, y)
  {
    hide Execute, Postorder, Value, Height, WellFormed, HasOperator;
    var m := Cleared(a);
    ExecuteSplit(a, Postorder(c), Postorder(x) + Postorder(y), m);
    ExecutesExpr(a, c, m);
    if Height(c) < STACK_SIZE {
      var m1 := Execute(a, Postorder(c), m).value;
      ExecuteSplit(a, Postorder(x), Postorder(y), m1);
      ExecutesExpr(a, x, m1);
      if 1 + Height(x) < STACK_SIZE {
        var m2 := Execute(a, Postorder(x), m1).value;
        ExecutesExpr(a, y, m2);
        assert m2.stack[0] == m1.stack[0];
        if 2 + Height(y) < STACK_SIZE {
          var m3 := Execute(a, Postorder(y), m2).value;
          assert m3.stack[0] == m2.stack[0] && m3.stack[1] == m2.stack[1];
        }
      }
    }
  }

  lemma BothSigns<V(!new)>(a: Arithmetic<V>, m: Machine<V>)
    requires KeepsColon(a) && Fits(m) && m.sl == 3
    ensures var r := Execute(a, [':', '?'], m);
      && r.Some? && r.value.sl == 1
      && r.value.val == ValueOf(a, if a.truth(m.stack[0].val) then m.stack[1] else m.stack[2])
  {
    var y := ValueOf(a, m.stack[2]);
    var n := PushResult(m, 1, y);
    assert ExecuteStep(a, ':', m) == Some(n);
    assert [':', '?'][1..] == ['?'] && ['?'][1..] == [];
    assert ValueOf(a, n.stack[2]) == y && n.stack[1] == m.stack[1] && n.stack[0] == m.stack[0];
    assert ExecuteStep(a, '?', n).Some?;
  }

  /** The value stack chooses by what it tests. */
  lemma ChoiceEvaluates<V(!new)>(a: Arithmetic<V>, c: Expr, x: Expr, y: Expr)
    requires WellFormed(c) && WellFormed(x) && WellFormed(y) && KeepsColon(a)
    ensures Evaluate(a, ChoicePostorder(c, x, y)) ==
      if Fitting(c, x, y) then Some(if a.truth(Tested(a, c)) then Value(a, x) else Value(a, y)) else None
  {
    hide Execute, Postorder, Value, Fitting, WellFormed, KeepsColon, Tested;
    ThreeParts(a, c, x, y);
    ExecuteSplit(a, Postorder(c) + (Postorder(x) + Postorder(y)), [':', '?'], Cleared(a));
    assert ChoicePostorder(c, x, y) == Postorder(c) + (Postorder(x) + Postorder(y)) + [':', '?'];
    if Fitting(c, x, y) {
      BothSigns(a, Execute(a, Postorder(c) + (Postorder(x) + Postorder(y)), Cleared(a)).value);
    }
  }

  /** The calculator yields what the choice means exactly if neither stack fills and the
      condition has an operator, or its test comes out as that of zero, or both sides are
      worth the same. */
  lemma ChoiceCalculates<V(!new)>(a: Arithmetic<V>, c: Expr, x: Expr, y: Expr)
    requires Written(c, x, y) && KeepsColon(a)
    ensures Calculate(a, ChoiceText(c, x, y)) == Some(if a.truth(Value(a, c)) then Value(a, x) else Value(a, y)) <==>
      && Room(c, x, y) && Fitting(c, x, y)
      && (HasOperator(c) || a.truth(Value(a, c)) == a.truth(a.zero) || Value(a, x) == Value(a, y))
  {
    hide ChoiceText, ChoicePostorder, Room, Fitting, KeepsColon, Yard, Evaluate, Value;
    ChoiceCompiles(c, x, y);
    ChoiceEvaluates(a, c, x, y);
  }

  /** A lone operand as the condition is where the choice goes wrong: it is never looked up,
      and the second side is taken whatever it is. */
  lemma LoneConditionIsLost<V(!new)>(a: Arithmetic<V>, c: char, x: char, y: char)
    requires IsIdent(c) && IsIdent(x) && IsIdent(y) && KeepsColon(a) && !a.truth(a.zero)
    requires a.truth(a.operand(c)) && a.operand(x) != a.operand(y)
    ensures Calculate(a, [c, '?', x, ':', y]) == Some(a.operand(y))
  {
    hide KeepsColon, Yard, Evaluate;
    var e, f, g := Operand(c), Operand(x), Operand(y);
    assert ChoiceText(e, f, g) == [c, '?', x, ':', y];
    ChoiceCompiles(e, f, g);
    ChoiceEvaluates(a, e, f, g);
  }

  // ----- Functions -----

  /** A function leaves the last result, whatever its arguments are. */
  lemma FunctionKeepsResult<V>(a: Arithmetic<V>, f: char, m: Machine<V>)
    requires Fits(m) && m.sl < STACK_SIZE && IsFunction(f) && ArgCount(f) <= m.sl
    ensures var r := ExecuteStep(a, f, m);
            r.Some? && r.value.val == m.val && r.value.sl == m.sl - ArgCount(f) + 1
            && ValueOf(a, r.value.stack[r.value.sl - 1]) == m.val
  {
    FunctionsApart(f);
  }

  lemma FunctionsApart(f: char)
    requires IsFunction(f)
    ensures !IsIdent(f) && !IsOperator(f)
  {
  }
}
