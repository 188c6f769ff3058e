/** The calculator's loops over fixed arrays, against the token functions. */
module CalculatorLoops {
  import opened Options
  import opened Calculator

  function Held(output: array<char>, op: nat, stack: array<char>, sl: nat): State
    requires op <= output.Length && sl <= stack.Length
    reads output, stack
  {
    State(output[..op], stack[..sl])
  }

  /** Sends the top of the operator stack to the output. */
  method PopOne(output: array<char>, op: nat, stack: array<char>, sl: nat) returns (newOp: nat, newSl: nat)
    requires output != stack && op < output.Length && 0 < sl <= stack.Length
    modifies output
    ensures newOp == op + 1 && newSl == sl - 1
    ensures Held(output, newOp, stack, newSl) == Pop(old(Held(output, op, stack, sl)))
  {
    output[op] := stack[sl - 1];
    newOp, newSl := op + 1, sl - 1;
    assert stack[..sl][..sl - 1] == stack[..newSl];
    assert output[..op + 1] == output[..op] + [output[op]];
  }

  /** Pops operators until one stays below the arriving operator. */
  method PopOperatorsLoop(c: char, output: array<char>, op: nat, stack: array<char>, sl: nat)
      returns (newOp: nat, newSl: nat)
    requires output != stack && op + sl <= output.Length && sl <= stack.Length
    modifies output
    ensures newOp + newSl == op + sl && newSl <= sl
    ensures Held(output, newOp, stack, newSl) == PopOperators(c, old(Held(output, op, stack, sl)))
  {
    hide Pops;
    ghost var start := Held(output, op, stack, sl);
    newOp, newSl := op, sl;
    while newSl > 0
      invariant newOp + newSl == op + sl && newSl <= sl
      invariant PopOperators(c, Held(output, newOp, stack, newSl)) == PopOperators(c, start)
    {
      if Pops(c, stack[newSl - 1]) {
        newOp, newSl := PopOne(output, newOp, stack, newSl);
      } else {
        break;
      }
    }
  }

  /** Pops until a left parenthesis is on top, or nothing is left. */
  method PopToParenthesisLoop(output: array<char>, op: nat, stack: array<char>, sl: nat)
      returns (newOp: nat, newSl: nat, pe: bool)
    requires output != stack && op + sl <= output.Length && sl <= stack.Length
    modifies output
    ensures newOp + newSl == op + sl && newSl <= sl && pe == (newSl > 0)
    ensures Held(output, newOp, stack, newSl) == PopToParenthesis(old(Held(output, op, stack, sl)))
  {
    ghost var start := Held(output, op, stack, sl);
    newOp, newSl, pe := op, sl, false;
    while newSl > 0
      invariant newOp + newSl == op + sl && newSl <= sl && !pe
      invariant PopToParenthesis(Held(output, newOp, stack, newSl)) == PopToParenthesis(start)
    {
      if stack[newSl - 1] == '(' {
        pe := true;
        break;
      } else {
        newOp, newSl := PopOne(output, newOp, stack, newSl);
      }
    }
  }

  /** One token; a new operator, function or parenthesis goes on the stack. */
  method ReadToken(c: char, output: array<char>, op: nat, stack: array<char>, sl: nat)
      returns (ok: bool, newOp: nat, newSl: nat)
    requires output != stack && op + sl < output.Length && sl < stack.Length
    modifies output, stack
    ensures newOp + newSl <= op + sl + 1 && newSl <= sl + 1
    ensures ok == Step(c, old(Held(output, op, stack, sl))).Some?
    ensures ok ==> Some(Held(output, newOp, stack, newSl)) == Step(c, old(Held(output, op, stack, sl)))
  {
    hide PopOperators, PopToParenthesis, IsOperator;
    ok, newOp, newSl := true, op, sl;
    if c == ' ' {
    } else if IsIdent(c) {
      output[op] := c;
      newOp := op + 1;
      assert output[..newOp] == old(output[..op]) + [c];
    } else if IsFunction(c) {
      stack[sl] := c;
      newSl := sl + 1;
      assert stack[..newSl] == old(stack[..sl]) + [c];
    } else if c == ',' {
      newOp, newSl, ok := PopToParenthesisLoop(output, op, stack, sl);
    } else if IsOperator(c) {
      newOp, newSl := PopOperatorsLoop(c, output, op, stack, sl);
      stack[newSl] := c;
      newSl := newSl + 1;
      assert stack[..newSl] == stack[..newSl - 1] + [c];
    } else if c == '(' {
      stack[sl] := c;
      newSl := sl + 1;
      assert stack[..newSl] == old(stack[..sl]) + [c];
    } else if c == ')' {
      newOp, newSl, ok := PopToParenthesisLoop(output, op, stack, sl);
      if ok {
        assert stack[..newSl][..newSl - 1] == stack[..newSl - 1];
        newSl := newSl - 1;
        if newSl > 0 && IsFunction(stack[newSl - 1]) {
          newOp, newSl := PopOne(output, newOp, stack, newSl);
        }
      }
    } else {
      ok := false;
    }
  }

  /** Infix to reverse Polish, in place in the output buffer, with a terminating zero. */
  method ShuntingYard(input: string, output: array<char>) returns (ok: bool)
    requires |input| < output.Length
    modifies output
    ensures ok == Yard(input).Some?
    ensures ok ==> var y := Yard(input).value;
                   |y| < output.Length && output[..|y|] == y && output[|y|] == '\0'
  {
    hide Step;
    var stack := new char[STACK_SIZE];
    var sl: nat, op: nat, pos: nat := 0, 0, 0;
    ghost var start := State([], []);
    assert Held(output, 0, stack, 0) == start && input[0..] == input;
    ok := true;
    while pos < |input|
      invariant 0 <= pos <= |input| && op + sl <= pos && sl <= STACK_SIZE
      invariant Run(input, start) == Run(input[pos..], Held(output, op, stack, sl))
    {
      if sl >= STACK_SIZE {
        return false;
      }
      assert input[pos..][1..] == input[pos + 1..];
      ok, op, sl := ReadToken(input[pos], output, op, stack, sl);
      if !ok {
        return false;
      }
      pos := pos + 1;
    }
    ghost var last := Held(output, op, stack, sl);
    while sl > 0
      invariant op + sl <= |input| && sl <= STACK_SIZE
      invariant Flush(Held(output, op, stack, sl)) == Flush(last)
    {
      if stack[sl - 1] == '(' || stack[sl - 1] == ')' {
        return false;
      }
      op, sl := PopOne(output, op, stack, sl);
    }
    output[op] := '\0';
    return true;
  }

  /** Evaluates reverse Polish text on the cleared value stack. */
  method ExecutionOrder<V>(a: Arithmetic<V>, input: string, stack: array<Entry<V>>) returns (result: Option<V>)
    requires stack[..] == Cleared(a).stack
    modifies stack
    ensures result == Evaluate(a, input)
  {
    hide IsOperator, ArgCount;
    var sl: nat, pos: nat, val := 0, 0, a.zero;
    ghost var start := Cleared(a);
    assert input[0..] == input;
    while pos < |input|
      invariant 0 <= pos <= |input| && stack.Length == STACK_SIZE && sl <= STACK_SIZE
      invariant Execute(a, input, start) == Execute(a, input[pos..], Machine(stack[..], sl, val))
    {
      if sl >= STACK_SIZE {
        return None;
      }
      ghost var before := Machine(stack[..], sl, val);
      assert input[pos..][0] == input[pos] && input[pos..][1..] == input[pos + 1..];
      var c := input[pos];
      if IsIdent(c) {
        stack[sl] := stack[sl].(token := Some(c));
        sl := sl + 1;
        assert Machine(stack[..], sl, val) == PushToken(before, c);
      } else if IsOperator(c) || IsFunction(c) {
        if sl < ArgCount(c) {
          return None;
        }
        val := OperatorResult(a, c, stack, sl, val);
        stack[sl - ArgCount(c)] := Entry(None, val);
        sl := sl - ArgCount(c) + 1;
        assert Machine(stack[..], sl, val) == PushResult(before, ArgCount(c), val);
      }
      pos := pos + 1;
    }
    if sl == 1 {
      return Some(val);
    }
    return None;
  }

  /** The value an operator or function leaves. */
  method OperatorResult<V>(a: Arithmetic<V>, c: char, stack: array<Entry<V>>, sl: nat, val: V) returns (r: V)
    requires IsOperator(c) || IsFunction(c)
    requires ArgCount(c) <= sl <= stack.Length
    ensures r == Result(a, Machine(stack[..], sl, val), c)
  {
    r := val;
    if IsFunction(c) {
    } else if ArgCount(c) == 1 {
      var v := a.calculate(c, ValueOf(a, stack[sl - 1]), val);
      if v.Some? {
        r := v.value;
      }
    } else if ArgCount(c) == 2 {
      r := a.zero;
      var v := a.calculate(c, ValueOf(a, stack[sl - 2]), ValueOf(a, stack[sl - 1]));
      if v.Some? {
        r := v.value;
      }
    } else if ArgCount(c) == 3 {
      var chosen := stack[sl - 1];
      if a.truth(stack[sl - 3].val) {
        chosen := stack[sl - 2];
      }
      r := ValueOf(a, chosen);
    }
  }
}
