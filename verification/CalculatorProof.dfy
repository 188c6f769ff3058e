/** The calculator on printed expression trees: the operator stack produces exactly the
    postorder, the value stack exactly the value. */
module CalculatorProof {
  import opened Options
  import opened Calculator

  /** An expression as written: operands, two-argument operators, parentheses. */
  datatype Expr = Operand(name: char) | Binary(op: char, left: Expr, right: Expr) | Paren(inner: Expr)

  predicate IsBinary(c: char) {
    IsOperator(c) && ArgCount(c) == 2
  }

  /** The two signs of a choice, c ? x : y, bind less than any operator. */
  predicate IsChoice(c: char) {
    c == '?' || c == ':'
  }

  predicate WellFormed(e: Expr) {
    match e
    case Operand(c) => IsIdent(c)
    case Binary(op, l, r) => IsBinary(op) && WellFormed(l) && WellFormed(r)
    case Paren(i) => WellFormed(i)
  }

  function Text(e: Expr): string {
    match e
    case Operand(c) => [c]
    case Binary(op, l, r) => Text(l) + ([op] + Text(r))
    case Paren(i) => ['('] + (Text(i) + [')'])
  }

  function Postorder(e: Expr): string {
    match e
    case Operand(c) => [c]
    case Binary(op, l, r) => Postorder(l) + Postorder(r) + [op]
    case Paren(i) => Postorder(i)
  }

  // Three kinds of operators, those that bind tightest first. The first two group to the
  // left, the last to the right.
  predicate Multiplies(c: char) {
    c == '*' || c == '/' || c == '%' || c == '|' || c == '&' || c == '^'
  }

  predicate Adds(c: char) {
    c == '+' || c == '-'
  }

  predicate Compares(c: char) {
    c == '=' || c == '@' || c == '<' || c == '>'
  }

  /** Whether an operator needs no parentheses as the left operand of op. */
  predicate BareLeft(op: char, inner: char) {
    Multiplies(inner) || (Adds(inner) && !Multiplies(op))
  }

  /** ... and as the right operand. */
  predicate BareRight(op: char, inner: char) {
    (Adds(op) && Multiplies(inner)) || Compares(op)
  }

  /** An expression with at least the parentheses it needs. */
  predicate Parenthesised(e: Expr) {
    match e
    case Operand(_) => true
    case Binary(op, l, r) =>
      && Parenthesised(l) && Parenthesised(r)
      && (l.Binary? ==> BareLeft(op, l.op))
      && (r.Binary? ==> BareRight(op, r.op))
    case Paren(i) => Parenthesised(i)
  }

  lemma ThreeKinds(c: char)
    ensures IsBinary(c) <==> Multiplies(c) || Adds(c) || Compares(c)
  {
  }

  /** The table of precedences and the rule of associativity say the same: an operator to the
      left is popped when its parent arrives, one to the right does not pop its parent. */
  lemma TableSaysSo(op: char, inner: char)
    requires IsBinary(op) && IsBinary(inner)
    ensures Pops(op, inner) <==> BareLeft(op, inner)
    ensures !Pops(inner, op) <==> BareRight(op, inner)
  {
  }

  // ----- What the operator stack holds after an expression -----

  /** The operators still on the stack: the right spine. */
  function Spine(e: Expr): string {
    match e
    case Operand(_) => []
    case Binary(op, _, r) => [op] + Spine(r)
    case Paren(_) => []
  }

  /** What has gone to the output by then. */
  function Emitted(e: Expr): string {
    match e
    case Operand(c) => [c]
    case Binary(_, l, r) => Postorder(l) + Emitted(r)
    case Paren(i) => Postorder(i)
  }

  function Reversed(s: string): string {
    if s == [] then [] else Reversed(s[1..]) + [s[0]]
  }

  lemma {:induction false} EmittedThenSpine(e: Expr)
    ensures Emitted(e) + Reversed(Spine(e)) == Postorder(e)
  {
    match e
    case Operand(_) =>
    case Paren(_) =>
    case Binary(op, l, r) =>
      EmittedThenSpine(r);
      assert Spine(e)[1..] == Spine(r);
      assert Emitted(e) + Reversed(Spine(e)) == Postorder(l) + (Emitted(r) + Reversed(Spine(r))) + [op];
  }

  /** The most operators on the stack, above what was there, when a token is read. */
  function Peak(e: Expr): nat {
    match e
    case Operand(_) => 0
    case Binary(_, l, r) => Max(Peak(l), Max(|Spine(l)|, 1 + Peak(r)))
    case Paren(i) => 1 + Max(Peak(i), |Spine(i)|)
  }

  function Max(a: nat, b: nat): nat {
    if a < b then b else a
  }

  /** What an expression may be read on top of: nothing, a parenthesis, the sign of a choice,
      or an operator its own outermost operator does not pop. */
  predicate ReadsOn(stack: string, e: Expr) {
    stack != [] ==>
      var top := Top(stack);
      top == '(' || IsChoice(top) || (IsBinary(top) && (e.Binary? ==> !Pops(e.op, top)))
  }

  // ----- Popping -----

  lemma {:induction false} PopsSpine(c: char, out: string, stack: string, spine: string)
    requires forall k :: 0 <= k < |spine| ==> Pops(c, spine[k])
    requires stack != [] ==> !Pops(c, Top(stack))
    ensures PopOperators(c, State(out, stack + spine)) == State(out + Reversed(spine), stack)
    decreases |spine|
  {
    hide Pops;
    if spine == [] {
      assert stack + spine == stack && out + Reversed(spine) == out;
    } else {
      var rest, last := spine[..|spine| - 1], Top(spine);
      assert Pop(State(out, stack + spine)) == State(out + [last], stack + rest);
      PopsSpine(c, out + [last], stack, rest);
      ReversedLast(spine);
      assert out + [last] + Reversed(rest) == out + ([last] + Reversed(rest));
    }
  }

  lemma {:induction false} ReversedLast(s: string)
    requires s != []
    ensures Reversed(s) == [Top(s)] + Reversed(s[..|s| - 1])
  {
    if |s| > 1 {
      ReversedLast(s[1..]);
      assert s[1..][..|s| - 2] == s[..|s| - 1][1..];
    }
  }

  lemma {:induction false} PopsToParenthesis(out: string, stack: string, spine: string)
    requires '(' !in spine
    ensures PopToParenthesis(State(out, stack + ['('] + spine)) == State(out + Reversed(spine), stack + ['('])
    decreases |spine|
  {
    if spine == [] {
      assert stack + ['('] + spine == stack + ['('] && out + Reversed(spine) == out;
    } else {
      var rest, last := spine[..|spine| - 1], Top(spine);
      assert Pop(State(out, stack + ['('] + spine)) == State(out + [last], stack + ['('] + rest);
      PopsToParenthesis(out + [last], stack, rest);
      ReversedLast(spine);
      assert out + [last] + Reversed(rest) == out + ([last] + Reversed(rest));
    }
  }

  lemma {:induction false} FlushesSpine(out: string, spine: string)
    requires '(' !in spine && ')' !in spine
    ensures Flush(State(out, spine)) == Some(out + Reversed(spine))
    decreases |spine|
  {
    if spine == [] {
      assert out + Reversed(spine) == out;
    } else {
      var rest, last := spine[..|spine| - 1], Top(spine);
      FlushesSpine(out + [last], rest);
      ReversedLast(spine);
      assert out + [last] + Reversed(rest) == out + ([last] + Reversed(rest));
    }
  }

  // ----- Precedence along the edges -----

  lemma PopsIsTransitive(a: char, b: char, c: char)
    requires (IsBinary(a) || IsChoice(a)) && IsBinary(b) && IsBinary(c)
    requires Pops(a, b) && !Pops(c, b)
    ensures Pops(a, c)
  {
  }

  lemma StaysOnLeft(below: char, op: char, left: char)
    requires IsBinary(below) && IsBinary(op) && IsBinary(left)
    requires !Pops(op, below) && Pops(op, left)
    ensures !Pops(left, below)
  {
  }

  /** Every operator on the right spine is popped by one that pops its first. */
  lemma {:induction false} SpinePopped(c: char, e: Expr)
    requires (IsBinary(c) || IsChoice(c)) && WellFormed(e) && Parenthesised(e) && (e.Binary? ==> Pops(c, e.op))
    ensures forall k :: 0 <= k < |Spine(e)| ==> Pops(c, Spine(e)[k])
  {
    match e
    case Operand(_) =>
    case Paren(_) =>
    case Binary(op, _, r) =>
      if r.Binary? {
        TableSaysSo(op, r.op);
        PopsIsTransitive(c, op, r.op);
      }
      SpinePopped(c, r);
  }

  lemma {:induction false} SpineIsOperators(e: Expr)
    requires WellFormed(e)
    ensures forall k :: 0 <= k < |Spine(e)| ==> IsBinary(Spine(e)[k])
  {
    match e
    case Operand(_) =>
    case Paren(_) =>
    case Binary(_, _, r) => SpineIsOperators(r);
  }

  lemma NoParenthesisInSpine(e: Expr)
    requires WellFormed(e)
    ensures '(' !in Spine(e) && ')' !in Spine(e)
  {
    SpineIsOperators(e);
  }

  // ----- Reading an expression -----

  lemma {:induction false} RunSplit(s: string, t: string, state: State)
    ensures Run(s + t, state) == (var m := Run(s, state); if m.None? then None else Run(t, m.value))
    decreases |s|
  {
    if s == [] {
      assert s + t == t;
    } else {
      assert (s + t)[1..] == s[1..] + t;
      var m := Step(s[0], state);
      if |state.stack| < STACK_SIZE && m.Some? {
        RunSplit(s[1..], t, m.value);
      }
    }
  }

  lemma RunToken(c: char, rest: string, s: State)
    ensures Run([c] + rest, s)
         == if |s.stack| >= STACK_SIZE || Step(c, s).None? then None else Run(rest, Step(c, s).value)
  {
    assert ([c] + rest)[1..] == rest;
  }

  /** The state after an expression read on top of s. */
  function After(e: Expr, s: State): Option<State> {
    if |s.stack| + Peak(e) < STACK_SIZE then Some(State(s.out + Emitted(e), s.stack + Spine(e))) else None
  }

  lemma OperatorToken(op: char, s: State)
    requires IsBinary(op) || IsChoice(op)
    ensures Step(op, s) == Some(Push(PopOperators(op, s), op))
  {
    hide Pops;
  }

  lemma CloseToken(s: State)
    ensures var t := PopToParenthesis(s);
            Step(')', s) == if t.stack == [] then None else Some(Close(t))
  {
    hide PopToParenthesis;
  }

  lemma StepOperator(op: char, l: Expr, s: State)
    requires (IsBinary(op) || IsChoice(op)) && WellFormed(l) && Parenthesised(l) && (l.Binary? ==> Pops(op, l.op))
    requires s.stack != [] ==> !Pops(op, Top(s.stack))
    ensures Step(op, State(s.out + Emitted(l), s.stack + Spine(l))) == Some(State(s.out + Postorder(l), s.stack + [op]))
  {
    hide Step, PopOperators, Pops, IsBinary;
    OperatorToken(op, State(s.out + Emitted(l), s.stack + Spine(l)));
    SpinePopped(op, l);
    PopsSpine(op, s.out + Emitted(l), s.stack, Spine(l));
    EmittedThenSpine(l);
    assert s.out + Emitted(l) + Reversed(Spine(l)) == s.out + Postorder(l);
  }

  lemma StepClose(i: Expr, s: State)
    requires WellFormed(i) && (s.stack != [] ==> !IsFunction(Top(s.stack)))
    ensures Step(')', State(s.out + Emitted(i), s.stack + ['('] + Spine(i)))
         == Some(State(s.out + Postorder(i), s.stack))
  {
    hide Step, PopToParenthesis, IsFunction;
    CloseToken(State(s.out + Emitted(i), s.stack + ['('] + Spine(i)));
    NoParenthesisInSpine(i);
    PopsToParenthesis(s.out + Emitted(i), s.stack, Spine(i));
    EmittedThenSpine(i);
    assert s.out + Emitted(i) + Reversed(Spine(i)) == s.out + Postorder(i);
    assert (s.stack + ['('])[..|s.stack|] == s.stack;
  }

  lemma {:induction false} ReadsExpr(e: Expr, s: State)
    requires WellFormed(e) && Parenthesised(e) && ReadsOn(s.stack, e)
    ensures Run(Text(e), s) == After(e, s)
    decreases e, 2
  {
    match e
    case Operand(c) =>
      RunToken(c, [], s);
      assert [c] + [] == Text(e) && s.stack + [] == s.stack;
    case Paren(i) => ReadsParen(i, s);
    case Binary(op, l, r) => ReadsBinary(op, l, r, s);
  }

  lemma {:induction false} ReadsParen(i: Expr, s: State)
    requires WellFormed(i) && Parenthesised(i) && ReadsOn(s.stack, Paren(i))
    ensures Run(Text(Paren(i)), s) == After(Paren(i), s)
    decreases Paren(i), 0
  {
    hide Postorder, Pops;
    var inside := State(s.out, s.stack + ['(']);
    RunToken('(', Text(i) + [')'], s);
    RunSplit(Text(i), [')'], inside);
    ReadsExpr(i, inside);
    if |inside.stack| + Peak(i) < STACK_SIZE {
      var m := State(s.out + Emitted(i), inside.stack + Spine(i));
      RunToken(')', [], m);
      assert [')'] + [] == [')'];
      StepClose(i, s);
      assert s.stack + Spine(Paren(i)) == s.stack;
    }
  }

  lemma LeftReadsOn(op: char, l: Expr, r: Expr, s: State)
    requires var e := Binary(op, l, r); WellFormed(e) && Parenthesised(e) && ReadsOn(s.stack, e)
    ensures IsBinary(op) && WellFormed(l) && Parenthesised(l) && (l.Binary? ==> Pops(op, l.op)) && ReadsOn(s.stack, l)
    ensures s.stack != [] ==> !Pops(op, Top(s.stack))
  {
    hide Pops, IsBinary, IsChoice, BareLeft, BareRight;
    if l.Binary? {
      TableSaysSo(op, l.op);
    }
    if s.stack != [] {
      if Top(s.stack) == '(' || IsChoice(Top(s.stack)) {
        NotPopped(op, Top(s.stack));
      } else if l.Binary? {
        StaysOnLeft(Top(s.stack), op, l.op);
      }
    }
  }

  lemma NotPopped(op: char, below: char)
    requires IsBinary(op) && (below == '(' || IsChoice(below))
    ensures !Pops(op, below)
  {
  }

  lemma RightReadsOn(op: char, l: Expr, r: Expr, s: State)
    requires var e := Binary(op, l, r); WellFormed(e) && Parenthesised(e)
    ensures WellFormed(r) && Parenthesised(r) && ReadsOn(s.stack + [op], r)
  {
    hide Pops, IsBinary, BareLeft, BareRight;
    if r.Binary? {
      TableSaysSo(op, r.op);
    }
  }

  lemma {:induction false} ReadsBinary(op: char, l: Expr, r: Expr, s: State)
    requires var e := Binary(op, l, r); WellFormed(e) && Parenthesised(e) && ReadsOn(s.stack, e)
    ensures Run(Text(Binary(op, l, r)), s) == After(Binary(op, l, r), s)
    decreases Binary(op, l, r), 1
  {
    LeftReadsOn(op, l, r, s);
    hide Step, Pops, IsBinary, ReadsOn, Emitted, Spine, WellFormed, Parenthesised, Run;
    RunSplit(Text(l), [op] + Text(r), s);
    ReadsExpr(l, s);
    if |s.stack| + Peak(l) < STACK_SIZE {
      ReadsRest(op, l, r, s);
    }
  }

  /** The operator and the right operand, after the left one. */
  lemma {:induction false} ReadsRest(op: char, l: Expr, r: Expr, s: State)
    requires var e := Binary(op, l, r); WellFormed(e) && Parenthesised(e) && ReadsOn(s.stack, e)
    requires |s.stack| + Peak(l) < STACK_SIZE
    ensures Run([op] + Text(r), State(s.out + Emitted(l), s.stack + Spine(l))) == After(Binary(op, l, r), s)
    decreases Binary(op, l, r), 0
  {
    LeftReadsOn(op, l, r, s);
    RightReadsOn(op, l, r, s);
    hide Step, Pops, IsBinary, ReadsOn, WellFormed, Parenthesised, Postorder, Text, Run, After;
    RunToken(op, Text(r), State(s.out + Emitted(l), s.stack + Spine(l)));
    StepOperator(op, l, s);
    ReadsExpr(r, State(s.out + Postorder(l), s.stack + [op]));
    AfterRight(op, l, r, s);
  }

  lemma AfterRight(op: char, l: Expr, r: Expr, s: State)
    requires |s.stack| + Peak(l) < STACK_SIZE
    ensures After(Binary(op, l, r), s) ==
            if |s.stack| + |Spine(l)| < STACK_SIZE then After(r, State(s.out + Postorder(l), s.stack + [op])) else None
  {
    Regroup(s.out, Postorder(l), Emitted(r));
    Regroup(s.stack, [op], Spine(r));
    hide Postorder;
  }

  lemma Regroup(a: string, b: string, c: string)
    ensures a + b + c == a + (b + c)
  {
  }

  /** The operator stack turns a parenthesised expression into its postorder, exactly when
      the stack never fills while tokens are left. */
  lemma YardIsPostorder(e: Expr)
    requires WellFormed(e) && Parenthesised(e)
    ensures Yard(Text(e)) == if Peak(e) < STACK_SIZE then Some(Postorder(e)) else None
  {
    var s := State([], []);
    ReadsExpr(e, s);
    if Peak(e) < STACK_SIZE {
      NoParenthesisInSpine(e);
      FlushesSpine(Emitted(e), Spine(e));
      EmittedThenSpine(e);
      assert s.out + Emitted(e) == Emitted(e) && s.stack + Spine(e) == Spine(e);
    }
  }

  /** Two operators without parentheses: the second goes first exactly if it binds tighter, or
      both compare. */
  lemma TwoOperators(x: char, f: char, y: char, g: char, z: char)
    requires IsIdent(x) && IsIdent(y) && IsIdent(z)
    requires Multiplies(f) || Adds(f) || Compares(f)
    requires Multiplies(g) || Adds(g) || Compares(g)
    ensures Yard([x, f, y, g, z]) ==
      if (Adds(f) && Multiplies(g)) || Compares(f) then Some([x, y, z, g, f]) else Some([x, y, f, z, g])
  {
    hide IsBinary, Multiplies, Adds, Compares, Yard, Pops, IsIdent;
    ThreeKinds(f);
    ThreeKinds(g);
    KindsApart(f);
    KindsApart(g);
    var a, b, c := Operand(x), Operand(y), Operand(z);
    if (Adds(f) && Multiplies(g)) || Compares(f) {
      ShortText(g, b, c);
      ShortText(f, a, Binary(g, b, c));
      assert [x] + [f] + ([y] + [g] + [z]) == [x, f, y, g, z] && [x] + ([y] + [z] + [g]) + [f] == [x, y, z, g, f];
      YardIsPostorder(Binary(f, a, Binary(g, b, c)));
    } else {
      ShortText(f, a, b);
      ShortText(g, Binary(f, a, b), c);
      assert ([x] + [f] + [y]) + [g] + [z] == [x, f, y, g, z] && ([x] + [y] + [f]) + [z] + [g] == [x, y, f, z, g];
      YardIsPostorder(Binary(g, Binary(f, a, b), c));
    }
  }

  lemma ShortText(op: char, l: Expr, r: Expr)
    ensures Text(Binary(op, l, r)) == Text(l) + [op] + Text(r)
    ensures Postorder(Binary(op, l, r)) == Postorder(l) + Postorder(r) + [op]
    ensures l.Operand? ==> Text(l) == Postorder(l) == [l.name] && Peak(l) == 0 && Spine(l) == []
    ensures r.Operand? ==> Text(r) == Postorder(r) == [r.name] && Peak(r) == 0 && Spine(r) == []
    ensures Peak(Binary(op, l, r)) == Max(Peak(l), Max(|Spine(l)|, 1 + Peak(r)))
    ensures Spine(Binary(op, l, r)) == [op] + Spine(r)
  {
  }

  lemma KindsApart(c: char)
    ensures !(Multiplies(c) && Adds(c)) && !(Multiplies(c) && Compares(c)) && !(Adds(c) && Compares(c))
  {
  }

  // ----- Printing a tree with just the parentheses it needs -----

  function Wrapped(needed: bool, e: Expr): Expr {
    if needed then Paren(e) else e
  }

  function Printed(e: Expr): Expr {
    match e
    case Operand(_) => e
    case Paren(i) => Printed(i)
    case Binary(op, l, r) =>
      var left, right := Printed(l), Printed(r);
      Binary(op, Wrapped(left.Binary? && !BareLeft(op, left.op), left),
             Wrapped(right.Binary? && !BareRight(op, right.op), right))
  }

  lemma {:induction false} PrintedIsParenthesised(e: Expr)
    requires WellFormed(e)
    ensures WellFormed(Printed(e)) && Parenthesised(Printed(e)) && Postorder(Printed(e)) == Postorder(e)
  {
    hide BareLeft, BareRight;
    match e
    case Operand(_) =>
    case Paren(i) => PrintedIsParenthesised(i);
    case Binary(_, l, r) =>
      PrintedIsParenthesised(l);
      PrintedIsParenthesised(r);
  }

  // ----- Evaluating the postorder -----

  function Value<V>(a: Arithmetic<V>, e: Expr): V {
    match e
    case Operand(c) => a.operand(c)
    case Paren(i) => Value(a, i)
    case Binary(op, l, r) =>
      var v := a.calculate(op, Value(a, l), Value(a, r));
      if v.None? then a.zero else v.value
  }

  predicate HasOperator(e: Expr) {
    match e
    case Operand(_) => false
    case Paren(i) => HasOperator(i)
    case Binary(_, _, _) => true
  }

  /** The most values on the stack, above what was there, when a token is read. */
  function Height(e: Expr): nat {
    match e
    case Operand(_) => 0
    case Paren(i) => Height(i)
    case Binary(_, l, r) => Max(Height(l), Max(1 + Height(r), 2))
  }

  lemma {:induction false} ExecuteSplit<V>(a: Arithmetic<V>, s: string, t: string, m: Machine<V>)
    requires Fits(m)
    ensures Execute(a, s + t, m) == (var n := Execute(a, s, m); if n.None? then None else Execute(a, t, n.value))
    decreases |s|
  {
    if s == [] {
      assert s + t == t;
    } else if m.sl < STACK_SIZE {
      assert (s + t)[1..] == s[1..] + t;
      var n := ExecuteStep(a, s[0], m);
      if n.Some? {
        ExecuteSplit(a, s[1..], t, n.value);
      }
    }
  }

  /** One more entry, holding the value of e; entries below are as they were. */
  ghost predicate Evaluated<V>(a: Arithmetic<V>, e: Expr, m: Machine<V>, r: Machine<V>)
    requires Fits(m) && Fits(r)
  {
    && r.sl == m.sl + 1
    && (forall k :: 0 <= k < m.sl ==> r.stack[k] == m.stack[k])
    && ValueOf(a, r.stack[m.sl]) == Value(a, e)
    && r.stack[m.sl].val == (if HasOperator(e) then Value(a, e) else m.stack[m.sl].val)
    && r.val == if HasOperator(e) then Value(a, e) else m.val
  }

  lemma {:induction false} ExecutesExpr<V>(a: Arithmetic<V>, e: Expr, m: Machine<V>)
    requires WellFormed(e) && Fits(m)
    ensures var r := Execute(a, Postorder(e), m);
            if m.sl + Height(e) < STACK_SIZE then r.Some? && Evaluated(a, e, m, r.value) else r.None?
    decreases e, 1
  {
    match e
    case Operand(c) =>
      if m.sl < STACK_SIZE {
        assert Execute(a, Postorder(e)[1..], PushToken(m, c)) == Some(PushToken(m, c));
      }
    case Paren(i) => ExecutesExpr(a, i, m);
    case Binary(op, l, r) => ExecutesBinary(a, op, l, r, m);
  }

  lemma {:induction false} ExecutesBinary<V>(a: Arithmetic<V>, op: char, l: Expr, r: Expr, m: Machine<V>)
    requires WellFormed(Binary(op, l, r)) && Fits(m)
    ensures var e := Binary(op, l, r);
            var r := Execute(a, Postorder(e), m);
            if m.sl + Height(e) < STACK_SIZE then r.Some? && Evaluated(a, e, m, r.value) else r.None?
    decreases Binary(op, l, r), 0
  {
    hide ExecuteStep, Execute;
    ExecuteSplit(a, Postorder(l) + Postorder(r), [op], m);
    ExecuteSplit(a, Postorder(l), Postorder(r), m);
    ExecutesExpr(a, l, m);
    if m.sl + Height(l) < STACK_SIZE {
      var n := Execute(a, Postorder(l), m).value;
      ExecutesExpr(a, r, n);
      if n.sl + Height(r) < STACK_SIZE {
        var k := Execute(a, Postorder(r), n).value;
        ExecutesOperator(a, op, k);
        assert k.stack[m.sl] == n.stack[m.sl];
      }
    }
  }

  lemma ExecutesOperator<V>(a: Arithmetic<V>, op: char, k: Machine<V>)
    requires Fits(k) && IsBinary(op) && 2 <= k.sl
    ensures Execute(a, [op], k) == if k.sl < STACK_SIZE then Some(PushResult(k, 2, Result(a, k, op))) else None
  {
    if k.sl < STACK_SIZE {
      assert ExecuteStep(a, op, k) == Some(PushResult(k, 2, Result(a, k, op)));
      assert [op][1..] == [];
    }
  }

  /** The value stack computes the value of the expression, if it never fills while tokens
      are left; a formula without an operator leaves the result register at zero. */
  lemma EvaluateIsValue<V>(a: Arithmetic<V>, e: Expr)
    requires WellFormed(e)
    ensures Evaluate(a, Postorder(e)) ==
            if Height(e) < STACK_SIZE then Some(if HasOperator(e) then Value(a, e) else a.zero) else None
  {
    ExecutesExpr(a, e, Cleared(a));
  }

  /** The whole calculator on a printed expression. */
  function Calculate<V>(a: Arithmetic<V>, input: string): Option<V> {
    var rpn := Yard(input);
    if rpn.None? then None else Evaluate(a, rpn.value)
  }

  /** It yields the value of the expression exactly when neither stack fills and there is
      an operator (or the value is zero anyway). */
  lemma CalculatesValue<V>(a: Arithmetic<V>, e: Expr)
    requires WellFormed(e) && Parenthesised(e)
    ensures Calculate(a, Text(e)) == Some(Value(a, e)) <==>
            Peak(e) < STACK_SIZE && Height(e) < STACK_SIZE && (HasOperator(e) || Value(a, e) == a.zero)
  {
    YardIsPostorder(e);
    EvaluateIsValue(a, e);
  }

  /** A lone operand, in any number of parentheses, is where the value is lost. */
  lemma LoneOperandIsLost<V>(a: Arithmetic<V>, c: char)
    requires IsIdent(c) && a.operand(c) != a.zero
    ensures Calculate(a, [c]) == Some(a.zero) != Some(Value(a, Operand(c)))
  {
    YardIsPostorder(Operand(c));
    EvaluateIsValue(a, Operand(c));
  }
}
