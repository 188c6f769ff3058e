/** A function call, F(x, y, ...), through the operator stack. */
module CalculatorCalls {
  import opened Options
  import opened Calculator
  import opened CalculatorProof

  /** The arguments with the commas between them and the closing parenthesis. */
  function Arguments(args: seq<Expr>): string
    requires args != []
  {
    if |args| == 1 then Text(args[0]) + [')'] else Text(args[0]) + ([','] + Arguments(args[1..]))
  }

  function Postorders(args: seq<Expr>): string {
    if args == [] then [] else Postorder(args[0]) + Postorders(args[1..])
  }

  predicate AllWritten(args: seq<Expr>) {
    forall k :: 0 <= k < |args| ==> WellFormed(args[k]) && Parenthesised(args[k])
  }

  /** On top of the function and its parenthesis the stack never fills while tokens are left. */
  predicate ArgumentsFit(args: seq<Expr>) {
    forall k :: 0 <= k < |args| ==> 2 + Peak(args[k]) < STACK_SIZE && 2 + |Spine(args[k])| < STACK_SIZE
  }

  lemma StepComma(e: Expr, out: string, stack: string)
    requires WellFormed(e)
    ensures Step(',', State(out + Emitted(e), stack + ['('] + Spine(e)))
         == Some(State(out + Postorder(e), stack + ['(']))
  {
    hide PopToParenthesis, IsFunction;
    NoParenthesisInSpine(e);
    PopsToParenthesis(out + Emitted(e), stack, Spine(e));
    EmittedThenSpine(e);
    assert out + Emitted(e) + Reversed(Spine(e)) == out + Postorder(e);
    CommaToken(State(out + Emitted(e), stack + ['('] + Spine(e)));
  }

  lemma CommaToken(s: State)
    ensures var t := PopToParenthesis(s); Step(',', s) == if t.stack == [] then None else Some(t)
  {
    hide PopToParenthesis;
  }

  lemma StepCall(f: char, e: Expr, out: string)
    requires WellFormed(e) && IsFunction(f)
    ensures Step(')', State(out + Emitted(e), [f] + ['('] + Spine(e))) == Some(State(out + Postorder(e) + [f], []))
  {
    hide Step, PopToParenthesis, IsFunction;
    CloseToken(State(out + Emitted(e), [f] + ['('] + Spine(e)));
    NoParenthesisInSpine(e);
    PopsToParenthesis(out + Emitted(e), [f], Spine(e));
    EmittedThenSpine(e);
    assert out + Emitted(e) + Reversed(Spine(e)) == out + Postorder(e);
    assert ([f] + ['('])[..1] == [f] && [f][..0] == [];
  }

  lemma {:induction false} ReadsArguments(f: char, args: seq<Expr>, out: string)
    requires IsFunction(f) && args != [] && AllWritten(args)
    ensures Run(Arguments(args), State(out, [f, '('])) ==
      if ArgumentsFit(args) then Some(State(out + Postorders(args) + [f], [])) else None
    decreases |args|
  {
    hide Step, Run, Emitted, Spine, Postorder, WellFormed, Parenthesised, IsFunction, Peak, Text;
    var e, s := args[0], State(out, [f, '(']);
    var rest := if |args| == 1 then [')'] else [','] + Arguments(args[1..]);
    RunSplit(Text(e), rest, s);
    ReadsExpr(e, s);
    if 2 + Peak(e) < STACK_SIZE {
      var m := State(out + Emitted(e), [f, '('] + Spine(e));
      assert [f] + ['('] == [f, '('];
      if |args| == 1 {
        RunToken(')', [], m);
        assert [')'] + [] == [')'];
        StepCall(f, e, out);
        RunNone(State(out + Postorder(e) + [f], []));
        assert args[1..] == [] && Postorders(args) == Postorder(e) + [] == Postorder(e);
        assert out + Postorder(e) + [f] == out + Postorders(args) + [f];
      } else {
        RunToken(',', Arguments(args[1..]), m);
        StepComma(e, out, [f]);
        ReadsArguments(f, args[1..], out + Postorder(e));
        assert out + Postorder(e) + Postorders(args[1..]) == out + Postorders(args);
        FitsByParts(args);
      }
    }
  }

  lemma RunNone(s: State)
    ensures Run([], s) == Some(s)
  {
  }

  lemma FitsByParts(args: seq<Expr>)
    requires |args| > 1
    ensures ArgumentsFit(args) <==>
      2 + Peak(args[0]) < STACK_SIZE && 2 + |Spine(args[0])| < STACK_SIZE && ArgumentsFit(args[1..])
  {
    hide Peak, Spine;
  }

  /** The arguments come out one after the other, each in postorder, and then the function. */
  lemma CallCompiles(f: char, args: seq<Expr>)
    requires IsFunction(f) && args != [] && AllWritten(args)
    ensures Yard([f] + (['('] + Arguments(args))) ==
      if ArgumentsFit(args) then Some(Postorders(args) + [f]) else None
  {
    hide Run, ArgumentsFit, Arguments, Postorders, AllWritten;
    var s := State([], []);
    RunToken(f, ['('] + Arguments(args), s);
    RunToken('(', Arguments(args), State([], [f]));
    assert s.stack + [f] == [f] && [f] + ['('] == [f, '('];
    ReadsArguments(f, args, []);
    assert [] + Postorders(args) + [f] == Postorders(args) + [f];
  }
}
