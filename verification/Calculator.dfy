/** The formula calculator: infix text to reverse Polish text by an operator stack, then
    evaluation of the reverse Polish text by a value stack. */
module Calculator {
  import opened Options

  const STACK_SIZE := 32

  // ----- Tokens -----

  function Precedence(c: char): int {
    match c
    case '!' => 4
    case '*' | '/' | '\\' | '%' | '|' | '&' | '^' => 3
    case '+' | '-' => 2
    case '=' | '@' | '>' | '<' => 1
    case ':' => -1
    case '?' => -2
    case _ => 0
  }

  predicate LeftAssociative(c: char) {
    match c
    case '*' | '/' | '%' | '+' | '-' | '|' | '&' | '^' => true
    case _ => false
  }

  predicate IsOperator(c: char) {
    match c
    case '+' | '-' | '/' | '*' | '!' | '%' | '=' | '|' | '&' | '^' | '@' | '>' | '<' | '?' | ':' => true
    case _ => false
  }

  predicate IsFunction(c: char) {
    'A' <= c <= 'Z'
  }

  predicate IsIdent(c: char) {
    '0' <= c <= '9' || 'a' <= c <= 'z'
  }

  function ArgCount(c: char): (n: nat)
    requires IsOperator(c) || IsFunction(c)
    ensures n <= 25
  {
    if IsFunction(c) then c as int - 'A' as int
    else match c
      case '?' => 3
      case '!' | ':' => 1
      case _ => 2
  }

  /** Whether operator c, arriving, sends operator top to the output first. */
  predicate Pops(c: char, top: char) {
    IsOperator(top) && if LeftAssociative(c) then Precedence(c) <= Precedence(top) else Precedence(c) < Precedence(top)
  }

  // ----- Infix to reverse Polish -----

  /** Output so far and operator stack, top last. */
  datatype State = State(out: string, stack: string)

  function Top(s: string): char
    requires s != []
  {
    s[|s| - 1]
  }

  function Pop(s: State): State
    requires s.stack != []
  {
    State(s.out + [Top(s.stack)], s.stack[..|s.stack| - 1])
  }

  function Push(s: State, c: char): State {
    State(s.out, s.stack + [c])
  }

  function PopOperators(c: char, s: State): (r: State)
    ensures |r.out| + |r.stack| == |s.out| + |s.stack| && r.stack <= s.stack
    decreases |s.stack|
  {
    if s.stack != [] && Pops(c, Top(s.stack)) then PopOperators(c, Pop(s)) else s
  }

  function PopToParenthesis(s: State): (r: State)
    ensures |r.out| + |r.stack| == |s.out| + |s.stack| && r.stack <= s.stack
    decreases |s.stack|
  {
    if s.stack != [] && Top(s.stack) != '(' then PopToParenthesis(Pop(s)) else s
  }

  /** Drops the parenthesis just closed, and sends a function before it to the output. */
  function Close(s: State): State
    requires s.stack != []
  {
    var t := State(s.out, s.stack[..|s.stack| - 1]);
    if t.stack != [] && IsFunction(Top(t.stack)) then Pop(t) else t
  }

  function Step(c: char, s: State): Option<State> {
    if c == ' ' then Some(s)
    else if IsIdent(c) then Some(State(s.out + [c], s.stack))
    else if IsFunction(c) then Some(Push(s, c))
    else if c == ',' then
      var t := PopToParenthesis(s);
      if t.stack == [] then None else Some(t)
    else if IsOperator(c) then Some(Push(PopOperators(c, s), c))
    else if c == '(' then Some(Push(s, c))
    else if c == ')' then
      var t := PopToParenthesis(s);
      if t.stack == [] then None else Some(Close(t))
    else None
  }

  /** All tokens; a full operator stack is an error as long as input is left. */
  function Run(input: string, s: State): Option<State> {
    if input == [] then Some(s)
    else if |s.stack| >= STACK_SIZE then None
    else
      var t := Step(input[0], s);
      if t.None? then None else Run(input[1..], t.value)
  }

  function Flush(s: State): Option<string>
    decreases |s.stack|
  {
    if s.stack == [] then Some(s.out)
    else if Top(s.stack) == '(' || Top(s.stack) == ')' then None
    else Flush(Pop(s))
  }

  function Yard(input: string): Option<string> {
    var s := Run(input, State([], []));
    if s.None? then None else Flush(s.value)
  }

  // ----- Bounds -----

  lemma StepBounds(c: char, s: State)
    requires Step(c, s).Some?
    ensures var t := Step(c, s).value;
            |t.out| + |t.stack| <= |s.out| + |s.stack| + 1 && |t.stack| <= |s.stack| + 1
  {
  }

  /** Output and stack together never outgrow the input read, and the stack never
      outgrows its array. */
  lemma {:induction false} RunBounds(input: string, s: State)
    requires |s.stack| <= STACK_SIZE && Run(input, s).Some?
    ensures var t := Run(input, s).value;
            |t.out| + |t.stack| <= |s.out| + |s.stack| + |input| && |t.stack| <= STACK_SIZE
  {
    if input == [] {
    } else {
      StepBounds(input[0], s);
      RunBounds(input[1..], Step(input[0], s).value);
    }
  }

  lemma {:induction false} FlushBounds(s: State)
    requires Flush(s).Some?
    ensures |Flush(s).value| == |s.out| + |s.stack|
    decreases |s.stack|
  {
    if s.stack == [] {
    } else {
      FlushBounds(Pop(s));
    }
  }

  /** The reverse Polish text is never longer than the formula. */
  lemma OutputFits(input: string)
    requires Yard(input).Some?
    ensures |Yard(input).value| <= |input|
  {
    RunBounds(input, State([], []));
    FlushBounds(Run(input, State([], [])).value);
  }

  // ----- Evaluation -----

  /** What the machine needs from numbers: the value of an operand token, one arithmetic
      operation (None where the operator has none), zero, and the test of a ternary. */
  datatype Arithmetic<!V> = Arithmetic(operand: char -> V, calculate: (char, V, V) -> Option<V>, zero: V,
                                       truth: V -> bool)

  /** A stack entry: a token not yet looked up, or a value. The value field of a token
      entry is whatever was left there. */
  datatype Entry<V> = Entry(token: Option<char>, val: V)

  function ValueOf<V>(a: Arithmetic<V>, e: Entry<V>): V {
    if e.token.Some? then a.operand(e.token.value) else e.val
  }

  /** The entries, how many are in use, and the last result. */
  datatype Machine<V> = Machine(stack: seq<Entry<V>>, sl: nat, val: V)

  predicate Fits<V>(m: Machine<V>) {
    m.sl <= STACK_SIZE == |m.stack|
  }

  function PushToken<V>(m: Machine<V>, c: char): Machine<V>
    requires m.sl < |m.stack|
  {
    m.(stack := m.stack[m.sl := m.stack[m.sl].(token := Some(c))], sl := m.sl + 1)
  }

  function PushResult<V>(m: Machine<V>, down: nat, val: V): Machine<V>
    requires down <= m.sl && m.sl - down < |m.stack|
  {
    Machine(m.stack[m.sl - down := Entry(None, val)], m.sl - down + 1, val)
  }

  /** The result of an operator or function on the top entries. */
  function Result<V>(a: Arithmetic<V>, m: Machine<V>, c: char): V
    requires IsOperator(c) || IsFunction(c)
    requires ArgCount(c) <= m.sl <= |m.stack|
  {
    if IsFunction(c) then m.val
    else if ArgCount(c) == 1 then
      var v := a.calculate(c, ValueOf(a, m.stack[m.sl - 1]), m.val);
      if v.None? then m.val else v.value
    else if ArgCount(c) == 2 then
      var v := a.calculate(c, ValueOf(a, m.stack[m.sl - 2]), ValueOf(a, m.stack[m.sl - 1]));
      if v.None? then a.zero else v.value
    else if ArgCount(c) == 3 then
      ValueOf(a, if a.truth(m.stack[m.sl - 3].val) then m.stack[m.sl - 2] else m.stack[m.sl - 1])
    else m.val
  }

  function ExecuteStep<V>(a: Arithmetic<V>, c: char, m: Machine<V>): (r: Option<Machine<V>>)
    requires Fits(m) && m.sl < STACK_SIZE
    ensures r.Some? ==> Fits(r.value)
  {
    if IsIdent(c) then Some(PushToken(m, c))
    else if IsOperator(c) || IsFunction(c) then
      if m.sl < ArgCount(c) then None else Some(PushResult(m, ArgCount(c), Result(a, m, c)))
    else Some(m)
  }

  function Execute<V>(a: Arithmetic<V>, input: string, m: Machine<V>): (r: Option<Machine<V>>)
    requires Fits(m)
    ensures r.Some? ==> Fits(r.value)
    decreases |input|
  {
    if input == [] then Some(m)
    else if m.sl >= STACK_SIZE then None
    else
      var t := ExecuteStep(a, input[0], m);
      if t.None? then None else Execute(a, input[1..], t.value)
  }

  function Cleared<V>(a: Arithmetic<V>): (m: Machine<V>)
    ensures Fits(m)
  {
    Machine(seq(STACK_SIZE, i => Entry(None, a.zero)), 0, a.zero)
  }

  /** The value of a reverse Polish text: the last result, if one entry is left. */
  function Evaluate<V>(a: Arithmetic<V>, input: string): Option<V> {
    var m := Execute(a, input, Cleared(a));
    if m.Some? && m.value.sl == 1 then Some(m.value.val) else None
  }
}
