/** The two Reed-Solomon codes of a data sector: P over columns of 24 bytes, Q over
    diagonals of 43 bytes, each with two parity bytes. */
module ReedSolomon {
  import opened Gf256

  datatype Code = P | Q

  function DataLength(code: Code): nat {
    if code.P? then 24 else 43
  }

  // ----- The exponents of the parity equations -----

  function TableP0(i: nat): (e: nat)
    requires i < 24
    ensures e < 255
  {
    match i
    case 0 => 231 case 1 => 229 case 2 => 171 case 3 => 210 case 4 => 240 case 5 => 17 case 6 => 67 case 7 => 215
    case 8 => 43 case 9 => 120 case 10 => 8 case 11 => 199 case 12 => 74 case 13 => 102 case 14 => 220 case 15 => 251
    case 16 => 95 case 17 => 175 case 18 => 87 case 19 => 166 case 20 => 113 case 21 => 75 case 22 => 198 case _ => 25
  }

  function TableP1(i: nat): (e: nat)
    requires i < 24
    ensures e < 255
  {
    match i
    case 0 => 230 case 1 => 172 case 2 => 211 case 3 => 241 case 4 => 18 case 5 => 68 case 6 => 216 case 7 => 44
    case 8 => 121 case 9 => 9 case 10 => 200 case 11 => 75 case 12 => 103 case 13 => 221 case 14 => 252 case 15 => 96
    case 16 => 176 case 17 => 88 case 18 => 167 case 19 => 114 case 20 => 76 case 21 => 199 case 22 => 26 case _ => 1
  }

  function TableQ0(i: nat): (e: nat)
    requires i < 43
    ensures e < 255
  {
    match i
    case 0 => 190 case 1 => 96 case 2 => 250 case 3 => 132 case 4 => 59 case 5 => 81 case 6 => 159 case 7 => 154
    case 8 => 200 case 9 => 7 case 10 => 111 case 11 => 245 case 12 => 10 case 13 => 20 case 14 => 41 case 15 => 156
    case 16 => 168 case 17 => 79 case 18 => 173 case 19 => 231
    case 20 => 229 case 21 => 171 case 22 => 210 case 23 => 240
    case 24 => 17 case 25 => 67 case 26 => 215 case 27 => 43 case 28 => 120 case 29 => 8 case 30 => 199 case 31 => 74
    case 32 => 102 case 33 => 220 case 34 => 251 case 35 => 95
    case 36 => 175 case 37 => 87 case 38 => 166 case 39 => 113
    case 40 => 75 case 41 => 198 case _ => 25
  }

  function TableQ1(i: nat): (e: nat)
    requires i < 43
    ensures e < 255
  {
    match i
    case 0 => 97 case 1 => 251 case 2 => 133 case 3 => 60 case 4 => 82 case 5 => 160 case 6 => 155 case 7 => 201
    case 8 => 8 case 9 => 112 case 10 => 246 case 11 => 11 case 12 => 21 case 13 => 42 case 14 => 157 case 15 => 169
    case 16 => 80 case 17 => 174 case 18 => 232 case 19 => 230
    case 20 => 172 case 21 => 211 case 22 => 241 case 23 => 18
    case 24 => 68 case 25 => 216 case 26 => 44 case 27 => 121 case 28 => 9 case 29 => 200 case 30 => 75 case 31 => 103
    case 32 => 221 case 33 => 252 case 34 => 96 case 35 => 176 case 36 => 88 case 37 => 167 case 38 => 114 case 39 => 76
    case 40 => 199 case 41 => 26 case _ => 1
  }

  function Exponent(code: Code, row: nat, i: nat): (e: nat)
    requires row < 2 && i < DataLength(code)
    ensures e < 255
  {
    match code
    case P => if row == 0 then TableP0(i) else TableP1(i)
    case Q => if row == 0 then TableQ0(i) else TableQ1(i)
  }

  /** The P tables are the last 24 columns of the Q tables. */
  lemma PIsTailOfQ(row: nat, i: nat)
    requires row < 2 && i < 24
    ensures Exponent(P, row, i) == Exponent(Q, row, i + 19)
  {
  }

  // ----- The equations hold column by column -----

  /** Column i of the parity check: the data byte and its two parity contributions
      cancel in both rows. */
  predicate Solves(i: nat, e0: nat, e1: nat)
    requires i < 43 && e0 < 255 && e1 < 255
  {
    && Add(Add(1, Alog(e0)), Alog(e1)) == 0
    && Add(Add(Alog(44 - i), TimesX(Alog(e0))), Alog(e1)) == 0
  }

  lemma Column0(i: nat)
    requires 0 <= i < 3
    ensures Solves(i, TableQ0(i), TableQ1(i))
  {
  }

  lemma Column3(i: nat)
    requires 3 <= i < 6
    ensures Solves(i, TableQ0(i), TableQ1(i))
  {
  }

  lemma Column6(i: nat)
    requires 6 <= i < 9
    ensures Solves(i, TableQ0(i), TableQ1(i))
  {
  }

  lemma Column9(i: nat)
    requires 9 <= i < 12
    ensures Solves(i, TableQ0(i), TableQ1(i))
  {
  }

  lemma Column12(i: nat)
    requires 12 <= i < 15
    ensures Solves(i, TableQ0(i), TableQ1(i))
  {
  }

  lemma Column15(i: nat)
    requires 15 <= i < 18
    ensures Solves(i, TableQ0(i), TableQ1(i))
  {
  }

  lemma Column18(i: nat)
    requires 18 <= i < 21
    ensures Solves(i, TableQ0(i), TableQ1(i))
  {
  }

  lemma Column21(i: nat)
    requires 21 <= i < 24
    ensures Solves(i, TableQ0(i), TableQ1(i))
  {
  }

  lemma Column24(i: nat)
    requires 24 <= i < 27
    ensures Solves(i, TableQ0(i), TableQ1(i))
  {
  }

  lemma Column27(i: nat)
    requires 27 <= i < 30
    ensures Solves(i, TableQ0(i), TableQ1(i))
  {
  }

  lemma Column30(i: nat)
    requires 30 <= i < 33
    ensures Solves(i, TableQ0(i), TableQ1(i))
  {
  }

  lemma Column33(i: nat)
    requires 33 <= i < 36
    ensures Solves(i, TableQ0(i), TableQ1(i))
  {
  }

  lemma Column36(i: nat)
    requires 36 <= i < 39
    ensures Solves(i, TableQ0(i), TableQ1(i))
  {
  }

  lemma Column39(i: nat)
    requires 39 <= i < 42
    ensures Solves(i, TableQ0(i), TableQ1(i))
  {
  }

  lemma Column42(i: nat)
    requires 42 <= i < 43
    ensures Solves(i, TableQ0(i), TableQ1(i))
  {
  }

  lemma ColumnsSolve(i: nat)
    requires i < 43
    ensures Solves(i, TableQ0(i), TableQ1(i))
  {
    hide Solves, TableQ0, TableQ1;
    if i < 3 { Column0(i); }
    else if i < 6 { Column3(i); }
    else if i < 9 { Column6(i); }
    else if i < 12 { Column9(i); }
    else if i < 15 { Column12(i); }
    else if i < 18 { Column15(i); }
    else if i < 21 { Column18(i); }
    else if i < 24 { Column21(i); }
    else if i < 27 { Column24(i); }
    else if i < 30 { Column27(i); }
    else if i < 33 { Column30(i); }
    else if i < 36 { Column33(i); }
    else if i < 39 { Column36(i); }
    else if i < 42 { Column39(i); }
    else { Column42(i); }
  }

  // ----- Parity and syndromes -----

  /** What the first n data bytes contribute to a parity byte. */
  function ParityUpTo(code: Code, row: nat, data: seq<Byte>, n: nat): Byte
    requires row < 2 && n <= |data| == DataLength(code)
  {
    if n == 0 then 0 else Add(ParityUpTo(code, row, data, n - 1), Times(data[n - 1], Exponent(code, row, n - 1)))
  }

  function Parity(code: Code, row: nat, data: seq<Byte>): Byte
    requires row < 2 && |data| == DataLength(code)
  {
    ParityUpTo(code, row, data, |data|)
  }

  /** The sum of the first n bytes of a word. */
  function PlainSum(word: seq<Byte>, n: nat): Byte
    requires n <= |word|
  {
    if n == 0 then 0 else Add(PlainSum(word, n - 1), word[n - 1])
  }

  /** The sum of the first n bytes, each times x to its distance from the end. */
  function WeightedSum(word: seq<Byte>, n: nat): Byte
    requires n <= |word|
  {
    if n == 0 then 0 else Add(WeightedSum(word, n - 1), Times(word[n - 1], |word| - n))
  }

  function Syndrome0(word: seq<Byte>): Byte {
    PlainSum(word, |word|)
  }

  function Syndrome1(word: seq<Byte>): Byte {
    WeightedSum(word, |word|)
  }

  /** A codeword: both rows of the parity check give zero. */
  predicate Codeword(word: seq<Byte>) {
    Syndrome0(word) == 0 && Syndrome1(word) == 0
  }

  // ----- Three terms that cancel still cancel after a product -----

  lemma ThreeTerms(d: Byte, a: nat, b: nat, c: nat)
    requires Add(Add(Power(a), Power(b)), Power(c)) == 0
    ensures Add(Add(Times(d, a), Times(d, b)), Times(d, c)) == 0
  {
    hide TimesX, Add, Alog, Log;
    if d == 0 {
      TimesOfZero(a);
      TimesOfZero(b);
      TimesOfZero(c);
      ZeroSum();
    } else {
      AlogOfLog(d);
      var log := Log(d);
      AlogIsPower(log);
      TimesCommutes(log, a);
      TimesCommutes(log, b);
      TimesCommutes(log, c);
      TimesOfSum(Add(Power(a), Power(b)), Power(c), log);
      TimesOfSum(Power(a), Power(b), log);
      TimesOfZero(log);
    }
  }

  lemma ZeroSum()
    ensures Add(Add(0, 0), 0) == 0
  {
  }

  lemma TimesCommutes(j: nat, k: nat)
    ensures Times(Power(j), k) == Times(Power(k), j)
  {
    hide TimesX;
    TimesTwice(1, j, k);
    TimesTwice(1, k, j);
  }

  /** Both rows of the parity check for one data byte. */
  lemma ByteCancels(code: Code, d: Byte, i: nat)
    requires i < DataLength(code)
    ensures Add(Add(d, Times(d, Exponent(code, 0, i))), Times(d, Exponent(code, 1, i))) == 0
    ensures Add(Add(Times(d, DataLength(code) + 1 - i), TimesX(Times(d, Exponent(code, 0, i)))),
                Times(d, Exponent(code, 1, i))) == 0
  {
    var c := if code.P? then i + 19 else i;
    var e0, e1 := Exponent(code, 0, i), Exponent(code, 1, i);
    assert e0 == TableQ0(c) && e1 == TableQ1(c) by {
      if code.P? {
        PIsTailOfQ(0, i);
        PIsTailOfQ(1, i);
      }
    }
    assert DataLength(code) + 1 - i == 44 - c;
    hide Exponent, TableQ0, TableQ1, TimesX, Add, Alog;
    ColumnsSolve(c);
    AlogIsPower(e0);
    AlogIsPower(e1);
    AlogIsPower(44 - c);
    ThreeTerms(d, 0, e0, e1);
    ThreeTerms(d, 44 - c, e0 + 1, e1);
  }

  lemma Move(a: Byte, b: Byte, c: Byte)
    ensures Add(Add(a, b), c) == Add(a, Add(b, c))
  {
  }

  lemma Swap(a: Byte, b: Byte)
    ensures Add(a, b) == Add(b, a)
  {
  }

  lemma FromNothing(e: Byte)
    ensures Add(0, e) == e
  {
  }

  lemma Equal(a: Byte, b: Byte)
    ensures Add(a, b) == 0 <==> a == b
  {
  }

  lemma Exchange(a: Byte, b: Byte, c: Byte, d: Byte)
    ensures Add(Add(a, b), Add(c, d)) == Add(Add(a, c), Add(b, d))
  {
    hide Add;
    Move(a, b, Add(c, d));
    Move(b, c, d);
    Swap(b, c);
    Move(c, b, d);
    Move(a, c, Add(b, d));
  }

  lemma SumsCancel(u: Byte, v: Byte, w: Byte, a: Byte, b: Byte, c: Byte)
    requires Add(Add(u, v), w) == 0 && Add(Add(a, b), c) == 0
    ensures Add(Add(Add(u, a), Add(v, b)), Add(w, c)) == 0
  {
    hide Add;
    Exchange(u, a, v, b);
    Exchange(Add(u, v), Add(a, b), w, c);
    FromNothing(0);
  }

  lemma NothingShifted()
    ensures TimesX(0) == 0
  {
  }

  /** After any number of data bytes, the sums so far and the parity so far cancel. */
  lemma {:induction false} SumsSoFar(code: Code, word: seq<Byte>, n: nat)
    requires n <= DataLength(code) && |word| == DataLength(code) + 2
    ensures var data := word[..DataLength(code)];
            && Add(Add(PlainSum(word, n), ParityUpTo(code, 0, data, n)), ParityUpTo(code, 1, data, n)) == 0
            && Add(Add(WeightedSum(word, n), TimesX(ParityUpTo(code, 0, data, n))), ParityUpTo(code, 1, data, n)) == 0
  {
    hide TimesX, Add, Exponent, Times;
    var data := word[..DataLength(code)];
    if n == 0 {
      FromNothing(0);
      NothingShifted();
    } else {
      SumsSoFar(code, word, n - 1);
      var d := data[n - 1];
      var a, b := Times(d, Exponent(code, 0, n - 1)), Times(d, Exponent(code, 1, n - 1));
      var p, q := ParityUpTo(code, 0, data, n - 1), ParityUpTo(code, 1, data, n - 1);
      ByteCancels(code, d, n - 1);
      SumsCancel(PlainSum(word, n - 1), p, q, d, a, b);
      SumsCancel(WeightedSum(word, n - 1), TimesX(p), q, Times(d, |word| - n), TimesX(a), b);
      TimesXOfSum(p, a);
    }
  }

  lemma LastTwo(word: seq<Byte>)
    requires 2 <= |word|
    ensures var n := |word| - 2;
            && Syndrome0(word) == Add(Add(PlainSum(word, n), word[n]), word[n + 1])
            && Syndrome1(word) == Add(Add(WeightedSum(word, n), TimesX(word[n])), word[n + 1])
  {
    hide TimesX, Add;
    var n := |word| - 2;
    assert PlainSum(word, n + 1) == Add(PlainSum(word, n), word[n]);
    assert WeightedSum(word, n + 1) == Add(WeightedSum(word, n), Times(word[n], 1));
    assert Times(word[n], 1) == TimesX(word[n]) && Times(word[n + 1], 0) == word[n + 1];
  }

  lemma FixedByTimesX(a: Byte)
    requires TimesX(a) == a
    ensures a == 0
  {
  }

  lemma DifferenceOfSums(s: Byte, p: Byte, u: Byte)
    ensures Add(Add(s, p), Add(s, u)) == Add(p, u)
  {
    hide Add;
    Exchange(s, p, s, u);
    Equal(s, s);
    FromNothing(Add(p, u));
  }

  /** The two parity equations have one solution. */
  lemma SameEquations(s: Byte, t: Byte, p: Byte, q: Byte, u: Byte, v: Byte)
    requires Add(Add(s, p), q) == 0 && Add(Add(t, TimesX(p)), q) == 0
    requires Add(Add(s, u), v) == 0 && Add(Add(t, TimesX(u)), v) == 0
    ensures p == u && q == v
  {
    hide TimesX, Add;
    Equal(Add(s, p), q);
    Equal(Add(t, TimesX(p)), q);
    Equal(Add(s, u), v);
    Equal(Add(t, TimesX(u)), v);
    DifferenceOfSums(s, p, u);
    DifferenceOfSums(t, TimesX(p), TimesX(u));
    TimesXOfSum(p, u);
    FixedByTimesX(Add(p, u));
    Equal(p, u);
  }

  /** A word is a codeword exactly when its last two bytes are the parity of the rest. */
  lemma CodewordIffParity(code: Code, word: seq<Byte>)
    requires |word| == DataLength(code) + 2
    ensures var n := DataLength(code);
            Codeword(word) <==> word[n] == Parity(code, 0, word[..n]) && word[n + 1] == Parity(code, 1, word[..n])
  {
    hide TimesX, Add, ParityUpTo;
    var n := DataLength(code);
    var s, t := PlainSum(word, n), WeightedSum(word, n);
    var p, q := Parity(code, 0, word[..n]), Parity(code, 1, word[..n]);
    SumsSoFar(code, word, n);
    LastTwo(word);
    if Codeword(word) {
      SameEquations(s, t, p, q, word[n], word[n + 1]);
    }
  }

  // ----- One damaged byte -----

  lemma {:induction false} DamageInPlainSum(word: seq<Byte>, i: nat, e: Byte, n: nat)
    requires i < |word| && n <= |word|
    ensures var damaged := word[i := Add(word[i], e)];
            PlainSum(damaged, n) == if i < n then Add(PlainSum(word, n), e) else PlainSum(word, n)
  {
    hide Add;
    if n == 0 {
    } else {
      DamageInPlainSum(word, i, e, n - 1);
      var w := PlainSum(word, n - 1);
      if i == n - 1 {
        Move(w, word[i], e);
      } else if i < n - 1 {
        LaterTerm(w, e, word[n - 1]);
      }
    }
  }

  lemma {:induction false} DamageInWeightedSum(word: seq<Byte>, i: nat, e: Byte, n: nat)
    requires i < |word| && n <= |word|
    ensures var damaged := word[i := Add(word[i], e)];
            WeightedSum(damaged, n) == if i < n then Add(WeightedSum(word, n), Times(e, |word| - 1 - i))
                                       else WeightedSum(word, n)
  {
    hide Add, Times;
    if n == 0 {
    } else {
      DamageInWeightedSum(word, i, e, n - 1);
      var w := WeightedSum(word, n - 1);
      var x, y := Times(e, |word| - 1 - i), Times(word[n - 1], |word| - n);
      if i == n - 1 {
        TimesOfSum(word[i], e, |word| - n);
        Move(w, y, x);
      } else if i < n - 1 {
        LaterTerm(w, x, y);
      }
    }
  }

  lemma LaterTerm(w: Byte, x: Byte, y: Byte)
    ensures Add(Add(w, x), y) == Add(Add(w, y), x)
  {
    hide Add;
    Move(w, x, y);
    Swap(x, y);
    Move(w, y, x);
  }

  /** The syndromes of a codeword with byte i damaged by e. */
  lemma DamagedSyndromes(word: seq<Byte>, i: nat, e: Byte)
    requires i < |word| && Codeword(word)
    ensures var damaged := word[i := Add(word[i], e)];
            Syndrome0(damaged) == e && Syndrome1(damaged) == Times(e, |word| - 1 - i)
  {
    hide Add, Times;
    DamageInPlainSum(word, i, e, |word|);
    DamageInWeightedSum(word, i, e, |word|);
    FromNothing(e);
    FromNothing(Times(e, |word| - 1 - i));
  }

  /** A damaged byte shows, and its syndromes name it: damage with the same syndromes,
      even to another codeword, sits at the same place and has the same value. */
  lemma SingleDamageLocated(word: seq<Byte>, i: nat, e: Byte, other: seq<Byte>, j: nat, f: Byte)
    requires |word| == |other| <= 255 && Codeword(word) && Codeword(other)
    requires i < |word| && j < |word| && e != 0
    ensures var damaged, otherDamaged := word[i := Add(word[i], e)], other[j := Add(other[j], f)];
            && !Codeword(damaged)
            && (Syndrome0(damaged) == Syndrome0(otherDamaged) && Syndrome1(damaged) == Syndrome1(otherDamaged)
                <==> i == j && e == f)
  {
    hide Add, TimesX, Syndrome0, Syndrome1;
    DamagedSyndromes(word, i, e);
    DamagedSyndromes(other, j, f);
    if e == f && Times(e, |word| - 1 - i) == Times(e, |word| - 1 - j) {
      if i < j {
        SamePlace(e, |word| - 1 - j, |word| - 1 - i);
      } else if j < i {
        SamePlace(e, |word| - 1 - i, |word| - 1 - j);
      }
    }
  }

  lemma SamePlace(e: Byte, a: nat, b: nat)
    requires e != 0 && a < b < 255
    ensures Times(e, a) != Times(e, b)
  {
    hide TimesX, Alog, Log, Times;
    AlogOfLog(e);
    AlogIsPower(Log(e));
    TimesCommutes(Log(e), a);
    TimesCommutes(Log(e), b);
    PowersDiffer(a, b);
    if Times(e, a) == Times(e, b) {
      TimesIsInjective(Power(a), Power(b), Log(e));
    }
  }
}
