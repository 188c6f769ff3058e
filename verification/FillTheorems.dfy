/** Area fill as the blits do it: what a row becomes, and what it takes for the missing
    reset of the fill carry not to show in a blit without sources. */
module FillTheorems {
  import opened ChipMemory
  import opened DataPath
  import opened Counting
  import opened BlitSpec
  import opened FillProof

  // ----- One row of any fill blit -----

  /** The destination word before it is filled. */
  function Unfilled(job: Job, r: Regs, column: int): Word {
    Minterm(job.minterm, Low(Shifter(job.descending, job.ashift, r.aold, MaskA(job, column, r.adat))), r.bhold, r.cdat)
  }

  /** Word k before it is filled. */
  function RawWord(job: Job, rowReset: bool, s: Serial, k: nat): Word
    requires job.Valid()
  {
    var now := Serially(job, rowReset, s, k);
    Unfilled(job, Fetch(job, job.useA, job.useB, job.useC, now.regs, now.memory, k), k % job.h)
  }

  /** Word k as it is stored. */
  function OutWord(job: Job, rowReset: bool, s: Serial, k: nat): Word
    requires job.Valid()
  {
    Serially(job, rowReset, s, k + 1).out
  }

  /** The fill carry with which word k begins. */
  function Carry(job: Job, rowReset: bool, s: Serial, k: nat): bool
    requires job.Valid()
  {
    Serially(job, rowReset, s, k).regs.fc
  }

  lemma WordFills(job: Job, rowReset: bool, s: Serial, k: nat)
    requires job.Valid() && job.fill
    ensures var (out, c) := FillWord(job.inclusive, Carry(job, rowReset, s, k), RawWord(job, rowReset, s, k));
            && OutWord(job, rowReset, s, k) == out
            && Carry(job, rowReset, s, k + 1) == if rowReset && k % job.h == job.h - 1 then job.carryIn else c
  {
    hide FillWord, Minterm, Low, Shifter, MaskA, Pointer, Get, Put;
    assert Serially(job, rowReset, s, k + 1) == WordStep(job, rowReset, Serially(job, rowReset, s, k), k);
  }

  lemma {:induction false} RowBegins(job: Job, s: Serial, j: nat)
    requires job.Valid() && job.fill && s.regs.fc == job.carryIn
    ensures Carry(job, true, s, j * job.h) == job.carryIn
  {
    hide WordStep, FillWord, RawWord;
    if j == 0 {
      assert Serially(job, true, s, 0) == s;
    } else {
      var last := j * job.h - 1;
      assert j * job.h == (j - 1) * job.h + job.h;
      assert last == (j - 1) * job.h + (job.h - 1);
      QuotientIsUnique(last, job.h, j - 1, job.h - 1);
      WordFills(job, true, s, last);
    }
  }

  function RawRow(job: Job, s: Serial, j: nat): (row: seq<Word>)
    requires job.Valid()
    ensures |row| == job.h
  {
    seq(job.h, i requires 0 <= i < job.h => RawWord(job, true, s, j * job.h + i))
  }

  function OutRow(job: Job, s: Serial, j: nat): (row: seq<Word>)
    requires job.Valid()
    ensures |row| == job.h
  {
    seq(job.h, i requires 0 <= i < job.h => OutWord(job, true, s, j * job.h + i))
  }

  lemma {:induction false} RowFillsFrom(job: Job, s: Serial, j: nat, i: nat)
    requires job.Valid() && job.fill && i <= job.h
    ensures FillRow(job.inclusive, Carry(job, true, s, j * job.h + i), RawRow(job, s, j)[i..]).0
         == OutRow(job, s, j)[i..]
    decreases job.h - i
  {
    hide FillWord, RawWord, OutWord, Carry;
    var raw, out := RawRow(job, s, j), OutRow(job, s, j);
    if i < job.h {
      var k := j * job.h + i;
      WordFills(job, true, s, k);
      RowFillsFrom(job, s, j, i + 1);
      QuotientIsUnique(k, job.h, j, i);
      assert raw[i..][1..] == raw[i + 1..] && out[i..] == [out[i]] + out[i + 1..];
    }
  }

  /** Every row of a fill blit, whatever its sources, is the bit-serial fill of the row's
      words from its own start. */
  lemma RowIsFilled(job: Job, s: Serial, j: nat)
    requires job.Valid() && job.fill && s.regs.fc == job.carryIn
    ensures RowBits(OutRow(job, s, j)) == FillBits(job.inclusive, job.carryIn, RowBits(RawRow(job, s, j))).0
  {
    hide FillBits, FillRow, RawRow, OutRow;
    RowBegins(job, s, j);
    RowFillsFrom(job, s, j, 0);
    assert RawRow(job, s, j)[0..] == RawRow(job, s, j) && OutRow(job, s, j)[0..] == OutRow(job, s, j);
    FillRowIsFillBits(job.inclusive, job.carryIn, RawRow(job, s, j));
  }

  // ----- Blits without sources -----

  /** Without sources a word comes from the registers alone: the masked A word of its column
      and of the column before it, and B and C. */
  function PlainWord(job: Job, r: Regs, k: nat): Word
    requires job.h > 0
  {
    Unfilled(job, if k == 0 then r else r.(aold := MaskA(job, (k - 1) % job.h, r.adat)), k % job.h)
  }

  lemma {:induction false} RegistersStay(job: Job, rowReset: bool, s: Serial, k: nat)
    requires job.Valid() && job.Sources() == 0
    ensures var r := Serially(job, rowReset, s, k).regs;
            r == s.regs.(aold := if k == 0 then s.regs.aold else MaskA(job, (k - 1) % job.h, s.regs.adat),
                         fc := r.fc, zero := r.zero)
  {
    hide MaskA, Minterm, Low, Shifter, FillWord, Store;
    if k == 0 {
      assert Serially(job, rowReset, s, 0) == s;
    } else {
      RegistersStay(job, rowReset, s, k - 1);
      assert Serially(job, rowReset, s, k) == WordStep(job, rowReset, Serially(job, rowReset, s, k - 1), k - 1);
    }
  }

  lemma RawIsPlain(job: Job, rowReset: bool, s: Serial, k: nat)
    requires job.Valid() && job.Sources() == 0
    ensures RawWord(job, rowReset, s, k) == PlainWord(job, s.regs, k)
  {
    hide MaskA, Minterm, Low, Shifter, Serially;
    RegistersStay(job, rowReset, s, k);
  }

  predicate OddWord(w: Word) {
    Parity(WordBits(w), 16)
  }

  lemma WordCarry(inclusive: bool, carry: bool, w: Word)
    ensures FillWord(inclusive, carry, w).1 == (carry != OddWord(w))
  {
    hide FillWord, WordBits, FillBits, Parity;
    FillWordIsFillBits(inclusive, carry, w);
    FillCarry(inclusive, carry, WordBits(w));
  }

  /** Whether the first k words have an odd number of set bits. */
  predicate OddBefore(job: Job, r: Regs, k: nat)
    requires job.h > 0
  {
    if k == 0 then false else OddBefore(job, r, k - 1) != OddWord(PlainWord(job, r, k - 1))
  }

  /** The same, of those in the row of word k. */
  predicate OddInRow(job: Job, r: Regs, k: nat)
    requires job.h > 0
  {
    if k % job.h == 0 then false else OddInRow(job, r, k - 1) != OddWord(PlainWord(job, r, k - 1))
  }

  lemma {:induction false} CarryOverAll(job: Job, s: Serial, k: nat)
    requires job.Valid() && job.fill && job.Sources() == 0 && s.regs.fc == job.carryIn
    ensures Carry(job, false, s, k) == (job.carryIn != OddBefore(job, s.regs, k))
  {
    hide FillWord, OddWord, PlainWord, RawWord, WordStep;
    if k == 0 {
      assert Serially(job, false, s, 0) == s;
    } else {
      CarryOverAll(job, s, k - 1);
      WordFills(job, false, s, k - 1);
      RawIsPlain(job, false, s, k - 1);
      WordCarry(job.inclusive, Carry(job, false, s, k - 1), PlainWord(job, s.regs, k - 1));
    }
  }

  lemma {:induction false} CarryInRow(job: Job, s: Serial, k: nat)
    requires job.Valid() && job.fill && job.Sources() == 0 && s.regs.fc == job.carryIn
    ensures Carry(job, true, s, k) == (job.carryIn != OddInRow(job, s.regs, k))
  {
    hide FillWord, OddWord, PlainWord, RawWord, WordStep;
    if k == 0 {
      assert Serially(job, true, s, 0) == s && 0 % job.h == 0;
    } else {
      CarryInRow(job, s, k - 1);
      WordFills(job, true, s, k - 1);
      RawIsPlain(job, true, s, k - 1);
      WordCarry(job.inclusive, Carry(job, true, s, k - 1), PlainWord(job, s.regs, k - 1));
      NextWord(k - 1, job.h);
    }
  }

  predicate AllSet(b: seq<bool>)
    requires |b| == 16
  {
    && b[0] && b[1] && b[2] && b[3] && b[4] && b[5] && b[6] && b[7]
    && b[8] && b[9] && b[10] && b[11] && b[12] && b[13] && b[14] && b[15]
  }

  lemma OnesByBits(w: Word)
    ensures AllSet(WordBits(w)) <==> w == 0xFFFF
  {
  }

  lemma BitsOfOnes(w: Word)
    ensures (forall n :: 0 <= n < 16 ==> WordBits(w)[n]) <==> w == 0xFFFF
  {
    hide WordBits;
    OnesByBits(w);
  }

  lemma WordOfBytes(w: Word)
    ensures JoinBytes(LowByte(w), HighByte(w)) == w
  {
  }

  lemma BitsToWord(w: Word)
    ensures JoinBytes(PackByte(WordBits(w)[..8]), PackByte(WordBits(w)[8..])) == w
  {
    hide ByteBits, LowByte, HighByte, JoinBytes, PackByte;
    assert WordBits(w)[..8] == ByteBits(LowByte(w)) && WordBits(w)[8..] == ByteBits(HighByte(w));
    PackUnpacked(LowByte(w));
    PackUnpacked(HighByte(w));
    WordOfBytes(w);
  }

  lemma WordBitsDiffer(v: Word, w: Word)
    ensures WordBits(v) == WordBits(w) <==> v == w
  {
    hide WordBits, JoinBytes, PackByte;
    BitsToWord(v);
    BitsToWord(w);
  }

  /** Another carry changes the filled word, except that inclusive fill leaves ones alone. */
  lemma WordFillsAlike(inclusive: bool, carry: bool, w: Word)
    ensures FillWord(inclusive, carry, w).0 == FillWord(inclusive, !carry, w).0 <==> inclusive && w == 0xFFFF
  {
    hide FillWord, WordBits, FillBits, Parity;
    FillWordIsFillBits(inclusive, carry, w);
    FillWordIsFillBits(inclusive, !carry, w);
    WordBitsDiffer(FillWord(inclusive, carry, w).0, FillWord(inclusive, !carry, w).0);
    BitsOfOnes(w);
    var x, y := FillBits(inclusive, carry, WordBits(w)).0, FillBits(inclusive, !carry, WordBits(w)).0;
    forall n | 0 <= n < 16
      ensures x[n] == y[n] <==> inclusive && WordBits(w)[n]
    {
      FillMeaning(inclusive, carry, WordBits(w), n);
      FillMeaning(inclusive, !carry, WordBits(w), n);
    }
    assert x == y <==> forall n :: 0 <= n < 16 ==> x[n] == y[n];
    assert WordBits(w)[0] || !WordBits(w)[0];
  }

  // ----- What the missing reset changes -----

  /** The rows of D words lie in memory, no two on one place. */
  ghost predicate OwnWords(job: Job, size: nat)
    requires job.Valid()
  {
    && (forall k: nat :: k < job.Words() ==> WordIndex(job.span, Pointer(job, D, k)) < size)
    && (forall k: nat, m: nat :: k < m < job.Words() ==>
          WordIndex(job.span, Pointer(job, D, k)) != WordIndex(job.span, Pointer(job, D, m)))
  }

  /** Memory with the first k words stored. */
  function After(job: Job, rowReset: bool, s: Serial, k: nat): seq<Word>
    requires job.Valid()
  {
    Store(job, Serially(job, rowReset, s, k), k)
  }

  lemma AfterNext(job: Job, rowReset: bool, s: Serial, k: nat)
    requires job.Valid() && job.useD
    ensures After(job, rowReset, s, 0) == s.memory
    ensures After(job, rowReset, s, k + 1)
         == Put(After(job, rowReset, s, k), job.span, Pointer(job, D, k), OutWord(job, rowReset, s, k))
  {
    hide Compute, Fetch, Put, Pointer;
    assert Serially(job, rowReset, s, 0) == s;
    assert Serially(job, rowReset, s, k + 1) == WordStep(job, rowReset, Serially(job, rowReset, s, k), k);
  }

  lemma {:induction false} SameAfter(job: Job, s: Serial, k: nat)
    requires job.Valid() && job.useD
    requires forall m: nat :: m < k ==> OutWord(job, false, s, m) == OutWord(job, true, s, m)
    ensures After(job, false, s, k) == After(job, true, s, k)
  {
    hide After, OutWord, Put, Pointer;
    AfterNext(job, false, s, 0);
    AfterNext(job, true, s, 0);
    if k > 0 {
      SameAfter(job, s, k - 1);
      AfterNext(job, false, s, k - 1);
      AfterNext(job, true, s, k - 1);
    }
  }

  lemma {:induction false} StoredInOwnPlace(job: Job, rowReset: bool, s: Serial, k: nat, m: nat)
    requires job.Valid() && job.useD && OwnWords(job, |s.memory|) && m < k <= job.Words()
    ensures var i := WordIndex(job.span, Pointer(job, D, m));
            && |After(job, rowReset, s, k)| == |s.memory| && 0 <= i < |s.memory|
            && After(job, rowReset, s, k)[i] == OutWord(job, rowReset, s, m)
  {
    hide After, OutWord, Pointer;
    AfterSize(job, rowReset, s, k - 1);
    AfterNext(job, rowReset, s, k - 1);
    if m < k - 1 {
      StoredInOwnPlace(job, rowReset, s, k - 1, m);
    }
  }

  lemma {:induction false} AfterSize(job: Job, rowReset: bool, s: Serial, k: nat)
    requires job.Valid() && job.useD
    ensures |After(job, rowReset, s, k)| == |s.memory|
  {
    hide After, OutWord, Pointer, WordIndex;
    AfterNext(job, rowReset, s, 0);
    if k > 0 {
      AfterSize(job, rowReset, s, k - 1);
      AfterNext(job, rowReset, s, k - 1);
    }
  }

  lemma {:induction false} ZeroSoFar(job: Job, rowReset: bool, s: Serial, k: nat)
    requires job.Valid()
    ensures Serially(job, rowReset, s, k).regs.zero
            <==> s.regs.zero && forall m: nat :: m < k ==> OutWord(job, rowReset, s, m) == 0
  {
    hide Fetch, FillWord, Minterm, MaskA, Low, Shifter, Store;
    if k == 0 {
      assert Serially(job, rowReset, s, 0) == s;
    } else {
      ZeroSoFar(job, rowReset, s, k - 1);
      ZeroNext(job, rowReset, s, k - 1);
    }
  }

  lemma ZeroNext(job: Job, rowReset: bool, s: Serial, k: nat)
    requires job.Valid()
    ensures Serially(job, rowReset, s, k + 1).regs.zero
            == (Serially(job, rowReset, s, k).regs.zero && OutWord(job, rowReset, s, k) == 0)
  {
    hide FillWord, Minterm, MaskA, Low, Shifter, Store, Get, Pointer;
    assert Serially(job, rowReset, s, k + 1) == WordStep(job, rowReset, Serially(job, rowReset, s, k), k);
  }

  /** Word k is the same with and without the reset. */
  predicate SameAt(job: Job, s: Serial, k: nat)
    requires job.Valid()
  {
    OutWord(job, false, s, k) == OutWord(job, true, s, k)
  }

  /** If both machines compute the same words they agree in everything. */
  lemma SameWordsSameBlit(job: Job, s: Serial)
    requires job.Valid() && job.useD && forall k: nat :: k < job.Words() ==> SameAt(job, s, k)
    ensures Blit(job, false, s) == Blit(job, true, s)
  {
    hide OutWord, Serially, Pointer, Store;
    var n := job.Words();
    forall m: nat | m < n ensures OutWord(job, false, s, m) == OutWord(job, true, s, m) {
      assert SameAt(job, s, m);
    }
    SameAfter(job, s, n);
    ZeroSoFar(job, false, s, n);
    ZeroSoFar(job, true, s, n);
    assert Blit(job, false, s).memory == After(job, false, s, n) && Blit(job, true, s).memory == After(job, true, s, n);
  }

  /** If the words have places of their own, they also differ in memory where they differ. */
  lemma OtherWordShows(job: Job, s: Serial, k: nat)
    requires job.Valid() && job.useD && OwnWords(job, |s.memory|) && k < job.Words() && !SameAt(job, s, k)
    ensures Blit(job, false, s).memory != Blit(job, true, s).memory
  {
    hide OutWord, Serially, Pointer, Store, OwnWords;
    var n := job.Words();
    assert Blit(job, false, s).memory == After(job, false, s, n) && Blit(job, true, s).memory == After(job, true, s, n);
    StoredInOwnPlace(job, false, s, n, k);
    StoredInOwnPlace(job, true, s, n, k);
  }

  function PlainAt(job: Job, r: Regs, j: nat, i: nat): Word
    requires job.h > 0
  {
    PlainWord(job, r, j * job.h + i)
  }

  /** Whether the rows before row j have an odd number of set bits together. */
  predicate OddAbove(job: Job, r: Regs, j: nat)
    requires job.h > 0
  {
    OddBefore(job, r, j * job.h)
  }

  predicate EvenRow(job: Job, r: Regs, j: nat)
    requires job.h > 0
  {
    OddAbove(job, r, j + 1) == OddAbove(job, r, j)
  }

  predicate OnesInRow(job: Job, r: Regs, j: nat)
    requires job.h > 0
  {
    forall i :: 0 <= i < job.h ==> PlainAt(job, r, j, i) == 0xFFFF
  }

  /** In every row the fill starts with the right carry even without a reset, or, filling
      inclusively, the row has only ones. */
  predicate CarryComesBack(job: Job, r: Regs)
    requires job.h > 0
  {
    forall j :: 0 <= j < job.v ==> !OddAbove(job, r, j) || (job.inclusive && OnesInRow(job, r, j))
  }

  lemma {:induction false} DifferenceInRow(job: Job, r: Regs, j: nat, i: nat)
    requires i < job.h
    ensures OddBefore(job, r, j * job.h + i) == OddInRow(job, r, j * job.h + i) <==> !OddAbove(job, r, j)
  {
    hide OddWord, PlainWord;
    QuotientIsUnique(j * job.h + i, job.h, j, i);
    if i > 0 {
      DifferenceInRow(job, r, j, i - 1);
    }
  }

  lemma WordComparison(job: Job, s: Serial, j: nat, i: nat)
    requires job.Valid() && job.fill && job.Sources() == 0 && s.regs.fc == job.carryIn && i < job.h
    ensures SameAt(job, s, j * job.h + i) <==>
      !OddAbove(job, s.regs, j) || (job.inclusive && PlainAt(job, s.regs, j, i) == 0xFFFF)
  {
    hide FillWord, RawWord, PlainWord, OutWord, Carry, OddBefore, OddInRow;
    var k := j * job.h + i;
    WordFills(job, false, s, k);
    WordFills(job, true, s, k);
    RawIsPlain(job, false, s, k);
    RawIsPlain(job, true, s, k);
    CarryOverAll(job, s, k);
    CarryInRow(job, s, k);
    DifferenceInRow(job, s.regs, j, i);
    WordFillsAlike(job.inclusive, Carry(job, true, s, k), PlainWord(job, s.regs, k));
  }

  lemma InRows(job: Job, j: nat, i: nat)
    requires job.h > 0 && j < job.v && i < job.h
    ensures j * job.h + i < job.Words()
  {
    QuotientIsUnique(j * job.h + i, job.h, j, i);
    RowsAndWords(j * job.h + i, job.h, job.v);
  }

  lemma SameIfBack(job: Job, s: Serial, k: nat)
    requires job.Valid() && job.fill && job.Sources() == 0 && s.regs.fc == job.carryIn && k < job.Words()
    requires CarryComesBack(job, s.regs)
    ensures SameAt(job, s, k)
  {
    hide SameAt, PlainAt, OddAbove;
    var j, i := k / job.h, k % job.h;
    RowsAndWords(k, job.h, job.v);
    assert k == j * job.h + i;
    WordComparison(job, s, j, i);
  }

  lemma BackIfSame(job: Job, s: Serial, j: nat)
    requires job.Valid() && job.fill && job.Sources() == 0 && s.regs.fc == job.carryIn && j < job.v
    requires forall k: nat :: k < job.Words() ==> SameAt(job, s, k)
    ensures !OddAbove(job, s.regs, j) || (job.inclusive && OnesInRow(job, s.regs, j))
  {
    hide SameAt, PlainAt, OddAbove;
    WordComparison(job, s, j, 0);
    InRows(job, j, 0);
    forall i | 0 <= i < job.h && OddAbove(job, s.regs, j) ensures PlainAt(job, s.regs, j, i) == 0xFFFF {
      WordComparison(job, s, j, i);
      InRows(job, j, i);
    }
  }

  /** If in every row the carry comes back by itself or does not matter, a fill blit without
      sources is the same without the reset of the carry. */
  lemma ResetDoesNotMatter(job: Job, s: Serial)
    requires job.Valid() && job.fill && job.Sources() == 0 && job.useD && s.regs.fc == job.carryIn
    requires CarryComesBack(job, s.regs)
    ensures Blit(job, false, s) == Blit(job, true, s)
  {
    hide SameAt, Blit, CarryComesBack;
    forall k: nat | k < job.Words() ensures SameAt(job, s, k) {
      SameIfBack(job, s, k);
    }
    SameWordsSameBlit(job, s);
  }

  /** And if its words have places of their own, only then. */
  lemma ResetShows(job: Job, s: Serial)
    requires job.Valid() && job.fill && job.Sources() == 0 && job.useD && s.regs.fc == job.carryIn
    requires OwnWords(job, |s.memory|)
    ensures Blit(job, false, s).memory == Blit(job, true, s).memory <==> CarryComesBack(job, s.regs)
    ensures Blit(job, false, s) == Blit(job, true, s) <==> CarryComesBack(job, s.regs)
  {
    hide SameAt, Blit, OddAbove, OnesInRow, OwnWords;
    if CarryComesBack(job, s.regs) {
      ResetDoesNotMatter(job, s);
    } else if k: nat :| k < job.Words() && !SameAt(job, s, k) {
      OtherWordShows(job, s, k);
    } else {
      forall j | 0 <= j < job.v
        ensures !OddAbove(job, s.regs, j) || (job.inclusive && OnesInRow(job, s.regs, j))
      {
        BackIfSame(job, s, j);
      }
    }
  }

  /** Filling exclusively that means: every row but the last has an even number of set bits. */
  lemma EvenRows(job: Job, r: Regs)
    requires job.Valid() && !job.inclusive
    ensures CarryComesBack(job, r) <==> forall j :: 0 <= j < job.v - 1 ==> EvenRow(job, r, j)
  {
    hide OddAbove;
    if forall j :: 0 <= j < job.v - 1 ==> EvenRow(job, r, j) {
      forall j | 0 <= j < job.v ensures !OddAbove(job, r, j) {
        EvenUpTo(job, r, j);
      }
    }
  }

  lemma {:induction false} EvenUpTo(job: Job, r: Regs, j: nat)
    requires job.h > 0 && j < job.v && forall i :: 0 <= i < job.v - 1 ==> EvenRow(job, r, i)
    ensures !OddAbove(job, r, j)
  {
    if j == 0 {
      assert 0 * job.h == 0;
    } else {
      hide OddAbove;
      EvenUpTo(job, r, j - 1);
      assert EvenRow(job, r, j - 1);
    }
  }

  // ----- When nothing is set -----

  /** Bit n as it must be for the fill of the bits up to it to set nothing. */
  predicate BitOfNothing(carry: bool, b: seq<bool>, n: nat)
    requires n < |b|
  {
    b[n] == (carry && n == 0)
  }

  lemma {:induction false} FillsToNothing(inclusive: bool, carry: bool, b: seq<bool>, k: nat)
    requires k <= |b|
    ensures (forall n :: 0 <= n < k ==> !FillBits(inclusive, carry, b).0[n]) <==>
      (k == 0 || !(inclusive && carry)) && forall n :: 0 <= n < k ==> BitOfNothing(carry, b, n)
    ensures (forall n :: 0 <= n < k ==> BitOfNothing(carry, b, n)) ==> Parity(b, k) == (carry && k > 0)
  {
    hide FillBits;
    if k > 0 {
      FillsToNothing(inclusive, carry, b, k - 1);
      FillMeaning(inclusive, carry, b, k - 1);
      var out := FillBits(inclusive, carry, b).0;
      assert (forall n :: 0 <= n < k ==> !out[n]) <==> !out[k - 1] && forall n :: 0 <= n < k - 1 ==> !out[n];
      assert (forall n :: 0 <= n < k ==> BitOfNothing(carry, b, n)) <==>
        BitOfNothing(carry, b, k - 1) && forall n :: 0 <= n < k - 1 ==> BitOfNothing(carry, b, n);
    }
  }

  predicate Pattern(b: seq<bool>, low: bool)
    requires |b| == 16
  {
    && b[0] == low && !b[1] && !b[2] && !b[3] && !b[4] && !b[5] && !b[6] && !b[7]
    && !b[8] && !b[9] && !b[10] && !b[11] && !b[12] && !b[13] && !b[14] && !b[15]
  }

  lemma SmallWordByBits(w: Word)
    ensures Pattern(WordBits(w), false) <==> w == 0
    ensures Pattern(WordBits(w), true) <==> w == 1
  {
  }

  lemma BitsOfSmallWord(w: Word, carry: bool)
    ensures (forall n :: 0 <= n < 16 ==> BitOfNothing(carry, WordBits(w), n)) <==> w == if carry then 1 else 0
    ensures (forall n :: 0 <= n < 16 ==> !WordBits(w)[n]) <==> w == 0
  {
    hide WordBits;
    SmallWordByBits(w);
    var b := WordBits(w);
    if Pattern(b, carry) {
      assert forall n :: 0 <= n < 16 ==> BitOfNothing(carry, b, n);
    } else {
      assert !(BitOfNothing(carry, b, 0) && BitOfNothing(carry, b, 1) && BitOfNothing(carry, b, 2)
               && BitOfNothing(carry, b, 3) && BitOfNothing(carry, b, 4) && BitOfNothing(carry, b, 5)
               && BitOfNothing(carry, b, 6) && BitOfNothing(carry, b, 7) && BitOfNothing(carry, b, 8)
               && BitOfNothing(carry, b, 9) && BitOfNothing(carry, b, 10) && BitOfNothing(carry, b, 11)
               && BitOfNothing(carry, b, 12) && BitOfNothing(carry, b, 13) && BitOfNothing(carry, b, 14)
               && BitOfNothing(carry, b, 15));
    }
  }

  /** A word fills to nothing if it is empty, or, filled exclusively from a set carry, its
      lowest bit ends the area at once. */
  lemma WordFillsToNothing(inclusive: bool, carry: bool, w: Word)
    ensures FillWord(inclusive, carry, w).0 == 0 <==> w == (if carry then 1 else 0) && !(inclusive && carry)
    ensures FillWord(inclusive, carry, w).0 == 0 ==> !FillWord(inclusive, carry, w).1
  {
    hide FillWord, WordBits, FillBits, Parity, BitOfNothing;
    FillWordIsFillBits(inclusive, carry, w);
    FillsToNothing(inclusive, carry, WordBits(w), 16);
    FillCarry(inclusive, carry, WordBits(w));
    BitsOfSmallWord(w, carry);
    BitsOfSmallWord(FillWord(inclusive, carry, w).0, carry);
  }

  /** Word k as it must be for the blit to set nothing. */
  predicate SetsNothing(job: Job, rowReset: bool, r: Regs, k: nat)
    requires job.h > 0
  {
    PlainWord(job, r, k) == if job.fill && InArea(job, rowReset, k) then 1 else 0
  }

  /** Whether word k begins inside an area, if nothing was set before it. */
  predicate InArea(job: Job, rowReset: bool, k: nat)
    requires job.h > 0
  {
    job.carryIn && if rowReset then k % job.h == 0 else k == 0
  }

  /** No word has a bit set, but for the bit that ends the area of a row that begins inside
      one (of the first row only, without a reset); and such a row is not filled inclusively. */
  predicate BlitSetsNothing(job: Job, rowReset: bool, r: Regs)
    requires job.h > 0
  {
    !(job.fill && job.inclusive && job.carryIn) && NothingUpTo(job, rowReset, r, job.Words())
  }

  predicate NothingUpTo(job: Job, rowReset: bool, r: Regs, k: nat)
    requires job.h > 0
  {
    forall m: nat :: m < k ==> SetsNothing(job, rowReset, r, m)
  }

  predicate ZeroUpTo(job: Job, rowReset: bool, s: Serial, k: nat)
    requires job.Valid()
  {
    forall m: nat :: m < k ==> OutWord(job, rowReset, s, m) == 0
  }

  lemma OneMore(job: Job, rowReset: bool, s: Serial, k: nat)
    requires job.Valid() && k > 0
    ensures ZeroUpTo(job, rowReset, s, k) <==>
      ZeroUpTo(job, rowReset, s, k - 1) && OutWord(job, rowReset, s, k - 1) == 0
    ensures NothingUpTo(job, rowReset, s.regs, k) <==>
      NothingUpTo(job, rowReset, s.regs, k - 1) && SetsNothing(job, rowReset, s.regs, k - 1)
  {
    hide OutWord, SetsNothing;
  }

  lemma UnfilledOut(job: Job, rowReset: bool, s: Serial, k: nat)
    requires job.Valid() && !job.fill && job.Sources() == 0
    ensures OutWord(job, rowReset, s, k) == PlainWord(job, s.regs, k)
  {
    hide Minterm, Low, Shifter, MaskA, Store, FillWord, PlainWord;
    RawIsPlain(job, rowReset, s, k);
    assert Serially(job, rowReset, s, k + 1) == WordStep(job, rowReset, Serially(job, rowReset, s, k), k);
  }

  lemma {:induction false} NothingSoFar(job: Job, rowReset: bool, s: Serial, k: nat)
    requires job.Valid() && job.Sources() == 0 && s.regs.fc == job.carryIn
    ensures ZeroUpTo(job, rowReset, s, k) <==>
      (k == 0 || !(job.fill && job.inclusive && job.carryIn)) && NothingUpTo(job, rowReset, s.regs, k)
    ensures job.fill && NothingUpTo(job, rowReset, s.regs, k) && !(job.inclusive && job.carryIn) ==>
      Carry(job, rowReset, s, k) == InArea(job, rowReset, k)
  {
    hide FillWord, OutWord, Carry, RawWord, PlainWord, ZeroUpTo, NothingUpTo;
    if k == 0 {
      NothingYet(job, rowReset, s);
    } else {
      NothingSoFar(job, rowReset, s, k - 1);
      OneMore(job, rowReset, s, k);
      NextWord(k - 1, job.h);
      RawIsPlain(job, rowReset, s, k - 1);
      if job.fill {
        FirstCarry(job, rowReset, s, k - 1);
        WordFills(job, rowReset, s, k - 1);
        WordFillsToNothing(job.inclusive, Carry(job, rowReset, s, k - 1), PlainWord(job, s.regs, k - 1));
      } else {
        UnfilledOut(job, rowReset, s, k - 1);
      }
    }
  }

  lemma NothingYet(job: Job, rowReset: bool, s: Serial)
    requires job.Valid() && s.regs.fc == job.carryIn
    ensures ZeroUpTo(job, rowReset, s, 0) && NothingUpTo(job, rowReset, s.regs, 0)
    ensures Carry(job, rowReset, s, 0) == job.carryIn
    ensures 0 % job.h == 0
  {
  }

  lemma FirstCarry(job: Job, rowReset: bool, s: Serial, k: nat)
    requires job.Valid() && job.fill && s.regs.fc == job.carryIn
    ensures k == 0 ==> Carry(job, rowReset, s, k) == job.carryIn
  {
  }

  /** The zero flag of a blit without sources, by its registers. */
  lemma ZeroByRegisters(job: Job, rowReset: bool, s: Serial)
    requires job.Valid() && job.Sources() == 0 && s.regs.fc == job.carryIn && s.regs.zero
    ensures Blit(job, rowReset, s).zero <==> BlitSetsNothing(job, rowReset, s.regs)
  {
    hide Serially, OutWord, NothingUpTo, Pointer, Store;
    ZeroSoFar(job, rowReset, s, job.Words());
    NothingSoFar(job, rowReset, s, job.Words());
    assert job.Words() > 0;
  }
}
