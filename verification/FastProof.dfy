/** The immediate loops, generic and specialised, against the word-serial machine in which
    channels fade. */
module FastProof {
  import opened ChipMemory
  import opened DataPath
  import opened LogicUnit
  import opened Counting
  import opened BlitSpec
  import opened FastLoop
  import opened FadingSpec

  function At(job: Job, s: Serial, k: nat): Serial
    requires job.Valid()
  {
    Fading(job, s, k)
  }

  predicate NeedsA(job: Job) { Special(job) ==> ReadsA(job.minterm) }
  predicate NeedsB(job: Job) { Special(job) ==> ReadsB(job.minterm) }
  predicate NeedsC(job: Job) { Special(job) ==> ReadsC(job.minterm) }

  /** A local pointer after k words, i of them in the current row. */
  function Local(job: Job, ch: Channel, k: nat, i: nat): int
    requires job.h > 0 && i <= k
  {
    if i < job.h || k == 0 then
      if Live(job, ch, k) then Pointer(job, ch, k) else 0
    else
      if Live(job, ch, k - 1) then Bump(job, Pointer(job, ch, k - 1)) else 0
  }

  ghost predicate SamePointers(job: Job, p: Locals, k: nat, i: nat)
    requires job.Valid() && i <= k
  {
    && (NeedsA(job) ==> p.qa == Local(job, A, k, i))
    && (NeedsB(job) ==> p.qb == Local(job, B, k, i))
    && (NeedsC(job) ==> p.qc == Local(job, C, k, i))
    && p.qd == Local(job, D, k, i)
  }

  /** The sources the loop uses, as the registers of the serial machine. */
  ghost predicate SameInputs(job: Job, inp: Inputs, r: Regs) {
    && (NeedsA(job) ==> inp.adat == r.adat && inp.aold == r.aold)
    && (NeedsB(job) ==> Low(inp.bhold) == r.bhold && inp.bold == r.bold)
    && (NeedsC(job) ==> inp.cdat == r.cdat)
  }

  ghost predicate SameOutput(job: Job, s: Serial, out: Output, k: nat)
    requires job.Valid()
  {
    var now := At(job, s, k);
    && now.regs.zero == (s.regs.zero && out.seen == 0)
    && (k > 0 ==> out.ddat == now.out)
    && out.pending == (Live(job, D, 0) && k > 0)
    && out.target == (if Live(job, D, 0) && k > 0 then Target(job, k - 1) else 0)
  }

  /** After k words, i of them in the current row. */
  ghost predicate InStep(job: Job, s: Serial, f: Fast, k: nat, i: nat)
    requires job.Valid() && i <= k
  {
    && f.memory == At(job, s, k).memory
    && SameInputs(job, f.inp, At(job, s, k).regs)
    && SamePointers(job, f.ptr, k, i)
    && SameOutput(job, s, f.out, k)
    && (!Special(job) && i < job.h ==> f.out.fc == At(job, s, k).regs.fc)
  }

  // ----- Small facts -----

  lemma OrIsZero(a: Word, b: Word)
    ensures (Gather(a, b) == 0) == (a == 0 && b == 0)
  {
  }

  lemma LiveNext(job: Job, ch: Channel, k: nat)
    requires job.h > 0
    ensures Live(job, ch, k + 1) <==>
      Live(job, ch, k) && Bump(job, Pointer(job, ch, k)) != 0 && Pointer(job, ch, k + 1) != 0
    ensures Live(job, ch, k) ==> job.Uses(ch) && Pointer(job, ch, k) != 0
    ensures var next := Bump(job, Pointer(job, ch, k));
            job.Uses(ch) ==> Pointer(job, ch, k + 1) == if k % job.h == job.h - 1 then Skip(job, ch, next) else next
  {
    hide Bump, Skip;
    if Live(job, ch, k) {
      FadesForGood(job, ch, k, k);
    }
  }

  lemma LocalSteps(job: Job, ch: Channel, k: nat, i: nat)
    requires job.Valid() && k < job.Words() && i == k % job.h
    ensures Live(job, ch, k) ==>
      && Local(job, ch, k, i) == Pointer(job, ch, k) != 0
      && Local(job, ch, k + 1, i + 1) == Bump(job, Local(job, ch, k, i))
    ensures !Live(job, ch, k) ==> Local(job, ch, k, i) == 0 == Local(job, ch, k + 1, i + 1)
  {
    hide Bump, Skip;
    LiveNext(job, ch, k);
  }

  // ----- Emitting a word -----

  lemma StoreLastIsStore(job: Job, s: Serial, f: Fast, k: nat)
    requires job.Valid() && k <= job.Words()
    requires f.memory == At(job, s, k).memory && SameOutput(job, s, f.out, k)
    ensures StoreLast(job, Special(job), f) == FadingStore(job, At(job, s, k), k)
  {
    hide Fading, Put;
  }

  /** Word k is fetched and shifted, but not yet computed; i columns of the row
      are done. */
  ghost predicate Ready(job: Job, s: Serial, f: Fast, k: nat, i: nat, d: Word)
    requires job.Valid() && i <= k
  {
    var now := At(job, s, k);
    var r := FadingFetch(job, now, k);
    var a := MaskA(job, i, r.adat);
    && f.memory == now.memory
    && SameInputs(job, f.inp, r.(aold := a))
    && SamePointers(job, f.ptr.(qd := Local(job, D, k + 1, i + 1)), k + 1, i + 1)
    && f.ptr.qd == Local(job, D, k, i)
    && SameOutput(job, s, f.out, k)
    && (!Special(job) ==> f.out.fc == r.fc)
    && d == Minterm(job.minterm, Low(Shifter(job.descending, job.ashift, r.aold, a)), r.bhold, r.cdat)
  }

  lemma SpecialIsNotFill(job: Job)
    ensures Special(job) ==> !job.fill
  {
  }

  /** A live D takes the place of word k; else that of the word before stands. */
  lemma TargetNext(job: Job, k: nat)
    requires job.h > 0
    ensures Live(job, D, k) ==> Live(job, D, 0) && Target(job, k) == Pointer(job, D, k)
    ensures !Live(job, D, k) && Live(job, D, 0) ==> k > 0 && Target(job, k) == Target(job, k - 1)
  {
    hide Bump, Skip;
    if Live(job, D, k) {
      FadesForGood(job, D, 0, k);
    }
  }

  lemma EmitOutput(job: Job, s: Serial, f: Fast, k: nat, i: nat, d: Word)
    requires job.Valid() && k < job.Words() && i == k % job.h && i <= k
    requires Ready(job, s, f, k, i, d)
    ensures SameOutput(job, s, Emit(job, Special(job), f, d).out, k + 1)
    ensures !Special(job) && i + 1 < job.h ==> Emit(job, Special(job), f, d).out.fc == At(job, s, k + 1).regs.fc
  {
    hide Local, Low, Shifter, Minterm, FillWord, Fading, StoreLast, FadingFetch, MaskA, Pointer, SameInputs,
         SamePointers, Special, Gather, Live, Target, Bump;
    SpecialIsNotFill(job);
    LocalSteps(job, D, k, i);
    TargetNext(job, k);
    SerialStep(job, s, k);
    FetchKeepsFlags(job, At(job, s, k), k);
    OrIsZero(f.out.seen, Emit(job, Special(job), f, d).out.ddat);
  }

  lemma EmitInStep(job: Job, s: Serial, f: Fast, k: nat, i: nat, d: Word)
    requires job.Valid() && k < job.Words() && i == k % job.h && i <= k
    requires Ready(job, s, f, k, i, d)
    ensures InStep(job, s, Emit(job, Special(job), f, d), k + 1, i + 1)
  {
    hide Local, Low, Shifter, Minterm, FillWord, Fading, StoreLast, FadingFetch, MaskA, Pointer, SameOutput, Special;
    EmitOutput(job, s, f, k, i, d);
    StoreLastIsStore(job, s, f, k);
    LocalSteps(job, D, k, i);
    SerialStep(job, s, k);
  }

  lemma FetchKeepsFlags(job: Job, now: Serial, k: nat)
    requires job.Valid()
    ensures
      var r := FadingFetch(job, now, k);
      r.zero == now.regs.zero && r.fc == now.regs.fc
  {
  }

  lemma SerialStep(job: Job, s: Serial, k: nat)
    requires job.Valid()
    ensures At(job, s, k + 1) == FadingStep(job, At(job, s, k), k)
  {
  }

  // ----- One column -----

  /** What reading word k brings, before it is computed. */
  ghost predicate Read(job: Job, s: Serial, f: Fast, k: nat, i: nat, ahold: bv32, f1: Fast)
    requires job.Valid() && i <= k
  {
    var now := At(job, s, k);
    var r := FadingFetch(job, now, k);
    && (NeedsA(job) ==> ahold == Shifter(job.descending, job.ashift, r.aold, MaskA(job, i, r.adat)))
    && SameInputs(job, f1.inp, r.(aold := MaskA(job, i, r.adat)))
    && f1.memory == f.memory && f1.out == f.out
    && f1.ptr.qd == f.ptr.qd
    && SamePointers(job, f1.ptr.(qd := Local(job, D, k + 1, i + 1)), k + 1, i + 1)
  }

  lemma GenericRead(job: Job, s: Serial, f: Fast, k: nat, i: nat)
    requires job.Valid() && !Special(job) && k < job.Words() && i == k % job.h && i <= k
    requires InStep(job, s, f, k, i)
    ensures Read(job, s, f, k, i, GenericReads(job, f, i).0, GenericReads(job, f, i).1)
  {
    hide Local, Low, Shifter, Fading, Special, MaskA;
    LocalSteps(job, A, k, i);
    LocalSteps(job, B, k, i);
    LocalSteps(job, C, k, i);
  }

  lemma SpecialRead(job: Job, s: Serial, f: Fast, k: nat, i: nat)
    requires job.Valid() && Special(job) && k < job.Words() && i == k % job.h && i <= k
    requires InStep(job, s, f, k, i)
    ensures Read(job, s, f, k, i, SpecialReads(job, f, i).0, SpecialReads(job, f, i).1)
  {
    hide Local, Low, Shifter, Fading, Special, MaskA, ReadsA, ReadsB, ReadsC;
    LocalSteps(job, A, k, i);
    LocalSteps(job, B, k, i);
    LocalSteps(job, C, k, i);
  }

  lemma ReadMakesReady(job: Job, s: Serial, f: Fast, k: nat, i: nat, ahold: bv32, f1: Fast)
    requires job.Valid() && k < job.Words() && i == k % job.h && i <= k
    requires InStep(job, s, f, k, i) && Read(job, s, f, k, i, ahold, f1)
    ensures Ready(job, s, f1, k, i, Logic(job.minterm, ahold, f1.inp.bhold, f1.inp.cdat))
  {
    hide Local, Low, Shifter, Fading, Special, MaskA, FadingFetch, Minterm, Logic, Pointer, ReadsA, ReadsB, ReadsC;
    var now := At(job, s, k);
    FetchKeepsFlags(job, now, k);
    LogicIsMinterm(job.minterm, ahold, f1.inp.bhold, f1.inp.cdat);
    var r := FadingFetch(job, now, k);
    if Special(job) {
      SpecialIsDispatched(job);
      UnreadSourcesDoNotMatter(job.minterm, Low(ahold), Low(f1.inp.bhold), f1.inp.cdat,
        Low(Shifter(job.descending, job.ashift, r.aold, MaskA(job, i, r.adat))), r.bhold, r.cdat);
    }
  }

  lemma SpecialIsDispatched(job: Job)
    requires Special(job)
    ensures Dispatched(job.minterm)
  {
  }

  lemma ColumnInStep(job: Job, s: Serial, f: Fast, k: nat, i: nat)
    requires job.Valid() && k < job.Words() && i == k % job.h && i <= k
    requires InStep(job, s, f, k, i)
    ensures InStep(job, s, Column(job, Special(job), f, i), k + 1, i + 1)
  {
    hide InStep, Ready, Read, Special, GenericReads, SpecialReads, Emit, Logic;
    if Special(job) {
      SpecialRead(job, s, f, k, i);
    } else {
      GenericRead(job, s, f, k, i);
    }
    var (ahold, f1) := if Special(job) then SpecialReads(job, f, i) else GenericReads(job, f, i);
    ReadMakesReady(job, s, f, k, i, ahold, f1);
    EmitInStep(job, s, f1, k, i, Logic(job.minterm, ahold, f1.inp.bhold, f1.inp.cdat));
  }

  // ----- Rows -----

  lemma RowCarry(job: Job, s: Serial, k: nat)
    requires job.Valid() && s.regs.fc == job.carryIn && k % job.h == 0
    ensures At(job, s, k).regs.fc == job.carryIn
  {
    if k > 0 {
      NextWord(k - 1, job.h);
      SerialStep(job, s, k - 1);
    }
  }

  /** The number of the first word of row j. */
  function RowStart(job: Job, j: nat): nat {
    j * job.h
  }

  /** At the start of row j, once the fill carry is set. */
  ghost predicate AtRow(job: Job, s: Serial, f: Fast, j: nat)
    requires job.Valid()
  {
    InStep(job, s, f.(out := f.out.(fc := job.carryIn)), RowStart(job, j), 0)
  }

  lemma WordOfRow(job: Job, j: nat, i: nat)
    requires job.Valid() && j < job.v && i < job.h
    ensures RowStart(job, j) + i < job.Words() && (RowStart(job, j) + i) % job.h == i
  {
    QuotientIsUnique(RowStart(job, j) + i, job.h, j, i);
    RowsAndWords(RowStart(job, j) + i, job.h, job.v);
  }

  lemma {:induction false} ColumnsInStep(job: Job, s: Serial, f: Fast, j: nat, i: nat)
    requires job.Valid() && j < job.v && i <= job.h
    requires AtRow(job, s, f, j)
    ensures InStep(job, s, Columns(job, Special(job), f, i), RowStart(job, j) + i, i)
  {
    hide InStep, Column;
    if i > 0 {
      ColumnsInStep(job, s, f, j, i - 1);
      WordOfRow(job, j, i - 1);
      ColumnInStep(job, s, Columns(job, Special(job), f, i - 1), RowStart(job, j) + i - 1, i - 1);
    }
  }

  lemma LocalTurns(job: Job, ch: Channel, k: nat)
    requires job.Valid() && 0 < k < job.Words() && k % job.h == 0
    ensures Local(job, ch, k, 0)
         == if Local(job, ch, k, job.h) != 0 then Skip(job, ch, Local(job, ch, k, job.h)) else 0
  {
    hide Bump, Skip;
    NextWord(k - 1, job.h);
    LiveNext(job, ch, k - 1);
  }

  lemma RowTurns(job: Job, s: Serial, f: Fast, j: nat)
    requires job.Valid() && 0 < j < job.v && s.regs.fc == job.carryIn
    requires InStep(job, s, f, RowStart(job, j), job.h)
    ensures AtRow(job, s, EndRow(job, f), j)
  {
    WordOfRow(job, j, 0);
    RowCarry(job, s, RowStart(job, j));
    LocalTurns(job, A, RowStart(job, j));
    LocalTurns(job, B, RowStart(job, j));
    LocalTurns(job, C, RowStart(job, j));
    LocalTurns(job, D, RowStart(job, j));
    hide Local, Fading, Special, Low;
  }

  lemma EnterAtRow(job: Job, s: Serial, bdat: Word)
    requires job.Valid() && s.regs.fc == job.carryIn
    ensures AtRow(job, s, Enter(job, s, bdat), 0)
  {
    LowOfWide(s.regs.bhold);
    hide Low, Widen;
  }

  lemma {:induction false} RowsInStep(job: Job, s: Serial, bdat: Word, j: nat)
    requires job.Valid() && j < job.v && s.regs.fc == job.carryIn
    ensures AtRow(job, s, Rows(job, Special(job), Enter(job, s, bdat), j), j)
  {
    hide AtRow, InStep, Columns, EndRow, Enter, Special;
    if j == 0 {
      EnterAtRow(job, s, bdat);
    } else {
      RowsInStep(job, s, bdat, j - 1);
      var f := Rows(job, Special(job), Enter(job, s, bdat), j - 1);
      ColumnsInStep(job, s, f, j - 1, job.h);
      assert RowStart(job, j - 1) + job.h == RowStart(job, j);
      RowTurns(job, s, Columns(job, Special(job), f, job.h), j);
    }
  }

  /** The loops' state before the last row ends. */
  function LastRow(job: Job, s: Serial, bdat: Word): Fast
    requires job.Valid()
  {
    Columns(job, Special(job), Rows(job, Special(job), Enter(job, s, bdat), job.v - 1), job.h)
  }

  lemma LastRowInStep(job: Job, s: Serial, bdat: Word)
    requires job.Valid() && s.regs.fc == job.carryIn
    ensures InStep(job, s, LastRow(job, s, bdat), job.Words(), job.h)
  {
    hide AtRow, InStep, Columns, Rows, Enter, Special, Local, Pointer;
    AllRows(job);
    RowsInStep(job, s, bdat, job.v - 1);
    ColumnsInStep(job, s, Rows(job, Special(job), Enter(job, s, bdat), job.v - 1), job.v - 1, job.h);
  }

  lemma AllRows(job: Job)
    requires job.Valid()
    ensures RowStart(job, job.v - 1) + job.h == job.Words() && job.h <= job.Words()
  {
  }

  lemma FastFromLastRow(job: Job, s: Serial, bdat: Word)
    requires job.Valid()
    ensures FastBlit(job, s, bdat).memory == StoreLast(job, Special(job), LastRow(job, s, bdat))
    ensures FastBlit(job, s, bdat).zero == (s.regs.zero && LastRow(job, s, bdat).out.seen == 0)
  {
    hide StoreLast, Columns, Enter, FinalPointer;
    StoreIgnoresPointers(job, LastRow(job, s, bdat), EndRow(job, LastRow(job, s, bdat)));
  }

  lemma InStepAtEnd(job: Job, s: Serial, f: Fast)
    requires job.Valid() && InStep(job, s, f, job.Words(), job.h)
    ensures StoreLast(job, Special(job), f) == FadingBlit(job, s).memory
    ensures (s.regs.zero && f.out.seen == 0) == FadingBlit(job, s).zero
  {
    StoreLastIsStore(job, s, f, job.Words());
    hide StoreLast, FadingStore, Pointer, Fading, Special;
  }

  /** The immediate blit, generic or specialised, stores what the word-serial
      machine stores and finds the same zero flag. */
  lemma FastMemory(job: Job, s: Serial, bdat: Word)
    requires job.Valid() && s.regs.fc == job.carryIn
    ensures FastBlit(job, s, bdat).memory == FadingBlit(job, s).memory
    ensures FastBlit(job, s, bdat).zero == FadingBlit(job, s).zero
  {
    hide FastBlit, FadingBlit, InStep, LastRow, StoreLast;
    LastRowInStep(job, s, bdat);
    FastFromLastRow(job, s, bdat);
    InStepAtEnd(job, s, LastRow(job, s, bdat));
  }

  lemma StoreIgnoresPointers(job: Job, f: Fast, g: Fast)
    requires job.span > 0 && g == f.(ptr := g.ptr)
    ensures StoreLast(job, Special(job), g) == StoreLast(job, Special(job), f)
  {
  }
}
