/** The two engines against each other. */
module BlitTheorems {
  import opened ChipMemory
  import opened Counting
  import opened DataPath
  import opened LogicUnit
  import opened BlitSpec
  import opened CycleEngine
  import CycleProof
  import CycleTheorems
  import opened FastLoop
  import opened FadingSpec
  import FastProof
  import FillTheorems
  import FillOverlap

  // ----- Pointers -----

  /** Bytes from the first word of a channel to column i of row j. */
  function Offset(job: Job, ch: Channel, j: nat, i: nat): int {
    j * (job.h * 2 + job.Modulo(ch)) + 2 * i
  }

  function Address(job: Job, ch: Channel, j: nat, i: nat): int {
    job.Start(ch) + job.Sign() * Offset(job, ch, j, i)
  }

  lemma PointerInRow(job: Job, ch: Channel, j: nat, i: nat)
    requires job.Valid() && job.Uses(ch) && 0 < i < job.h
    requires Pointer(job, ch, j * job.h + i - 1) == Wrap(Address(job, ch, j, i - 1))
    ensures Pointer(job, ch, j * job.h + i) == Wrap(Address(job, ch, j, i))
  {
    QuotientIsUnique(j * job.h + (i - 1), job.h, j, i - 1);
    WrapOfSum(Address(job, ch, j, i - 1), 2 * job.Sign());
    hide Wrap;
  }

  lemma PointerTurns(job: Job, ch: Channel, j: nat)
    requires job.Valid() && job.Uses(ch) && j > 0
    requires Pointer(job, ch, (j - 1) * job.h + (job.h - 1)) == Wrap(Address(job, ch, j - 1, job.h - 1))
    ensures Pointer(job, ch, j * job.h) == Wrap(Address(job, ch, j, 0))
  {
    hide Wrap, Offset, Address;
    var last := job.h - 1;
    QuotientIsUnique((j - 1) * job.h + last, job.h, j - 1, last);
    PreviousRow(job, j);
    var before := Address(job, ch, j - 1, last);
    WrapOfSum(before, 2 * job.Sign());
    WrapOfSum(before + 2 * job.Sign(), job.Sign() * job.Modulo(ch));
    AddressTurns(job, ch, j);
  }

  /** Word by word, a pointer reaches the address its row and column give. */
  lemma {:induction false} PointerOfWord(job: Job, ch: Channel, j: nat, i: nat)
    requires job.Valid() && job.Uses(ch) && i < job.h
    ensures Pointer(job, ch, j * job.h + i) == Wrap(Address(job, ch, j, i))
    decreases j, i
  {
    if i > 0 {
      PointerOfWord(job, ch, j, i - 1);
      PointerInRow(job, ch, j, i);
    } else if j > 0 {
      PointerOfWord(job, ch, j - 1, job.h - 1);
      PointerTurns(job, ch, j);
    }
  }

  lemma PreviousRow(job: Job, j: nat)
    requires j > 0 && job.h > 0
    ensures j * job.h == (j - 1) * job.h + (job.h - 1) + 1
  {
  }

  lemma AddressTurns(job: Job, ch: Channel, j: nat)
    requires j > 0 && job.h > 0
    ensures Address(job, ch, j, 0)
         == Address(job, ch, j - 1, job.h - 1) + 2 * job.Sign() + job.Sign() * job.Modulo(ch)
  {
    assert Offset(job, ch, j, 0) == Offset(job, ch, j - 1, job.h - 1) + 2 + job.Modulo(ch);
  }

  /** The one-step pointer update of the immediate blit is where the pointers end
      up when they follow the words. */
  lemma FinalPointers(job: Job, ch: Channel)
    requires job.Valid()
    ensures FinalPointer(job, ch) == Pointer(job, ch, job.Words())
  {
    hide Wrap, Pointer;
    if job.Uses(ch) {
      PointerOfWord(job, ch, job.v, 0);
      assert job.v * job.h + 0 == job.Words();
      assert Offset(job, ch, job.v, 0) == (job.h * 2 + job.Modulo(ch)) * job.v;
    } else {
      CycleProof.PointerIdle(job, ch, job.Words());
    }
  }

  /** For every blit, wherever its pointers go, the immediate blitter, through the generic or
      a specialised loop, has the outcome of the machine in which channels fade. */
  lemma FadingOutcome(job: Job, s: Serial, bdat: Word)
    requires job.Valid() && s.regs.fc == job.carryIn
    ensures FastBlit(job, s, bdat) == FadingBlit(job, s)
  {
    hide FinalPointer, Pointer, Rows, Fading, FadingStore, StoreLast;
    FastProof.FastMemory(job, s, bdat);
    FinalPointers(job, A);
    FinalPointers(job, B);
    FinalPointers(job, C);
    FinalPointers(job, D);
  }

  /** So if no pointer is zero on the way, that of the word-serial machine. */
  lemma FastOutcome(job: Job, s: Serial, bdat: Word)
    requires NoNullPointer(job) && s.regs.fc == job.carryIn
    ensures FastBlit(job, s, bdat) == Blit(job, true, s)
  {
    hide FastBlit, FadingBlit, Blit;
    FadingOutcome(job, s, bdat);
    NoneFade(job, s);
  }

  // ----- The fill carry of blits without sources -----

  /** Machines that differ in nothing but the fill carry. */
  ghost predicate SameButCarry(s: Serial, t: Serial) {
    s == t.(regs := t.regs.(fc := s.regs.fc))
  }

  lemma SameAsItself(s: Serial)
    ensures SameButCarry(s, s)
  {
  }

  lemma StepIgnoresCarry(job: Job, t: Serial, u: Serial, k: nat)
    requires job.Valid() && !job.fill && SameButCarry(t, u)
    ensures SameButCarry(WordStep(job, false, t, k), WordStep(job, true, u, k))
  {
    hide Minterm, Low, Shifter, Fetch, MaskA, Pointer, Put;
    FetchIgnoresCarry(job, t, u, k);
  }

  lemma {:induction false} CarryOnlyMattersToFill(job: Job, s: Serial, k: nat)
    requires job.Valid() && !job.fill
    ensures SameButCarry(Serially(job, false, s, k), Serially(job, true, s, k))
  {
    hide SameButCarry, WordStep;
    if k == 0 {
      SameAsItself(s);
    } else {
      CarryOnlyMattersToFill(job, s, k - 1);
      StepIgnoresCarry(job, Serially(job, false, s, k - 1), Serially(job, true, s, k - 1), k - 1);
    }
  }

  lemma FetchIgnoresCarry(job: Job, t: Serial, u: Serial, k: nat)
    requires job.Valid() && SameButCarry(t, u)
    ensures
      var r := Fetch(job, job.useA, job.useB, job.useC, t.regs, t.memory, k);
      r == Fetch(job, job.useA, job.useB, job.useC, u.regs, u.memory, k).(fc := t.regs.fc)
  {
    hide Low, Shifter;
  }

  /** The bus-cycle engine does not reset the fill carry between the rows of a blit without
      sources; that does not show without fill, or if the carry comes back by itself. */
  predicate CarryReset(job: Job, r: Regs)
    requires job.h > 0
  {
    job.Sources() > 0 || !job.fill || FillTheorems.CarryComesBack(job, r)
  }

  lemma ResetDoesNotShow(job: Job, s: Serial)
    requires job.Valid() && ChannelSet(job) != 0 && s.regs.fc == job.carryIn && CarryReset(job, s.regs)
    ensures Blit(job, CycleProof.Resets(job), s) == Blit(job, true, s)
  {
    hide Serially, Pointer, Put, FillTheorems.CarryComesBack;
    if job.Sources() == 0 {
      if !job.fill {
        CarryOnlyMattersToFill(job, s, job.Words());
      } else {
        FillTheorems.ResetDoesNotMatter(job, s);
      }
    }
  }

  // ----- The main theorem -----

  /** What a blit leaves behind, as the bus-cycle engine shows it. */
  function CycleOutcome(e: Engine): Outcome {
    Outcome(e.memory, e.reader.apt, e.reader.bpt, e.reader.cpt, e.writer.dpt, e.regs.zero)
  }

  /** For every blit with a channel and every sequence of bus grants that lets it
      finish, the bus-cycle engine leaves the memory, the pointers and the zero
      flag that the immediate blitter leaves. */
  lemma EnginesAgree(job: Job, s: Serial, e: Engine, grants: seq<Grant>, bdat: Word)
    requires CycleProof.Begun(job, PlanOf(job), s, e) && ChannelSet(job) != 0
    requires !Run(job, PlanOf(job), e, grants).clock.running
    requires s.regs.fc == job.carryIn
    requires NoNullPointer(job) && CarryReset(job, s.regs)
    ensures CycleOutcome(Run(job, PlanOf(job), e, grants)) == FastBlit(job, s, bdat)
  {
    CycleTheorems.CycleExactOutcome(job, s, e, grants);
    ResetDoesNotShow(job, s);
    FastOutcome(job, s, bdat);
    hide Run, Blit, FastBlit, PlanOf, CycleProof.Fits, NoNullPointer;
  }

  /** A fill without sources into words of their own: the engines agree exactly if in every
      row the carry has come back by itself or, filling inclusively, only ones are filled. */
  lemma CarryShows(job: Job, s: Serial, e: Engine, grants: seq<Grant>, bdat: Word)
    requires CycleProof.Begun(job, PlanOf(job), s, e) && job.fill && job.Sources() == 0 && job.useD
    requires !Run(job, PlanOf(job), e, grants).clock.running
    requires s.regs.fc == job.carryIn
    requires NoNullPointer(job) && FillTheorems.OwnWords(job, |s.memory|)
    ensures CycleOutcome(Run(job, PlanOf(job), e, grants)) == FastBlit(job, s, bdat)
            <==> FillTheorems.CarryComesBack(job, s.regs)
  {
    hide Run, Blit, FastBlit, PlanOf, CycleProof.Fits, FillTheorems.CarryComesBack,
         FillTheorems.OwnWords;
    CycleTheorems.CycleExactOutcome(job, s, e, grants);
    FillTheorems.ResetShows(job, s);
    FastOutcome(job, s, bdat);
  }

  /** The same for words that fall anywhere, on each other or outside memory: the engines
      agree exactly if the carry is hidden in all words that last and in the zero flag. */
  lemma CarryShowsAnywhere(job: Job, s: Serial, e: Engine, grants: seq<Grant>, bdat: Word)
    requires CycleProof.Begun(job, PlanOf(job), s, e) && job.fill && job.Sources() == 0 && job.useD
    requires !Run(job, PlanOf(job), e, grants).clock.running
    requires s.regs.fc == job.carryIn
    requires NoNullPointer(job)
    ensures CycleOutcome(Run(job, PlanOf(job), e, grants)) == FastBlit(job, s, bdat)
            <==> FillOverlap.HiddenWhereLasting(job, s.regs, |s.memory|) && FillOverlap.HiddenInFlag(job, s.regs)
  {
    hide Run, Blit, FastBlit, PlanOf, CycleProof.Fits, FillOverlap.HiddenWhereLasting,
         FillOverlap.HiddenInFlag;
    CycleTheorems.CycleExactOutcome(job, s, e, grants);
    FillOverlap.ResetShowsAnywhere(job, s);
    FastOutcome(job, s, bdat);
  }

  // ----- Where the engines part -----

  /** Two rows of one word each, 0x0001 before they are filled exclusively into the second
      and third word of a memory of four. */
  predicate TwoOpenRows(job: Job, s: Serial) {
    && job.h == 1 && job.v == 2 && job.fill && !job.inclusive && !job.carryIn && !job.descending
    && job.Sources() == 0 && job.useD && job.dpt == 2 && job.dmod == 0
    && job.minterm == 0xF0 && job.ashift == 0 && job.afwm == 0xFFFF && job.alwm == 0xFFFF
    && s.regs.adat == 1 && !s.regs.fc && job.span == 8 && |s.memory| == 4
  }

  lemma OpenRowIsOne(job: Job, s: Serial, k: nat)
    requires TwoOpenRows(job, s)
    ensures FillTheorems.PlainWord(job, s.regs, k) == 1
  {
    hide Minterm, Low, Shifter, Masked;
    var aold := if k == 0 then s.regs.aold else MaskA(job, 0, 1);
    assert k % job.h == 0;
    UnmaskedWord(1);
    UnshiftedWord(aold, 1);
    CopyMinterm(1, s.regs.bhold, s.regs.cdat);
  }

  lemma FillOfOne(carry: bool)
    ensures FillWord(false, carry, 1) == (if carry then 0 else 0xFFFF, !carry)
  {
    assert FillWord(false, false, 1) == (0xFFFF, true);
    assert FillWord(false, true, 1) == (0, false);
  }

  lemma OpenRows(job: Job, rowReset: bool, s: Serial)
    requires job.Valid() && TwoOpenRows(job, s)
    ensures FillTheorems.OutWord(job, rowReset, s, 0) == 0xFFFF
    ensures FillTheorems.OutWord(job, rowReset, s, 1) == if rowReset then 0xFFFF else 0
  {
    hide FillWord, FillTheorems.OutWord, FillTheorems.RawWord, FillTheorems.PlainWord, WordStep;
    assert FillTheorems.Carry(job, rowReset, s, 0) == false;
    FillTheorems.RawIsPlain(job, rowReset, s, 0);
    FillTheorems.RawIsPlain(job, rowReset, s, 1);
    OpenRowIsOne(job, s, 0);
    OpenRowIsOne(job, s, 1);
    FillTheorems.WordFills(job, rowReset, s, 0);
    FillTheorems.WordFills(job, rowReset, s, 1);
    FillOfOne(false);
    FillOfOne(FillTheorems.Carry(job, rowReset, s, 1));
  }

  lemma OpenRowsMemory(job: Job, rowReset: bool, s: Serial)
    requires job.Valid() && TwoOpenRows(job, s)
    ensures Blit(job, rowReset, s).memory == s.memory[1 := 0xFFFF][2 := if rowReset then 0xFFFF else 0]
  {
    hide FillTheorems.After, FillTheorems.OutWord, Blit;
    OpenRows(job, rowReset, s);
    FillTheorems.AfterNext(job, rowReset, s, 0);
    FillTheorems.AfterNext(job, rowReset, s, 1);
    FillOverlap.MemoryAfter(job, rowReset, s);
    OpenRowPointers(job);
  }

  lemma OpenRowPointers(job: Job)
    requires job.h == 1 && job.useD && !job.descending && job.dpt == 2 && job.dmod == 0
    ensures Pointer(job, D, 0) == 2 && Pointer(job, D, 1) == 4
  {
  }

  /** The area left open in the first row reaches into the second in the bus-cycle engine,
      and ends with its row in the immediate blitter. */
  lemma OpenRowsPart(job: Job, s: Serial, e: Engine, grants: seq<Grant>, bdat: Word)
    requires CycleProof.Begun(job, PlanOf(job), s, e) && TwoOpenRows(job, s)
    requires !Run(job, PlanOf(job), e, grants).clock.running
    ensures CycleOutcome(Run(job, PlanOf(job), e, grants)).memory == s.memory[1 := 0xFFFF][2 := 0]
    ensures FastBlit(job, s, bdat).memory == s.memory[1 := 0xFFFF][2 := 0xFFFF]
  {
    hide Run, Blit, FastBlit, PlanOf;
    OpenRowPointers(job);
    assert NoNullPointer(job);
    CycleTheorems.CycleExactOutcome(job, s, e, grants);
    FastOutcome(job, s, bdat);
    OpenRowsMemory(job, false, s);
    OpenRowsMemory(job, true, s);
  }

  /** Without any channel the bus-cycle engine computes nothing at all. */
  lemma IdleTick(job: Job, e: Engine, g: Grant)
    requires job.Valid() && ChannelSet(job) == 0
    ensures
      var e' := Tick(job, PlanOf(job), e, g);
      e' == e.(clock := e'.clock, pipe := e'.pipe)
  {
    hide PlanOf, ChannelState, CurrentDiagram, ChannelPos, TransferSlot, IdleSlot, ExtraIdle;
    IdleChannelState(job, e.clock.final, e.clock.cycle);
    IdleSlotChanges(job, e);
  }

  lemma IdleSlotChanges(job: Job, e: Engine)
    ensures IdleSlot(job, e) == e.(clock := IdleSlot(job, e).clock, pipe := IdleSlot(job, e).pipe)
  {
  }

  /** With no channel every slot is idle, but for the D slots of the final cycles. */
  lemma IdleChannelState(job: Job, final: bool, cycle: int)
    requires ChannelSet(job) == 0
    ensures ChannelState(CurrentDiagram(PlanOf(job), final), cycle) == 0
  {
  }

  lemma {:induction false} IdleRun(job: Job, e: Engine, grants: seq<Grant>)
    requires job.Valid() && ChannelSet(job) == 0
    ensures
      var e' := Run(job, PlanOf(job), e, grants);
      e' == e.(clock := e'.clock, pipe := e'.pipe)
  {
    if grants != [] {
      hide Tick, PlanOf;
      IdleRun(job, e, grants[..|grants| - 1]);
      IdleTick(job, Run(job, PlanOf(job), e, grants[..|grants| - 1]), grants[|grants| - 1]);
    }
  }

  lemma {:induction false} NothingStored(job: Job, s: Serial, k: nat)
    requires job.Valid() && !job.useD
    ensures Serially(job, true, s, k).memory == s.memory
  {
    if k > 0 {
      hide Compute, Fetch;
      NothingStored(job, s, k - 1);
    }
  }

  /** So a blit without channels leaves memory and pointers alone in both engines, and they
      agree on the zero flag exactly if the registers give no word with a bit set. */
  lemma NoChannelsAgree(job: Job, s: Serial, e: Engine, grants: seq<Grant>, bdat: Word)
    requires job.Valid() && ChannelSet(job) == 0 && s.regs.fc == job.carryIn && s.regs.zero
    requires e.memory == s.memory && e.regs == s.regs
    requires e.reader == Reader(job.apt, job.bpt, job.cpt, 0, 0, 0) && e.writer.dpt == job.dpt
    ensures
      var cycle := CycleOutcome(Run(job, PlanOf(job), e, grants));
      var fast := FastBlit(job, s, bdat);
      && fast == cycle.(zero := fast.zero)
      && (cycle == fast <==> FillTheorems.BlitSetsNothing(job, true, s.regs))
  {
    hide FillTheorems.BlitSetsNothing;
    assert NoNullPointer(job);
    IdleRun(job, e, grants);
    FastOutcome(job, s, bdat);
    FillTheorems.ZeroByRegisters(job, true, s);
    NothingStored(job, s, job.Words());
    CycleProof.SourcesIdle(job, job.Words());
    CycleProof.PointerIdle(job, D, job.Words());
    hide Run, PlanOf, FastBlit, Serially, Pointer, NoNullPointer;
  }

  // ----- Pointers that are zero -----

  /** A channel whose pointer starts at zero is off for the whole blit. */
  lemma NullStartIsOff(job: Job, s: Serial, bdat: Word)
    requires job.Valid() && NoNullPointer(Effective(job)) && s.regs.fc == job.carryIn
    ensures FastBlit(job, s, bdat).memory == Blit(Effective(job), true, s).memory
    ensures FastBlit(job, s, bdat).zero == Blit(Effective(job), true, s).zero
  {
    hide FastBlit, FadingBlit, Blit, NoNullPointer;
    FadingOutcome(job, s, bdat);
    FadingIsEffective(job, s);
  }

  lemma NullMinterm(a: Word, b: Word, c: Word)
    ensures Minterm(0, a, b, c) == 0
  {
  }

  lemma ClearedWord(job: Job, r: Regs, column: int)
    requires job.minterm == 0 && !job.fill
    ensures Compute(job, r, column).1 == 0
  {
    hide Minterm, Low, Shifter, MaskA;
    NullMinterm(Low(Shifter(job.descending, job.ashift, r.aold, MaskA(job, column, r.adat))), r.bhold, r.cdat);
  }

  /** Two words cleared downwards, the second of them at address 0. */
  predicate ClearsToZero(job: Job, s: Serial) {
    && job.h == 2 && job.v == 1 && !job.fill && job.descending && job.minterm == 0
    && job.Sources() == 0 && job.useD && job.dpt == 2 && job.span == 8 && |s.memory| == 4
  }

  lemma ClearPointers(job: Job)
    requires job.h == 2 && job.useD && job.descending && job.dpt == 2
    ensures Pointer(job, D, 0) == 2 && Pointer(job, D, 1) == 0
    ensures Live(job, D, 0) && !Live(job, D, 1) && Target(job, 0) == Target(job, 1) == 2
  {
  }

  lemma Clears(job: Job, rowReset: bool, s: Serial)
    requires job.Valid() && ClearsToZero(job, s)
    ensures Blit(job, rowReset, s).memory == s.memory[1 := 0][0 := 0]
    ensures FadingBlit(job, s).memory == s.memory[1 := 0]
  {
    hide Compute, Fetch, Pointer, Live, Target;
    ClearPointers(job);
    var t, u := Serially(job, rowReset, s, 1), Fading(job, s, 1);
    assert Serially(job, rowReset, s, 0) == s && Fading(job, s, 0) == s;
    assert t == WordStep(job, rowReset, s, 0) && u == FadingStep(job, s, 0);
    assert Serially(job, rowReset, s, 2) == WordStep(job, rowReset, t, 1);
    assert Fading(job, s, 2) == FadingStep(job, u, 1);
    forall r, column ensures Compute(job, r, column).1 == 0 {
      ClearedWord(job, r, column);
    }
  }

  /** The bus-cycle engine clears both words; in the immediate blitter D fades at address 0,
      and the second word is stored over the first. */
  lemma ClearsToZeroPart(job: Job, s: Serial, e: Engine, grants: seq<Grant>, bdat: Word)
    requires CycleProof.Begun(job, PlanOf(job), s, e) && ClearsToZero(job, s) && s.regs.fc == job.carryIn
    requires !Run(job, PlanOf(job), e, grants).clock.running
    ensures CycleOutcome(Run(job, PlanOf(job), e, grants)).memory == s.memory[1 := 0][0 := 0]
    ensures FastBlit(job, s, bdat).memory == s.memory[1 := 0]
  {
    hide Run, Blit, FastBlit, FadingBlit, PlanOf;
    CycleTheorems.CycleExactOutcome(job, s, e, grants);
    FadingOutcome(job, s, bdat);
    Clears(job, false, s);
  }

  /** One word copied from address 0: the bus-cycle engine copies the word, the
      immediate blitter the A data register. */
  lemma CopyFromZero(job: Job, s: Serial, bdat: Word)
    requires job.Valid() && job.h == 1 && job.v == 1 && !job.fill && !job.descending
    requires job.useA && !job.useB && !job.useC && job.useD && job.apt == 0 && job.dpt != 0
    requires job.minterm == 0xF0 && job.ashift == 0 && job.afwm == 0xFFFF && job.alwm == 0xFFFF
    requires s.regs.fc == job.carryIn
    ensures Blit(job, true, s).memory == Put(s.memory, job.span, job.dpt, Get(s.memory, job.span, 0))
    ensures FastBlit(job, s, bdat).memory == Put(s.memory, job.span, job.dpt, s.regs.adat)
  {
    assert Pointer(job, D, 0) == job.dpt && Pointer(Effective(job), D, 0) == job.dpt;
    assert NoNullPointer(Effective(job));
    NullStartIsOff(job, s, bdat);
    CopiesOneWord(job, s, Get(s.memory, job.span, 0));
    CopiesOneWord(Effective(job), s, s.regs.adat);
  }

  lemma CopiesOneWord(job: Job, s: Serial, data: Word)
    requires job.Valid() && job.h == 1 && job.v == 1 && !job.fill && !job.descending
    requires !job.useB && !job.useC && job.useD
    requires job.minterm == 0xF0 && job.ashift == 0 && job.afwm == 0xFFFF && job.alwm == 0xFFFF
    requires data == if job.useA then Get(s.memory, job.span, job.apt) else s.regs.adat
    ensures Blit(job, true, s).memory == Put(s.memory, job.span, job.dpt, data)
  {
    hide Minterm, Low, Shifter, Get, Put, Masked;
    assert Serially(job, true, s, 0) == s;
    assert Serially(job, true, s, 1) == WordStep(job, true, s, 0);
    assert 0 % job.h == 0;
    UnmaskedWord(data);
    CopyMinterm(Low(Shifter(false, 0, s.regs.aold, data)), s.regs.bhold, s.regs.cdat);
    UnshiftedWord(s.regs.aold, data);
  }

  lemma UnmaskedWord(w: Word)
    ensures Masked(w, 0xFFFF) == w
  {
  }

  lemma CopyMinterm(a: Word, b: Word, c: Word)
    ensures Minterm(0xF0, a, b, c) == a
  {
  }

  lemma UnshiftedWord(previous: Word, w: Word)
    ensures Low(Shifter(false, 0, previous, w)) == w
  {
  }
}
