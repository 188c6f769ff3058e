/** The blitter as the emulator keeps it: registers, counters and flags that are
    updated in place, and a chip memory that both engines write. */
module BlitterChip {
  import opened ChipMemory
  import opened DataPath
  import opened LogicUnit
  import opened BlitSpec
  import opened CycleEngine
  import opened FastLoop
  import opened Bits
  import opened ControlRegisters
  import BlitMeaning
  import CycleProof
  import FillProof

  /** The job a pair of control registers asks for, by their bit numbers. */
  ghost predicate Decoded(job: Job, con0: Word, con1: Word) {
    && (job.useA <==> WordBit(con0, 11)) && (job.useB <==> WordBit(con0, 10))
    && (job.useC <==> WordBit(con0, 9)) && (job.useD <==> WordBit(con0, 8))
    && LowHalf(con0, job.minterm) && HighNibble(con0, job.ashift) && HighNibble(con1, job.bshift)
    && (job.descending <==> WordBit(con1, 1)) && (job.carryIn <==> WordBit(con1, 2))
    && (job.fill <==> WordBit(con1, 3) || WordBit(con1, 4))
    && (job.inclusive <==> WordBit(con1, 3) && !WordBit(con1, 4))
  }

  function Index(d: bv8): (n: int)
    ensures 0 <= n < 256
  {
    d as int
  }

  function FromIndex(n: int): bv8
    requires 0 <= n < 256
  {
    n as bv8
  }

  lemma IndexInverts(d: bv8)
    ensures FromIndex(Index(d)) == d
  {
  }

  function Mode(inclusive: bool, carry: bool): (i: int)
    ensures 0 <= i < 4
  {
    (if inclusive then 2 else 0) + (if carry then 1 else 0)
  }

  class Blitter {
    const chip: array<Word>
    const span: nat
    const filltable: array2<(bv8, bool)>

    /** First and last word masks of the immediate loops, all ones between blits. */
    const masktable: array<Word>

    // Control, mask, modulo and size registers.
    var bltcon0: Word
    var bltcon1: Word
    var bltafwm: Word
    var bltalwm: Word
    var bltamod: int
    var bltbmod: int
    var bltcmod: int
    var bltdmod: int
    var hblitsize: nat
    var vblitsize: nat

    // What a start takes from the control registers.
    var job: Job
    var plan: Plan

    // Data registers, pointers, counters and flags.
    var regs: Regs
    var bdat: Word
    var reader: Reader
    var writer: Writer
    var pipe: Pipe
    var clock: Clock
    var idleD: bool

    ghost function State(): Engine
      reads this`regs, this`bdat, this`reader, this`writer, this`pipe, this`clock, this`idleD, chip
    {
      Engine(chip[..], regs, bdat, reader, writer, pipe, clock, idleD)
    }

    ghost predicate TableBuilt()
      reads filltable
    {
      filltable.Length0 == 256 && filltable.Length1 == 4
      && forall d: bv8, inclusive, carry {:trigger filltable[Index(d), Mode(inclusive, carry)]} ::
        filltable[Index(d), Mode(inclusive, carry)] == FillByte(inclusive, carry, d)
    }

    ghost predicate Ready()
      reads this, filltable
    {
      TableBuilt() && job.Valid() && job.span == span && plan == PlanOf(job)
    }

    // ----- Chip memory -----

    method ChipGet(address: int) returns (w: Word)
      requires span > 0
      ensures w == Get(chip[..], span, address)
    {
      var i := (address % span) / 2;
      if 0 <= i < chip.Length {
        w := chip[i];
      } else {
        w := 0;
      }
    }

    method ChipPut(address: int, w: Word)
      requires span > 0
      modifies chip
      ensures chip[..] == Put(old(chip[..]), span, address, w)
    {
      var i := (address % span) / 2;
      if 0 <= i < chip.Length {
        chip[i] := w;
      }
    }

    // ----- One word -----

    /** Two look-ups fill a word. */
    method Fill(carry: bool, w: Word) returns (out: Word, fc: bool)
      requires TableBuilt()
      ensures FillWord(job.inclusive, carry, w) == (out, fc)
    {
      hide FillByte, Index, Mode, LowByte, HighByte, JoinBytes;
      var (low, fc1) := filltable[Index(LowByte(w)), Mode(job.inclusive, carry)];
      var (high, fc2) := filltable[Index(HighByte(w)), Mode(job.inclusive, fc1)];
      out, fc := JoinBytes(low, high), fc2;
    }

    method MaskedA() returns (a: Word)
      ensures a == MaskA(job, reader.h1, regs.adat)
    {
      hide Masked;
      a := regs.adat;
      if reader.h1 == 0 {
        a := Masked(a, job.afwm);
      }
      if reader.h1 == job.h - 1 {
        a := Masked(a, job.alwm);
      }
    }

    /** The minterm of the masked and shifted A word and the other registers. */
    method Combined(a: Word) returns (ddat: Word)
      ensures ddat
           == Minterm(job.minterm, Low(Shifter(job.descending, job.ashift, regs.aold, a)), regs.bhold, regs.cdat)
    {
      hide Low, Shifter, Logic, Widen, Minterm;
      var ahold := Shifter(job.descending, job.ashift, regs.aold, a);
      ddat := Logic(job.minterm, ahold, Widen(regs.bhold), regs.cdat);
      LogicIsMinterm(job.minterm, ahold, Widen(regs.bhold), regs.cdat);
      LowOfWide(regs.bhold);
    }

    /** A word that is not zero clears the zero flag. */
    method NoteWord(ddat: Word)
      modifies this`regs
      ensures regs == old(regs).(zero := old(regs).zero && ddat == 0)
    {
      if ddat != 0 {
        regs := regs.(zero := false);
      }
    }

    /** One destination word from the registers. What stays of A is what the masks of its
        column let through. */
    method DoBlit() returns (ddat: Word)
      requires TableBuilt()
      modifies this`regs
      ensures (regs, ddat) == Compute(job, old(regs), reader.h1)
      ensures BlitMeaning.LetThrough(job, reader.h1, old(regs).adat, regs.aold)
    {
      hide Compute, BlitMeaning.LetThrough, TableBuilt;
      BlitMeaning.ComputeLetsThrough(job, regs, reader.h1);
      ddat := ComputeWord();
    }

    method ComputeWord() returns (ddat: Word)
      requires TableBuilt()
      modifies this`regs
      ensures (regs, ddat) == Compute(job, old(regs), reader.h1)
    {
      hide MaskA, Low, Shifter, Minterm, FillWord, TableBuilt;
      var a := MaskedA();
      ddat := Combined(a);
      regs := regs.(aold := a);
      if job.fill {
        var fc;
        ddat, fc := Fill(regs.fc, ddat);
        regs := regs.(fc := fc);
      }
      NoteWord(ddat);
    }

    /** Stores a word and moves the destination side on. */
    method StoreOut(d: Word)
      requires Ready()
      modifies this`reader, this`writer, chip
      ensures State() == StoreWord(job, plan, old(State()), d)
    {
      hide PlanOf, Put, Bump, Skip, TableBuilt;
      ChipPut(writer.dpt, d);
      var dpt := Bump(job, writer.dpt);
      if writer.h2 + 1 == job.h {
        writer := Writer(Skip(job, D, dpt), 0, writer.v2 + 1);
        if plan.sources == 0 {
          reader := reader.(v1 := reader.v1 + 1);
        }
        if writer.v2 > reader.v1 {
          reader := reader.(v1 := writer.v2);
        }
      } else {
        writer := Writer(dpt, writer.h2 + 1, writer.v2);
      }
      if ChannelSet(job) == 1 {
        reader := reader.(h1 := writer.h2);
      }
    }

    /** The D slot. */
    method DoDdma()
      requires Ready()
      modifies this`regs, this`pipe, this`reader, this`writer, this`idleD, chip
      ensures State() == StoreSlot(job, plan, old(State()))
    {
      hide Compute, PlanOf, StoreWord;
      var d: Word;
      if plan.sources == 0 {
        d := DoBlit();
      } else if pipe.use2 {
        d := pipe.ddat2;
        pipe := pipe.(use2 := false);
      } else if pipe.use1 {
        d := pipe.ddat1;
        pipe := pipe.(use1 := false);
      } else {
        idleD := true;
        return;
      }
      StoreOut(d);
    }

    method FetchWord(c: int)
      requires Ready() && 1 <= c <= 3
      modifies this`regs, this`bdat, this`reader
      ensures State() == FetchData(job, old(State()), c)
    {
      hide PlanOf, Get, Low, Shifter;
      if c == 1 {
        var data := ChipGet(reader.apt);
        regs := FetchA(regs, data);
        reader := reader.(apt := Bump(job, reader.apt));
      } else if c == 2 {
        bdat := ChipGet(reader.bpt);
        regs := FetchB(job, regs, bdat);
        reader := reader.(bpt := Bump(job, reader.bpt));
      } else {
        var data := ChipGet(reader.cpt);
        regs := FetchC(regs, data);
        reader := reader.(cpt := Bump(job, reader.cpt));
      }
    }

    /** The source side moves to the next column, and at the end of a row to the
        next row. */
    method NextColumn()
      modifies this`reader, this`regs
      ensures reader == NextRead(job, old(reader).(fetched := 0))
      ensures regs == if old(reader).h1 + 1 == job.h then old(regs).(fc := job.carryIn) else old(regs)
    {
      reader := reader.(fetched := 0, h1 := reader.h1 + 1);
      if reader.h1 == job.h {
        reader := reader.(h1 := 0);
        if job.useA {
          reader := reader.(apt := Skip(job, A, reader.apt));
        }
        if job.useB {
          reader := reader.(bpt := Skip(job, B, reader.bpt));
        }
        if job.useC {
          reader := reader.(cpt := Skip(job, C, reader.cpt));
        }
        reader := reader.(v1 := reader.v1 + 1);
        regs := regs.(fc := job.carryIn);
      }
    }

    /** A source slot. */
    method DoDma(c: int)
      requires Ready() && 1 <= c <= 3
      modifies this`regs, this`bdat, this`pipe, this`reader
      ensures State() == FetchSlot(job, plan, old(State()), c)
    {
      hide Compute, PlanOf, FetchData;
      FetchWord(c);
      reader := reader.(fetched := reader.fetched + 1);
      if reader.fetched >= plan.sources {
        var d := DoBlit();
        pipe := Push(job, pipe, d);
        NextColumn();
      }
    }

    /** An idle slot. */
    method Idle()
      modifies this`clock, this`pipe
      ensures State() == IdleSlot(job, old(State()))
    {
      hide Done;
      CountCycle();
      if clock.cycle == 0 {
        clock := clock.(final := false);
      }
      if ChannelSet(job) == 0 && clock.cycle >= job.h * job.v + 2 {
        BlitterDone();
      }
    }

    /** One bus slot. */
    method Slot(g: Grant)
      requires Ready()
      modifies this`regs, this`bdat, this`pipe, this`reader, this`writer, this`clock, this`idleD, chip
      ensures State() == CycleEngine.Slot(job, plan, old(State()), g)
    {
      hide PlanOf, TransferSlot, IdleSlot, ChannelState, TableBuilt, CurrentDiagram, ExtraIdle;
      var c := ChannelState(CurrentDiagram(plan, clock.final), clock.cycle);
      if clock.waiting {
        clock := clock.(waiting := false);
      } else if (clock.cycle < 0 || !clock.final || ExtraIdle(job)) && ((c == 0 && g == Taken) || g == Off) {
        clock := clock.(missed := clock.missed + 1);
      } else if c == 0 {
        Idle();
      } else if g != Free {
        clock := clock.(missed := clock.missed + 1);
      } else {
        CycleProof.SlotsAreChannels(job, clock.final, clock.cycle);
        Transfer(c);
      }
    }

    method Transfer(c: int)
      requires Ready() && 1 <= c <= 4
      modifies this`regs, this`bdat, this`pipe, this`reader, this`writer, this`clock, this`idleD, chip
      ensures State() == TransferSlot(job, plan, old(State()), c)
    {
      hide PlanOf, StoreSlot, FetchSlot, TableBuilt, Done;
      if c == 4 {
        DoDdma();
      } else if reader.v1 < job.v {
        DoDma(c);
      }
      CountCycle();
      CheckDone();
    }

    method CountCycle()
      modifies this`clock
      ensures State() == Advance(old(State()))
    {
      clock := clock.(cycle := clock.cycle + 1, total := clock.total + 1);
    }

    method CheckDone()
      modifies this`pipe, this`clock
      ensures State() ==
        if reader.v1 >= job.v && writer.v2 >= job.v && !old(pipe).use1 && !old(pipe).use2
        then Done(old(State())) else old(State())
    {
      if reader.v1 >= job.v && writer.v2 >= job.v && !pipe.use1 && !pipe.use2 {
        BlitterDone();
      }
    }

    method BlitterDone()
      modifies this`pipe, this`clock
      ensures State() == Done(old(State()))
    {
      pipe := pipe.(use1 := false, use2 := false);
      clock := clock.(running := false, irq := true);
    }

    /** A stretch of bus slots: every slot is offered to the blitter in turn, and
        after the last round the finish interrupt is raised. */
    method DecideBlitter(grants: seq<Grant>)
      requires Ready()
      modifies this`regs, this`bdat, this`pipe, this`reader, this`writer, this`clock, this`idleD, chip
      ensures State() == Run(job, plan, old(State()), grants)
    {
      hide PlanOf, CycleEngine.Slot, EndOfRounds, TableBuilt;
      var n := 0;
      while n < |grants| && clock.running
        invariant 0 <= n <= |grants|
        invariant State() == Run(job, plan, old(State()), grants[..n])
      {
        assert grants[..n + 1][..n] == grants[..n];
        Slot(grants[n]);
        if clock.running {
          RoundsEnd(grants[n]);
        }
        n := n + 1;
      }
      RunStops(job, plan, old(State()), grants, n);
      assert grants[..|grants|] == grants;
    }

    method RoundsEnd(g: Grant)
      requires Ready()
      modifies this`clock
      ensures State() == EndOfRounds(job, plan, old(State()), g)
    {
      hide PlanOf, TableBuilt, ChannelPos;
      if g != Off && !clock.final
         && (reader.v1 == job.v || (reader.v1 == job.v - 1 && reader.h1 == job.h - 1 && plan.sources == 0))
         && ChannelPos(plan.diag, clock.cycle - 1) == plan.diag[0] - 1 {
        clock := clock.(irq := true, cycle := 0, final := true);
      }
    }

    // ----- Starting a blit -----

    /** The blit the registers ask for. */
    function Asked(): Job
      reads this`bltcon0, this`bltcon1, this`bltafwm, this`bltalwm, this`hblitsize, this`vblitsize
      reads this`bltamod, this`bltbmod, this`bltcmod, this`bltdmod, this`reader, this`writer
    {
      Job(OnA(bltcon0), OnB(bltcon0), OnC(bltcon0), OnD(bltcon0),
        MintermOf(bltcon0), ShiftOf(bltcon0), ShiftOf(bltcon1),
        Descending(bltcon1), Inclusive(bltcon1) || Exclusive(bltcon1),
        Inclusive(bltcon1) && !Exclusive(bltcon1), CarryIn(bltcon1),
        bltafwm, bltalwm, hblitsize, vblitsize,
        bltamod, bltbmod, bltcmod, bltdmod,
        reader.apt, reader.bpt, reader.cpt, writer.dpt, span)
    }

    /** The job is what the registers say, field by field. */
    ghost predicate TakenOver(reader: Reader, dpt: int)
      reads this`job, this`bltcon0, this`bltcon1, this`bltafwm, this`bltalwm, this`hblitsize, this`vblitsize
      reads this`bltamod, this`bltbmod, this`bltcmod, this`bltdmod
    {
      && Decoded(job, bltcon0, bltcon1)
      && job.h == hblitsize && job.v == vblitsize && job.afwm == bltafwm && job.alwm == bltalwm
      && job.amod == bltamod && job.bmod == bltbmod && job.cmod == bltcmod && job.dmod == bltdmod
      && job.apt == reader.apt && job.bpt == reader.bpt && job.cpt == reader.cpt && job.dpt == dpt
    }

    /** Counts the slots of the later rounds. */
    static method CountSlots(diag: seq<int>) returns (sources: nat, nod: bool)
      requires DiagramShape(diag)
      ensures sources == SourceSlots(diag, diag[0]) && nod == !HasStoreSlot(diag, diag[0])
    {
      sources, nod := 0, true;
      for i := 0 to diag[0]
        invariant sources == SourceSlots(diag, i) && nod == !HasStoreSlot(diag, i)
      {
        var v := diag[1 + diag[0] + i];
        if 0 < v < 4 {
          sources := sources + 1;
        }
        if v == 4 {
          nod := false;
        }
      }
    }

    /** A blit starts: the control registers are taken over, the barrel shifters
        are emptied and the counters cleared.  `copper` delays the first slot. */
    method Start(copper: bool)
      requires TableBuilt() && Asked().Valid() && reader.fetched == 0
      modifies this`job, this`plan, this`regs, this`reader, this`writer, this`pipe, this`clock, this`idleD
      ensures Ready() && TakenOver(old(reader), old(writer).dpt)
      ensures regs == old(regs).(aold := 0, bold := 0, fc := job.carryIn, zero := true)
      ensures clock == Clock(-2, 0, 0, copper, old(clock).final, false, true)
      ensures reader == Reader(job.apt, job.bpt, job.cpt, 0, 0, 0) && writer.dpt == job.dpt
      ensures ChannelSet(job) != 0 ==> CycleProof.Begun(job, plan, Serial(chip[..], regs, 0), State())
    {
      hide CycleProof.Fits, PlanOf, ChannelSet, TableBuilt, Decoded;
      TakeOver();
      ClearCounters(copper);
      if ChannelSet(job) != 0 {
        CycleProof.DiagramsFit(job);
      }
    }

    /** Empties the shifters and starts all counters. */
    method ClearCounters(copper: bool)
      modifies this`regs, this`reader, this`writer, this`pipe, this`clock, this`idleD
      ensures regs == old(regs).(aold := 0, bold := 0, fc := job.carryIn, zero := true)
      ensures reader == old(reader).(h1 := 0, v1 := 0)
      ensures writer == old(writer).(h2 := 0, v2 := if plan.nod then vblitsize else 0)
      ensures !pipe.use1 && !pipe.use2 && !idleD
      ensures clock == Clock(-2, 0, 0, copper, old(clock).final, false, true)
    {
      regs := regs.(aold := 0, bold := 0, fc := job.carryIn, zero := true);
      reader := reader.(h1 := 0, v1 := 0);
      writer := writer.(h2 := 0, v2 := if plan.nod then vblitsize else 0);
      pipe := pipe.(use1 := false, use2 := false);
      clock := Clock(-2, 0, 0, copper, clock.final, false, true);
      idleD := false;
    }

    /** Decodes the control registers and looks up the cycle diagram. */
    method TakeOver()
      requires TableBuilt() && Asked().Valid()
      modifies this`job, this`plan
      ensures Ready() && TakenOver(reader, writer.dpt)
    {
      hide ShiftOf, MintermOf, TableBuilt, OnA, OnB, OnC, OnD, Descending, Inclusive, Exclusive, CarryIn, Decoded;
      job := Asked();
      AskedDecodes(job, bltcon0, bltcon1);
      var ch := ChannelSet(job);
      var diag := if job.fill && FillDiagram(ch)[0] != 0 then FillDiagram(ch) else Diagram(ch);
      var sources, nod := CountSlots(diag);
      plan := Plan(diag, sources, nod);
    }

    // ----- The fill table -----

    /** Fills one byte bit by bit. */
    static method FillEntry(d: bv8, inclusive: bool, carry: bool) returns (data: bv8, fc: bool)
      ensures (data, fc) == FillByte(inclusive, carry, d)
    {
      hide ByteBits, PackByte, FillBits, FillProof.TestBit, FillProof.WithBit, FillProof.FlipBit, FillProof.BitMask;
      data, fc := d, carry;
      FillProof.FillOfNothing(inclusive, carry);
      assert ByteBits(d)[..0] == [];
      for k := 0 to 8
        invariant FillProof.FilledUpTo(inclusive, carry, ByteBits(d), ByteBits(data), fc, k)
      {
        var before, c := data, fc;
        var mask := FillProof.BitMask(k);
        var bit := FillProof.TestBit(before, mask);
        FillProof.TestBitIsBit(before, k);
        FillProof.SetOneBit(before, k);
        FillProof.FlipOneBit(before, k);
        if fc {
          data := if inclusive then FillProof.WithBit(data, mask) else FillProof.FlipBit(data, mask);
        }
        if bit {
          fc := !fc;
        }
        FillProof.FillOneMore(inclusive, carry, ByteBits(d), ByteBits(before), c, k, ByteBits(data), fc);
      }
      FillProof.PackUnpacked(data);
      assert ByteBits(data)[..8] == ByteBits(data) && ByteBits(d)[..8] == ByteBits(d);
    }

    /** Fills the table for every byte, mode and carry. */
    method BuildFillTable()
      requires filltable.Length0 == 256 && filltable.Length1 == 4
      modifies filltable
      ensures TableBuilt()
    {
      hide FillByte;
      for n := 0 to 256
        invariant forall m, i {:trigger filltable[m, i]} :: 0 <= m < n && 0 <= i < 4 ==>
          filltable[m, i] == FillByte(i >= 2, i % 2 == 1, FromIndex(m))
      {
        for j := 0 to 4
          invariant forall m, i {:trigger filltable[m, i]} :: 0 <= m < n && 0 <= i < 4 ==>
            filltable[m, i] == FillByte(i >= 2, i % 2 == 1, FromIndex(m))
          invariant forall i {:trigger filltable[n, i]} :: 0 <= i < j ==>
            filltable[n, i] == FillByte(i >= 2, i % 2 == 1, FromIndex(n))
        {
          var data, fc := FillEntry(FromIndex(n), j >= 2, j % 2 == 1);
          filltable[n, j] := (data, fc);
        }
      }
      forall d: bv8, inclusive, carry
        ensures filltable[Index(d), Mode(inclusive, carry)] == FillByte(inclusive, carry, d)
      {
        IndexInverts(d);
      }
    }

    // ----- The immediate blitter -----

    ghost predicate MasksIdle()
      reads masktable
    {
      forall i {:trigger masktable[i]} :: 0 <= i < masktable.Length ==> masktable[i] == 0xFFFF
    }

    /** The first column has the first mask, the last one the last mask, a single one both. */
    ghost predicate EdgesSet()
      requires 0 < job.h <= masktable.Length
      reads this`job, masktable
    {
      && masktable[0] == (if job.h == 1 then Masked(job.afwm, job.alwm) else job.afwm)
      && (job.h > 1 ==> masktable[job.h - 1] == job.alwm)
    }

    /** The table masks a column as the first and last word masks ask for. */
    ghost predicate MasksSet()
      reads this`job, masktable
    {
      job.h <= masktable.Length
      && forall i, data: Word {:trigger Masked(data, masktable[i])} :: 0 <= i < job.h ==>
        Masked(data, masktable[i]) == MaskA(job, i, data)
    }

    /** The loop variables next to the memory they work on. */
    ghost function Loop(inp: Inputs, ptr: Locals, out: Output): Fast
      reads chip
    {
      Fast(chip[..], inp, ptr, out)
    }

    method GetA(inp: Inputs, ptr: Locals, ghost out: Output) returns (inp1: Inputs, ptr1: Locals)
      requires job.span == span > 0
      ensures Loop(inp1, ptr1, out) == ReadA(job, Loop(inp, ptr, out))
    {
      hide Bump, Get;
      inp1, ptr1 := inp, ptr;
      if ptr.qa != 0 {
        var data := ChipGet(ptr.qa);
        inp1, ptr1 := inp.(adat := data), ptr.(qa := Bump(job, ptr.qa));
      }
    }

    method GetB(inp: Inputs, ptr: Locals, ghost out: Output) returns (inp1: Inputs, ptr1: Locals)
      requires job.span == span > 0
      ensures Loop(inp1, ptr1, out) == ReadB(job, Loop(inp, ptr, out))
    {
      hide Bump, Get, Shifter;
      inp1, ptr1 := inp, ptr;
      if ptr.qb != 0 {
        var data := ChipGet(ptr.qb);
        inp1 := inp.(bhold := Shifter(job.descending, job.bshift, inp.bold, data), bold := data, bdat := data);
        ptr1 := ptr.(qb := Bump(job, ptr.qb));
      }
    }

    method GetC(inp: Inputs, ptr: Locals, ghost out: Output, mirrored: bool) returns (inp1: Inputs, ptr1: Locals)
      requires job.span == span > 0
      ensures Loop(inp1, ptr1, out) == ReadC(job, Loop(inp, ptr, out), mirrored)
    {
      hide Bump, Get;
      inp1, ptr1 := inp, ptr;
      if ptr.qc != 0 {
        var data := ChipGet(ptr.qc);
        inp1 := inp.(cdat := data, bdat := if mirrored then data else inp.bdat);
        ptr1 := ptr.(qc := Bump(job, ptr.qc));
      }
    }

    method ShiftA(inp: Inputs, i: int) returns (ahold: bv32, inp1: Inputs)
      requires MasksSet() && 0 <= i < job.h
      ensures (ahold, inp1) == HoldA(job, inp, i)
    {
      hide Masked, MaskA, Shifter;
      var a := Masked(inp.adat, masktable[i]);
      ahold := Shifter(job.descending, job.ashift, inp.aold, a);
      inp1 := inp.(aold := a);
    }

    /** Reads of one column: all sources, or those a specialised loop needs. */
    method ReadColumn(inp: Inputs, ptr: Locals, ghost out: Output, i: int)
        returns (ahold: bv32, inp1: Inputs, ptr1: Locals)
      requires job.span == span > 0 && MasksSet() && 0 <= i < job.h
      ensures (ahold, Loop(inp1, ptr1, out))
          == var f := Loop(inp, ptr, out); if Special(job) then SpecialReads(job, f, i) else GenericReads(job, f, i)
    {
      hide ReadA, ReadB, ReadC, HoldA, Special, ReadsA, ReadsB, ReadsC, MasksSet;
      inp1, ptr1 := inp, ptr;
      if Special(job) {
        if ReadsC(job.minterm) {
          inp1, ptr1 := GetC(inp1, ptr1, out, false);
        }
        if ReadsB(job.minterm) {
          inp1, ptr1 := GetB(inp1, ptr1, out);
        }
        if ReadsA(job.minterm) {
          inp1, ptr1 := GetA(inp1, ptr1, out);
        }
        var held;
        ahold, held := ShiftA(inp1, i);
        if ReadsA(job.minterm) {
          inp1 := held;
        }
      } else {
        inp1, ptr1 := GetA(inp1, ptr1, out);
        ahold, inp1 := ShiftA(inp1, i);
        inp1, ptr1 := GetB(inp1, ptr1, out);
        inp1, ptr1 := GetC(inp1, ptr1, out, job.descending);
      }
    }

    /** The word before goes to memory, the new one waits for its turn. */
    method EmitColumn(inp: Inputs, ptr: Locals, out: Output, d: Word) returns (ptr1: Locals, out1: Output)
      requires job.span == span > 0 && TableBuilt()
      modifies chip
      ensures Loop(inp, ptr1, out1) == Emit(job, Special(job), old(Loop(inp, ptr, out)), d)
    {
      hide Special, Put, Bump, FillWord, TableBuilt, Gather;
      var pending := if Special(job) then out.target != 0 else out.pending;
      if pending {
        ChipPut(out.target, out.ddat);
      }
      var ddat, fc := d, out.fc;
      if job.fill {
        ddat, fc := Fill(out.fc, d);
      }
      ptr1, out1 := ptr, out.(ddat := ddat, fc := fc, seen := Gather(out.seen, ddat));
      if ptr.qd != 0 {
        out1 := out1.(pending := true, target := ptr.qd);
        ptr1 := ptr.(qd := Bump(job, ptr.qd));
      }
    }

    /** One row of the immediate loops. */
    method FastRow(inp: Inputs, ptr: Locals, out: Output) returns (inp1: Inputs, ptr1: Locals, out1: Output)
      requires job.span == span > 0 && TableBuilt() && MasksSet() && chip != masktable
      modifies chip
      ensures Loop(inp1, ptr1, out1) == EndRow(job, Columns(job, Special(job), old(Loop(inp, ptr, out)), job.h))
    {
      hide TableBuilt, MasksSet, Emit, Logic, GenericReads, SpecialReads, Special, Skip;
      inp1, ptr1, out1 := inp, ptr, out.(fc := job.carryIn);
      for i := 0 to job.h
        invariant Loop(inp1, ptr1, out1) == Columns(job, Special(job), old(Loop(inp, ptr, out)), i)
      {
        var ahold;
        ahold, inp1, ptr1 := ReadColumn(inp1, ptr1, out1, i);
        ptr1, out1 := EmitColumn(inp1, ptr1, out1, Logic(job.minterm, ahold, inp1.bhold, inp1.cdat));
      }
      if ptr1.qa != 0 {
        ptr1 := ptr1.(qa := Skip(job, A, ptr1.qa));
      }
      if ptr1.qb != 0 {
        ptr1 := ptr1.(qb := Skip(job, B, ptr1.qb));
      }
      if ptr1.qc != 0 {
        ptr1 := ptr1.(qc := Skip(job, C, ptr1.qc));
      }
      if ptr1.qd != 0 {
        ptr1 := ptr1.(qd := Skip(job, D, ptr1.qd));
      }
    }

    method SetMasks()
      requires MasksIdle() && 0 < job.h <= masktable.Length
      modifies masktable
      ensures MasksSet()
      ensures EdgesSet()
      ensures forall i :: 0 < i < masktable.Length && i != job.h - 1 ==> masktable[i] == 0xFFFF
    {
      hide Masked, MaskA;
      MaskOfMask(job.alwm, 0xFFFF, 0xFFFF);
      masktable[0] := job.afwm;
      masktable[job.h - 1] := Masked(masktable[job.h - 1], job.alwm);
      forall i, data: Word | 0 <= i < job.h
        ensures Masked(data, masktable[i]) == MaskA(job, i, data)
      {
        EntryMasks(job, i, data, masktable[i]);
      }
    }

    method ClearMasks()
      requires 0 < job.h <= masktable.Length
      requires forall i :: 0 < i < masktable.Length && i != job.h - 1 ==> masktable[i] == 0xFFFF
      modifies masktable
      ensures MasksIdle()
    {
      masktable[0] := 0xFFFF;
      masktable[job.h - 1] := 0xFFFF;
    }

    /** The whole blit at once. */
    method DoFast()
      requires Ready() && MasksIdle() && job.h <= masktable.Length && chip != masktable
      requires reader.apt == job.apt && reader.bpt == job.bpt && reader.cpt == job.cpt && writer.dpt == job.dpt
      modifies this`regs, this`bdat, this`reader, this`writer, this`clock, chip, masktable
      ensures Outcome(chip[..], reader.apt, reader.bpt, reader.cpt, writer.dpt, regs.zero)
           == FastBlit(job, Serial(old(chip[..]), old(regs), 0), old(bdat))
      ensures MasksIdle() && !clock.running
    {
      hide TableBuilt, MasksSet, Special, PlanOf, Put, Columns, EndRow, FinalPointer, Widen, Low, Blitter.EdgesSet;
      ghost var s := Serial(chip[..], regs, 0);
      ghost var start := Enter(job, s, bdat);
      SetMasks();
      var inp, ptr := EnterLoops();
      var out := Output(0, false, 0, regs.fc, 0);
      AdvancePointers();
      ghost var rd, wr, masks := reader, writer, masktable[..];
      for j := 0 to job.v
        invariant Loop(inp, ptr, out) == Rows(job, Special(job), start, j)
        invariant MasksSet() && masktable[..] == masks
        invariant regs == old(regs) && reader == rd && writer == wr
      {
        inp, ptr, out := FastRow(inp, ptr, out);
      }
      StorePending(inp, ptr, out);
      regs := Regs(inp.adat, inp.aold, inp.bold, Low(inp.bhold), inp.cdat, out.fc, regs.zero && out.seen == 0);
      bdat := inp.bdat;
      assert forall i :: 0 <= i < masktable.Length ==> masktable[i] == masks[i];
      ClearMasks();
      clock := clock.(running := false);
    }

    /** The last word of the loops goes to memory. */
    method StorePending(inp: Inputs, ptr: Locals, out: Output)
      requires Ready() && chip != masktable
      modifies chip
      ensures chip[..] == StoreLast(job, Special(job), old(Loop(inp, ptr, out)))
    {
      hide TableBuilt, Special, PlanOf, Put;
      var pending := if Special(job) then out.target != 0 else out.pending;
      if pending {
        ChipPut(out.target, out.ddat);
      }
    }

    /** The loops' own copies of the data registers, and of the pointers in use. */
    method EnterLoops() returns (inp: Inputs, ptr: Locals)
      requires reader.apt == job.apt && reader.bpt == job.bpt && reader.cpt == job.cpt && writer.dpt == job.dpt
      ensures Loop(inp, ptr, Output(0, false, 0, regs.fc, 0)) == Enter(job, Serial(chip[..], regs, 0), bdat)
    {
      hide Widen;
      inp := Inputs(regs.adat, regs.aold, bdat, regs.bold, Widen(regs.bhold), regs.cdat);
      ptr := Locals(0, 0, 0, 0);
      if job.useA {
        ptr := ptr.(qa := reader.apt);
      }
      if job.useB {
        ptr := ptr.(qb := reader.bpt);
      }
      if job.useC {
        ptr := ptr.(qc := reader.cpt);
      }
      if job.useD {
        ptr := ptr.(qd := writer.dpt);
      }
    }

    /** The pointer registers are moved past the blit in one step. */
    method AdvancePointers()
      requires reader.apt == job.apt && reader.bpt == job.bpt && reader.cpt == job.cpt && writer.dpt == job.dpt
      modifies this`reader, this`writer
      ensures reader.apt == FinalPointer(job, A) && reader.bpt == FinalPointer(job, B)
      ensures reader.cpt == FinalPointer(job, C) && writer.dpt == FinalPointer(job, D)
    {
      hide Wrap;
      if job.useA {
        reader := reader.(apt := Wrap(reader.apt + job.Sign() * ((job.h * 2 + job.amod) * job.v)));
      }
      if job.useB {
        reader := reader.(bpt := Wrap(reader.bpt + job.Sign() * ((job.h * 2 + job.bmod) * job.v)));
      }
      if job.useC {
        reader := reader.(cpt := Wrap(reader.cpt + job.Sign() * ((job.h * 2 + job.cmod) * job.v)));
      }
      if job.useD {
        writer := writer.(dpt := Wrap(writer.dpt + job.Sign() * ((job.h * 2 + job.dmod) * job.v)));
      }
    }
  }

  /** A finished blit takes no more slots. */
  lemma {:induction false} RunStops(job: Job, plan: Plan, e: Engine, grants: seq<Grant>, n: nat)
    requires job.span > 0 && DiagramShape(plan.diag) && n <= |grants|
    requires n < |grants| ==> !Run(job, plan, e, grants[..n]).clock.running
    ensures Run(job, plan, e, grants) == Run(job, plan, e, grants[..n])
  {
    hide Tick;
    if n < |grants| {
      var shorter := grants[..|grants| - 1];
      assert shorter[..n] == grants[..n];
      RunStops(job, plan, e, shorter, n);
    } else {
      assert grants[..n] == grants;
    }
  }

  lemma AskedDecodes(job: Job, con0: Word, con1: Word)
    requires job.useA == OnA(con0) && job.useB == OnB(con0) && job.useC == OnC(con0) && job.useD == OnD(con0)
    requires job.minterm == MintermOf(con0) && job.ashift == ShiftOf(con0) && job.bshift == ShiftOf(con1)
    requires job.descending == Descending(con1) && job.carryIn == CarryIn(con1)
    requires job.fill == (Inclusive(con1) || Exclusive(con1))
    requires job.inclusive == (Inclusive(con1) && !Exclusive(con1))
    ensures Decoded(job, con0, con1)
  {
    hide WordBit, LowHalf, HighNibble, OnA, OnB, OnC, OnD, MintermOf, ShiftOf, Descending, CarryIn, Inclusive,
         Exclusive;
    ChannelBits(con0);
    ModeBits(con1);
    MintermIsLowHalf(con0);
    ShiftBits(con0);
    ShiftBits(con1);
  }

  lemma EntryMasks(job: Job, i: int, data: Word, mask: Word)
    requires 0 <= i < job.h
    requires mask == if i == 0 then (if job.h == 1 then Masked(job.afwm, job.alwm) else job.afwm)
                     else if i == job.h - 1 then job.alwm else 0xFFFF
    ensures Masked(data, mask) == MaskA(job, i, data)
  {
    hide Masked;
    MaskOfMask(data, job.afwm, job.alwm);
  }

  lemma MaskOfMask(data: Word, x: Word, y: Word)
    ensures Masked(data, Masked(x, y)) == Masked(Masked(data, x), y)
    ensures Masked(data, 0xFFFF) == data == Masked(0xFFFF, data)
  {
  }
}
