/** The line drawers as the emulator keeps them: registers updated pixel by pixel
    over a chip memory. */
module LineChip {
  import opened Bits
  import opened ChipMemory
  import opened ControlRegisters
  import opened DataPath
  import opened LogicUnit
  import opened CycleEngine
  import opened LineSpec
  import opened ShifterProof

  /** The line a pair of control registers asks for, by their bit numbers. */
  ghost predicate Decoded(job: LineJob, con0: Word, con1: Word) {
    && (job.useA <==> WordBit(con0, 11)) && (job.useC <==> WordBit(con0, 9)) && LowHalf(con0, job.minterm)
    && (job.single <==> WordBit(con1, 1)) && (job.aul <==> WordBit(con1, 2))
    && (job.sul <==> WordBit(con1, 3)) && (job.sud <==> WordBit(con1, 4))
  }

  lemma FieldsDecode(job: LineJob, con0: Word, con1: Word)
    requires job.useA == OnA(con0) && job.useC == OnC(con0) && job.minterm == MintermOf(con0)
    requires job.single == SingleDot(con1) && job.aul == AlwaysBack(con1)
    requires job.sul == SometimesBack(con1) && job.sud == SometimesRows(con1)
    ensures Decoded(job, con0, con1)
  {
    hide WordBit, LowHalf, OnA, OnC, MintermOf, SingleDot, AlwaysBack, SometimesBack, SometimesRows;
    ChannelBits(con0);
    LineBits(con1);
    MintermIsLowHalf(con0);
  }

  /** The number in the highest four bits. */
  function ShiftNumber(con: Word): (n: int)
    ensures 0 <= n < 16
    ensures n == (if WordBit(con, 15) then 8 else 0) + (if WordBit(con, 14) then 4 else 0)
               + (if WordBit(con, 13) then 2 else 0) + (if WordBit(con, 12) then 1 else 0)
  {
    (con >> 12) as int
  }

  function MovedDown(p: bv32, s: Shift): bv32 { p >> s }
  function MovedUp(p: bv32, s: Shift): bv32 { p << (16 - s) }

  /** A texture turned to the right. */
  function Turned(w: Word, shift: Shift): Word {
    Low(BitOr(MovedDown(Widen(w), shift), MovedUp(Widen(w), shift)))
  }

  lemma MovedDownBit(p: bv32, s: Shift, i: bv32)
    requires p <= 0xFFFF && i < 16
    ensures i + s < 32 && Bit(MovedDown(p, s), i) == (i + s < 16 && Bit(p, i + s))
  {
  }

  lemma MovedUpBit(p: bv32, s: Shift, i: bv32)
    requires p <= 0xFFFF && i < 16
    ensures i + s >= 16 ==> i + s - 16 < 16
    ensures Bit(MovedUp(p, s), i) == (i + s >= 16 && Bit(p, i + s - 16))
  {
  }

  lemma TurnedBit(w: Word, shift: Shift, i: bv32)
    requires i < 16
    ensures if i + shift < 16 then i + shift < 32 else i + shift - 16 < 16
    ensures WordBit(Turned(w, shift), i) == WordBit(w, if i + shift < 16 then i + shift else i + shift - 16)
  {
    hide WordBit, Bit, BitOr, Low, Widen, MovedDown, MovedUp;
    var p := Widen(w);
    Places(i, shift);
    WideBit(w, i);
    LowBit(BitOr(MovedDown(p, shift), MovedUp(p, shift)), i);
    BitOfOr(MovedDown(p, shift), MovedUp(p, shift), i);
    MovedDownBit(p, shift, i);
    MovedUpBit(p, shift, i);
    if i + shift < 16 {
      WideBit(w, i + shift);
    } else {
      WideBit(w, i + shift - 16);
    }
  }

  class LineDrawer {
    const chip: array<Word>
    const span: nat
    var job: LineJob
    var width: int

    var pen: Pen
    var apt: int
    var sign: bool
    var cdat: Word
    var ddat: Word
    var texture: Word
    var left: int
    var zero: bool

    var clock: Clock

    var bltcon0: Word
    var bltcon1: Word
    var bltafwm: Word
    var bltadat: Word
    var bltbdat: Word
    var bltamod: int
    var bltbmod: int
    var bltcmod: int
    var vblitsize: nat

    ghost function Drawing(): Line
      reads this`pen, this`apt, this`sign, this`cdat, this`ddat, this`texture, this`left, this`zero, chip
    {
      Line(chip[..], pen, apt, sign, cdat, ddat, texture, left, zero)
    }

    ghost function State(): LineEngine
      reads this`pen, this`apt, this`sign, this`cdat, this`ddat, this`texture, this`left, this`zero, chip
      reads this`clock
    {
      LineEngine(Drawing(), clock)
    }

    ghost predicate Ready()
      reads this`job, this`pen, this`apt, this`sign, this`cdat, this`ddat, this`texture, this`left, this`zero, chip
    {
      job.span == span && Valid(job, Drawing())
    }

    // ----- Registers -----

    /** The place of the pen in its word is set when the register is written. */
    method WriteControl0(v: Word)
      modifies this`bltcon0, this`pen
      ensures bltcon0 == v && pen == old(pen).(shift := ShiftNumber(v))
    {
      bltcon0 := v;
      pen := pen.(shift := ShiftNumber(v));
    }

    /** And so is the sign of the error. */
    method WriteControl1(v: Word)
      modifies this`bltcon1, this`sign
      ensures bltcon1 == v && (sign <==> WordBit(v, 6))
    {
      LineBits(v);
      bltcon1 := v;
      sign := SignSet(v);
    }

    /** A line starts: the registers are taken over, and the texture is turned. */
    method Start()
      requires span > 0 && 0 <= pen.shift < 16
      modifies this`job, this`texture, this`pen, this`left, this`zero
      ensures Ready() && Decoded(job, bltcon0, bltcon1)
      ensures job.amod == bltamod && job.bmod == bltbmod && job.cmod == bltcmod
      ensures job.afwm == bltafwm && job.blinea == bltadat
      ensures texture == Turned(bltbdat, ShiftOf(bltcon1))
      ensures pen == old(pen).(onedot := 0, pixel := false, started := false)
      ensures left == vblitsize && zero
    {
      hide OnA, OnC, MintermOf, ShiftOf, SingleDot, AlwaysBack, SometimesBack, SometimesRows, Turned, Decoded;
      job := LineJob(OnA(bltcon0), OnC(bltcon0), MintermOf(bltcon0),
        SometimesRows(bltcon1), SometimesBack(bltcon1), AlwaysBack(bltcon1), SingleDot(bltcon1),
        bltamod, bltbmod, bltcmod, bltafwm, bltadat, span);
      texture := Turned(bltbdat, ShiftOf(bltcon1));
      pen := pen.(onedot := 0, pixel := false, started := false);
      left := vblitsize;
      zero := true;
      FieldsDecode(job, bltcon0, bltcon1);
    }

    method ReadPixel()
      requires Ready()
      modifies this`cdat
      ensures Drawing() == ReadC(job, old(Drawing()))
    {
      if job.useC {
        var i := (pen.cpt % span) / 2;
        cdat := if 0 <= i < chip.Length then chip[i] else 0;
      }
    }

    method DrawPixel()
      requires Ready()
      modifies this`ddat, this`pen
      ensures Drawing() == Draw(job, old(Drawing()))
    {
      hide Logic, PixelA, TextureBit, Widen;
      var ahold := PixelA(job.blinea, job.afwm, pen.shift);
      var bhold := TextureBit(texture);
      pen := pen.(pixel := !job.single || (job.single && pen.onedot == 0));
      ddat := Logic(job.minterm, Widen(ahold), Widen(bhold), cdat);
      pen := pen.(onedot := pen.onedot + 1);
    }

    /** Error term, sometimes step, always step, new sign. */
    method MovePen()
      requires Ready()
      modifies this`apt, this`sign, this`pen
      ensures Drawing() == Proceed(job, old(Drawing()))
    {
      hide NegativeWord, IncX, DecX, IncY, DecY, Wrap;
      if job.useA {
        apt := Wrap(apt + (if sign then job.bmod else job.amod));
      }
      if !sign {
        if job.sud {
          pen := if job.sul then DecY(job, pen) else IncY(job, pen);
        } else {
          pen := if job.sul then DecX(pen) else IncX(pen);
        }
      }
      if job.sud {
        pen := if job.aul then DecX(pen) else IncX(pen);
      } else {
        pen := if job.aul then DecY(job, pen) else IncY(job, pen);
      }
      sign := NegativeWord(apt);
    }

    method ProcessPixel()
      requires Ready()
      modifies this`ddat, this`pen, this`apt, this`sign, this`texture, this`left
      ensures Drawing() == Process(job, old(Drawing()))
    {
      hide Draw, Proceed, Rotate;
      if pen.started {
        pen := pen.(dpt := pen.cpt);
      }
      pen := pen.(started := true);
      label Aimed:
      DrawPixel();
      DrawKeepsValid(job, old@Aimed(Drawing()));
      MovePen();
      texture := Rotate(texture);
      left := left - 1;
    }

    method WritePixel()
      requires Ready()
      modifies this`zero, this`pen, chip
      ensures Drawing() == Write(job, old(Drawing()))
    {
      if pen.pixel {
        if ddat != 0 {
          zero := false;
        }
        if job.useC {
          var i := (pen.dpt % span) / 2;
          if 0 <= i < chip.Length {
            chip[i] := ddat;
          }
        }
        pen := pen.(pixel := false);
      }
    }

    /** Draws the whole line at once. */
    method DrawNow()
      requires Ready() && left > 0
      modifies this`cdat, this`ddat, this`pen, this`apt, this`sign, this`texture, this`left, this`zero, this`clock, chip
      ensures Drawing() == DrawLine(job, old(Drawing()), width)
      ensures clock == old(clock).(running := false)
    {
      hide ReadC, Process, Write, Valid;
      if width == 2 {
        ghost var start := Drawing();
        ghost var n := 0;
        while left != 0
          invariant 0 <= n <= start.left && Valid(job, start)
          invariant Drawing() == Steps(job, start, n) && left == start.left - n
          invariant Ready() && clock == old(clock)
          decreases start.left - n
        {
          PiecesKeepValid(job, Drawing());
          ReadPixel();
          PiecesKeepValid(job, Drawing());
          ProcessPixel();
          PiecesKeepValid(job, Drawing());
          WritePixel();
          n := n + 1;
        }
        pen := pen.(dpt := pen.cpt);
      }
      clock := clock.(running := false);
    }

    method LineCycle(c: int)
      requires Ready()
      modifies this`cdat, this`ddat, this`pen, this`apt, this`sign, this`texture, this`left, this`zero,
               this`clock, chip
      ensures State() == LineSlot(job, old(State()), c)
    {
      hide ReadC, Process, Write, Valid, Finish;
      clock := clock.(cycle := clock.cycle + 1, total := clock.total + 1);
      if c == 3 {
        ReadPixel();
      } else if c == 5 {
        ProcessPixel();
      } else if c == 4 {
        WritePixel();
        if left == 0 {
          EndLine();
        }
      }
    }

    method EndLine()
      modifies this`pen, this`clock
      ensures Drawing() == Finish(old(Drawing()))
      ensures clock == old(clock).(final := true, cycle := 0, waiting := false, irq := true)
    {
      pen := pen.(dpt := pen.cpt);
      clock := clock.(final := true, cycle := 0, waiting := false, irq := true);
    }

    method Tick(g: Grant)
      requires Ready()
      modifies this`cdat, this`ddat, this`pen, this`apt, this`sign, this`texture, this`left, this`zero,
               this`clock, chip
      ensures State() == LineTick(job, old(State()), g)
    {
      hide LineSlot, ChannelState, LineDrawer.Drawing;
      var c := ChannelState(LINE_DIAGRAM, clock.cycle);
      if clock.waiting {
        clock := clock.(waiting := false);
      } else if clock.final {
        clock := clock.(cycle := clock.cycle + 1, total := clock.total + 1);
        if clock.cycle >= 2 {
          clock := clock.(running := false, irq := true);
        }
      } else if g != Free {
        clock := clock.(missed := clock.missed + 1);
      } else {
        LineCycle(c);
      }
    }

    /** Draws as the bus allows. */
    method DecideBlitterLine(grants: seq<Grant>)
      requires Ready()
      modifies this`cdat, this`ddat, this`pen, this`apt, this`sign, this`texture, this`left, this`zero,
               this`clock, chip
      ensures State() == LineRun(job, old(State()), grants)
    {
      hide LineTick, Valid;
      var n := 0;
      while n < |grants| && clock.running
        invariant 0 <= n <= |grants|
        invariant Ready() && State() == LineRun(job, old(State()), grants[..n])
      {
        assert grants[..n + 1][..n] == grants[..n];
        TickKeepsValid(job, State(), grants[n]);
        Tick(grants[n]);
        n := n + 1;
      }
      LineRunStops(job, old(State()), grants, n);
      assert grants[..|grants|] == grants;
    }
  }

  lemma DrawKeepsValid(job: LineJob, l: Line)
    requires Valid(job, l)
    ensures Valid(job, Draw(job, l))
  {
    hide Logic, PixelA, TextureBit, Widen;
  }

  lemma {:induction false} LineRunStops(job: LineJob, e: LineEngine, grants: seq<Grant>, n: nat)
    requires Valid(job, e.line) && n <= |grants|
    requires n < |grants| ==> !LineRun(job, e, grants[..n]).clock.running
    ensures LineRun(job, e, grants) == LineRun(job, e, grants[..n])
  {
    hide LineTick;
    if n < |grants| {
      var shorter := grants[..|grants| - 1];
      assert shorter[..n] == grants[..n];
      LineRunStops(job, e, shorter, n);
    } else {
      assert grants[..n] == grants;
    }
  }
}
