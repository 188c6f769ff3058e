/** The two line drawers against each other, and what a drawn line looks like. */
module LineProof {
  import opened ChipMemory
  import opened Bits
  import opened DataPath
  import opened LogicUnit
  import opened Counting
  import opened CycleEngine
  import opened LineSpec

  // ----- Cycle-stepped and immediate drawing -----

  ghost predicate LineBegun(job: LineJob, l: Line, e: LineEngine) {
    Valid(job, l) && l.left > 0
    && e.line == l && e.clock.cycle == -2 && e.clock.total == 0 && !e.clock.final && e.clock.running
  }

  /** The line after slot p of round r. */
  ghost function Midway(job: LineJob, l: Line, r: nat, p: nat): Line
    requires Valid(job, l)
  {
    var now := Steps(job, l, r);
    if p <= 1 then now
    else if p == 2 then ReadC(job, now)
    else Process(job, ReadC(job, now))
  }

  ghost predicate Drawing(job: LineJob, l: Line, e: LineEngine) {
    Valid(job, l) && Valid(job, e.line) && l.left > 0 && e.clock.running && -2 <= e.clock.cycle
    && if e.clock.final then
         && e.line == Finish(Steps(job, l, l.left)) && 0 <= e.clock.cycle < 2
         && e.clock.total == 4 * l.left + 2 + e.clock.cycle
       else
         e.clock.total == e.clock.cycle + 2
         && if e.clock.cycle < 0 then e.line == l
            else e.clock.cycle < 4 * l.left && e.line == Midway(job, l, e.clock.cycle / 4, e.clock.cycle % 4)
  }

  ghost predicate Drawn(job: LineJob, l: Line, e: LineEngine) {
    Valid(job, l) && l.left > 0
    && e.line == Finish(Steps(job, l, l.left)) && !e.clock.running && e.clock.irq && e.clock.total == 4 * l.left + 4
  }

  lemma LineSlotOfCycle(cycle: nat)
    ensures ChannelState(LINE_DIAGRAM, cycle)
         == match cycle % 4 case 0 => 0 case 1 => 3 case 2 => 5 case _ => 4
  {
    if cycle >= 4 {
      assert (cycle - 4) % 4 == cycle % 4;
    }
  }

  lemma DrawingGoesOn(job: LineJob, l: Line, e: LineEngine)
    requires Drawing(job, l, e) && e.clock.cycle >= 0 && !e.clock.final
    ensures Drawing(job, l, LineSlot(job, e, ChannelState(LINE_DIAGRAM, e.clock.cycle)))
  {
    hide ReadC, Process, Write, Finish, ChannelState;
    SlotKeepsValid(job, e, ChannelState(LINE_DIAGRAM, e.clock.cycle));
    var r, p := e.clock.cycle / 4, e.clock.cycle % 4;
    LineSlotOfCycle(e.clock.cycle);
    assert e.clock.cycle == 4 * r + p;
    if p == 3 {
      assert Steps(job, l, r + 1) == Step(job, Steps(job, l, r));
    }
  }

  lemma LineTickKeeps(job: LineJob, l: Line, e: LineEngine, g: Grant)
    requires Drawing(job, l, e)
    ensures
      var e' := LineTick(job, e, g);
      if e'.clock.running then Drawing(job, l, e') else Drawn(job, l, e')
  {
    hide ReadC, Process, Write, Finish, ChannelState, LineSlot;
    if !e.clock.waiting && !e.clock.final && g == Free {
      if e.clock.cycle < 0 {
        StartOfLine(job, e);
      } else {
        DrawingGoesOn(job, l, e);
        SlotKeepsValid(job, e, ChannelState(LINE_DIAGRAM, e.clock.cycle));
      }
    }
  }

  lemma StartOfLine(job: LineJob, e: LineEngine)
    requires Valid(job, e.line) && e.clock.cycle < 0
    ensures ChannelState(LINE_DIAGRAM, e.clock.cycle) == 0
    ensures LineSlot(job, e, 0) == LineAdvance(e)
  {
  }

  lemma {:induction false} LineRunKeeps(job: LineJob, l: Line, e: LineEngine, grants: seq<Grant>)
    requires LineBegun(job, l, e)
    ensures
      var e' := LineRun(job, e, grants);
      if e'.clock.running then Drawing(job, l, e') else Drawn(job, l, e')
  {
    hide LineTick, Drawn;
    if grants == [] {
    } else {
      LineRunKeeps(job, l, e, grants[..|grants| - 1]);
      var before := LineRun(job, e, grants[..|grants| - 1]);
      if before.clock.running {
        LineTickKeeps(job, l, before, grants[|grants| - 1]);
      }
    }
  }

  /** Under any bus grants, a finished line has been drawn exactly as the immediate
      drawer draws it, in four slots a pixel, two before and two after. */
  lemma LineDrawersAgree(job: LineJob, l: Line, e: LineEngine, grants: seq<Grant>)
    requires LineBegun(job, l, e) && !LineRun(job, e, grants).clock.running
    ensures LineRun(job, e, grants).line == DrawLine(job, l, 2)
    ensures LineRun(job, e, grants).clock.total == 4 * l.left + 4
  {
    LineRunKeeps(job, l, e, grants);
  }

  // ----- One dot per row -----

  /** Whether a step leaves the raster row it started on. */
  predicate LeavesRow(job: LineJob, l: Line) {
    !job.sud || !l.sign
  }

  /** Raster rows left in the first k steps. */
  function RowsLeft(job: LineJob, l: Line, k: nat): nat
    requires Valid(job, l)
  {
    if k == 0 then 0
    else RowsLeft(job, l, k - 1) + (if LeavesRow(job, Steps(job, l, k - 1)) then 1 else 0)
  }

  /** Whether step k draws a pixel. */
  predicate Draws(job: LineJob, l: Line, k: nat)
    requires Valid(job, l)
  {
    Process(job, ReadC(job, Steps(job, l, k))).pen.pixel
  }

  lemma {:induction false} RowsOnlyGrow(job: LineJob, l: Line, i: nat, j: nat)
    requires Valid(job, l) && i <= j
    ensures RowsLeft(job, l, i) <= RowsLeft(job, l, j)
  {
    hide Steps, LeavesRow;
    if i < j {
      RowsOnlyGrow(job, l, i, j - 1);
    }
  }

  lemma StepCountsDots(job: LineJob, l: Line)
    requires Valid(job, l)
    ensures Step(job, l).pen.onedot == if LeavesRow(job, l) then 0 else l.pen.onedot + 1
    ensures Process(job, ReadC(job, l)).pen.pixel == (!job.single || l.pen.onedot == 0)
  {
    hide Logic, PixelA, TextureBit, Rotate, Widen, Get, Put, NegativeWord, Wrap, Minor, Major;
    var p := l.pen.(pixel := !job.single || l.pen.onedot == 0, onedot := l.pen.onedot + 1,
                    dpt := if l.pen.started then l.pen.cpt else l.pen.dpt, started := true);
    StepDots(job, p);
    StepDots(job, Minor(job, p));
  }

  lemma StepDots(job: LineJob, p: Pen)
    ensures Minor(job, p).pixel == p.pixel && Minor(job, p).onedot == if job.sud then 0 else p.onedot
    ensures Major(job, p).pixel == p.pixel && Major(job, p).onedot == if job.sud then p.onedot else 0
  {
    hide Wrap;
  }

  lemma {:induction false} SameRowIsDotted(job: LineJob, l: Line, i: nat, j: nat)
    requires Valid(job, l) && i < j && RowsLeft(job, l, i) == RowsLeft(job, l, j)
    ensures Steps(job, l, j).pen.onedot > 0
  {
    hide Step, LeavesRow;
    RowsOnlyGrow(job, l, i, j - 1);
    StepCountsDots(job, Steps(job, l, j - 1));
  }

  /** In one-dot mode no two pixels of a line are on the same raster row. */
  lemma OneDotPerRow(job: LineJob, l: Line, i: nat, j: nat)
    requires Valid(job, l) && job.single && i < j
    requires Draws(job, l, i) && Draws(job, l, j)
    ensures RowsLeft(job, l, i) < RowsLeft(job, l, j)
  {
    RowsOnlyGrow(job, l, i, j);
    if RowsLeft(job, l, i) == RowsLeft(job, l, j) {
      SameRowIsDotted(job, l, i, j);
      StepCountsDots(job, Steps(job, l, j));
      hide Process, ReadC;
    }
  }

  // ----- The shape of a line -----

  /** The accumulator set up for a line of slope dmin / dmax. */
  ghost predicate SetUp(job: LineJob, l: Line, dmin: int, dmax: int) {
    Valid(job, l) && job.useA && 0 <= dmin <= dmax && 0 < dmax && 4 * dmax < 0x8000
    && job.bmod == 4 * dmin && job.amod == 4 * (dmin - dmax)
    && (l.apt - (4 * dmin - 2 * dmax)) % 0x1_0000 == 0 && 0 <= l.apt < ADDRESS_SPACE
    && l.sign == (4 * dmin - 2 * dmax < 0)
  }

  /** Sometimes steps among the first k. */
  function MinorSteps(job: LineJob, l: Line, k: nat): nat
    requires Valid(job, l)
  {
    if k == 0 then 0 else MinorSteps(job, l, k - 1) + (if Steps(job, l, k - 1).sign then 0 else 1)
  }

  /** The error term after k always steps and y sometimes steps. */
  function Error(dmin: int, dmax: int, k: int, y: int): int {
    4 * dmin * (k + 1) - 2 * dmax - 4 * dmax * y
  }

  lemma ErrorSteps(dmin: int, dmax: int, k: int, y: int)
    ensures Error(dmin, dmax, k + 1, y) == Error(dmin, dmax, k, y) + 4 * dmin
    ensures Error(dmin, dmax, k + 1, y + 1) == Error(dmin, dmax, k, y) + 4 * (dmin - dmax)
    ensures Error(dmin, dmax, k, y) == 2 * (2 * (k * dmin - y * dmax)) + 4 * dmin - 2 * dmax
    ensures 2 * ((k + 1) * dmin - y * dmax) == 2 * (k * dmin - y * dmax) + 2 * dmin
    ensures 2 * ((k + 1) * dmin - (y + 1) * dmax) == 2 * (k * dmin - y * dmax) + 2 * dmin - 2 * dmax
  {
  }

  lemma SignOfError(apt: int, error: int)
    requires (apt - error) % 0x1_0000 == 0 && -0x8000 <= error < 0x8000
    ensures NegativeWord(apt) == (error < 0)
  {
  }

  lemma WrapKeepsLowWord(x: int, error: int)
    requires (x - error) % 0x1_0000 == 0
    ensures (Wrap(x) - error) % 0x1_0000 == 0
  {
  }

  ghost predicate OnTrack(l: Line, dmin: int, dmax: int, k: int, y: int) {
    && (l.apt - Error(dmin, dmax, k, y)) % 0x1_0000 == 0
    && l.sign == (Error(dmin, dmax, k, y) < 0)
    && -dmax <= 2 * (k * dmin - y * dmax) <= dmax
  }

  lemma StepAccumulates(job: LineJob, l: Line)
    requires Valid(job, l) && job.useA
    ensures Step(job, l).apt == Wrap(l.apt + (if l.sign then job.bmod else job.amod))
    ensures Step(job, l).sign == NegativeWord(Step(job, l).apt)
  {
    hide Logic, PixelA, TextureBit, Rotate, Widen, Get, Put, NegativeWord, Wrap;
  }

  lemma TrackGoesOn(job: LineJob, l: Line, dmin: int, dmax: int, k: int, y: int)
    requires Valid(job, l) && job.useA && 0 <= dmin <= dmax && 0 < dmax && 4 * dmax < 0x8000
    requires job.bmod == 4 * dmin && job.amod == 4 * (dmin - dmax)
    requires OnTrack(l, dmin, dmax, k, y)
    ensures OnTrack(Step(job, l), dmin, dmax, k + 1, if l.sign then y else y + 1)
  {
    hide Step, Error, NegativeWord, Wrap;
    var y' := if l.sign then y else y + 1;
    ErrorSteps(dmin, dmax, k, y);
    ErrorSteps(dmin, dmax, k + 1, y');
    StepAccumulates(job, l);
    WrapKeepsLowWord(l.apt + (if l.sign then job.bmod else job.amod), Error(dmin, dmax, k + 1, y'));
    SignOfError(Step(job, l).apt, Error(dmin, dmax, k + 1, y'));
  }

  /** Every pixel of every line lies within half a pixel of the ideal line: after k
      always steps and y sometimes steps, |y - k * dmin / dmax| <= 1/2. */
  lemma {:induction false} WithinHalfAPixel(job: LineJob, l: Line, dmin: int, dmax: int, k: nat)
    requires SetUp(job, l, dmin, dmax)
    ensures OnTrack(Steps(job, l, k), dmin, dmax, k, MinorSteps(job, l, k))
    ensures -dmax <= 2 * (k * dmin - MinorSteps(job, l, k) * dmax) <= dmax
  {
    hide Step;
    if k == 0 {
      assert Error(dmin, dmax, 0, 0) == 4 * dmin - 2 * dmax;
    } else {
      WithinHalfAPixel(job, l, dmin, dmax, k - 1);
      TrackGoesOn(job, Steps(job, l, k - 1), dmin, dmax, k - 1, MinorSteps(job, l, k - 1));
    }
  }

  // ----- Where the pixels go -----

  /** Bit position of the pen; a raster row further on is 8 * cmod bits away. */
  function Position(p: Pen): int {
    8 * p.cpt + p.shift
  }

  /** Positions that differ by whole trips around the address space. */
  predicate Congruent(a: int, b: int) {
    (a - b) % (8 * ADDRESS_SPACE) == 0
  }

  lemma CongruentSteps(a: int, b: int, c: int, d: int)
    requires Congruent(a, b + d) && Congruent(b, c)
    ensures Congruent(a, c + d)
  {
  }

  function Turn(back: bool, n: int): int {
    if back then -n else n
  }

  function MinorMove(job: LineJob): int {
    if job.sud then Turn(job.sul, 8 * job.cmod) else Turn(job.sul, 1)
  }

  function MajorMove(job: LineJob): int {
    if job.sud then Turn(job.aul, 1) else Turn(job.aul, 8 * job.cmod)
  }

  lemma MoveX(p: Pen, back: bool)
    requires 0 <= p.shift < 16
    ensures Congruent(Position(StepX(p, back)), Position(p) + Turn(back, 1)) && 0 <= StepX(p, back).shift < 16
  {
  }

  lemma MoveY(job: LineJob, p: Pen, back: bool)
    ensures Congruent(Position(StepY(job, p, back)), Position(p) + Turn(back, 8 * job.cmod))
    ensures StepY(job, p, back).shift == p.shift
  {
  }

  lemma MovesOfPen(job: LineJob, p: Pen)
    requires 0 <= p.shift < 16
    ensures Congruent(Position(Minor(job, p)), Position(p) + MinorMove(job)) && 0 <= Minor(job, p).shift < 16
    ensures Congruent(Position(Major(job, p)), Position(p) + MajorMove(job)) && 0 <= Major(job, p).shift < 16
  {
    hide Congruent, StepX, StepY, Turn;
    MoveX(p, job.sul);
    MoveX(p, job.aul);
    MoveY(job, p, job.sul);
    MoveY(job, p, job.aul);
  }

  lemma StepMovesPen(job: LineJob, l: Line)
    requires Valid(job, l)
    ensures
      var moved := Step(job, l).pen;
      Congruent(Position(moved), Position(l.pen) + MajorMove(job) + (if l.sign then 0 else MinorMove(job)))
  {
    hide Logic, PixelA, TextureBit, Rotate, Widen, Get, Put, NegativeWord, Wrap, Minor, Major, Congruent;
    var p := l.pen.(pixel := !job.single || l.pen.onedot == 0, onedot := l.pen.onedot + 1,
                    dpt := if l.pen.started then l.pen.cpt else l.pen.dpt, started := true);
    MovesOfPen(job, p);
    MovesOfPen(job, if l.sign then p else Minor(job, p));
    if !l.sign {
      CongruentSteps(Position(Major(job, Minor(job, p))), Position(Minor(job, p)), Position(p) + MinorMove(job),
        MajorMove(job));
    }
  }

  /** After k steps the pen has made k always steps and the sometimes steps the
      error term asked for, however the address registers wrapped. */
  lemma {:induction false} PenPosition(job: LineJob, l: Line, k: nat)
    requires Valid(job, l)
    ensures Congruent(Position(Steps(job, l, k).pen),
                      Position(l.pen) + k * MajorMove(job) + MinorSteps(job, l, k) * MinorMove(job))
  {
    hide Step, Congruent, MinorMove, MajorMove;
    if k == 0 {
      assert Congruent(Position(l.pen), Position(l.pen)) by { CongruentToItself(Position(l.pen)); }
    } else {
      PenPosition(job, l, k - 1);
      var before := Steps(job, l, k - 1);
      var y := MinorSteps(job, l, k - 1);
      StepMovesPen(job, before);
      var d := MajorMove(job) + (if before.sign then 0 else MinorMove(job));
      CongruentSteps(Position(Steps(job, l, k).pen), Position(before.pen),
        Position(l.pen) + (k - 1) * MajorMove(job) + y * MinorMove(job), d);
      MoveOnce(k, MajorMove(job));
      MoveOnce(y + 1, MinorMove(job));
    }
  }

  lemma CongruentToItself(a: int)
    ensures Congruent(a, a)
  {
  }

  lemma MoveOnce(k: int, d: int)
    ensures k * d == (k - 1) * d + d
  {
  }

  // ----- The pixel -----

  /** The bit of the pen in its word. */
  function PenBit(p: Pen): Word
    requires 0 <= p.shift < 16
  {
    0x8000 >> p.shift
  }

  function Marked(c: Word, m: Word): Word { c | m }
  function Inverted(c: Word, m: Word): Word { c ^ m }
  function Cleared(c: Word, m: Word): Word { c & !m }

  lemma WholePen(p: Pen)
    requires 0 <= p.shift < 16
    ensures PixelA(0x8000, 0xFFFF, p.shift) == PenBit(p)
  {
  }

  lemma TextureIsWhole(texture: Word)
    ensures TextureBit(texture) == 0 || TextureBit(texture) == 0xFFFF
  {
  }

  lemma BitsOfWhole(i: bv32)
    requires i < 16
    ensures WordBit(0xFFFF, i) && !WordBit(0, i)
  {
  }

  lemma BitsOfMarked(c: Word, m: Word, i: bv32)
    requires i < 16
    ensures WordBit(Marked(c, m), i) == (WordBit(c, i) || WordBit(m, i))
  {
  }

  lemma BitsOfInverted(c: Word, m: Word, i: bv32)
    requires i < 16
    ensures WordBit(Inverted(c, m), i) == (WordBit(c, i) != WordBit(m, i))
  {
    LaneInverted(c, m, i);
    hide WordBit;
  }

  lemma LaneInverted(c: Word, m: Word, i: bv32)
    requires i < 16
    ensures WordBit(c ^ m, i) == (WordBit(c, i) != WordBit(m, i))
  {
  }

  lemma BitsOfCleared(c: Word, m: Word, i: bv32)
    requires i < 16
    ensures WordBit(Cleared(c, m), i) == (WordBit(c, i) && !WordBit(m, i))
  {
  }

  lemma BitsOfPen(c: Word, m: Word, i: bv32)
    requires i < 16
    ensures WordBit(Marked(c, m), i) == (WordBit(c, i) || WordBit(m, i))
    ensures WordBit(Inverted(c, m), i) == (WordBit(c, i) != WordBit(m, i))
    ensures WordBit(Cleared(c, m), i) == (WordBit(c, i) && !WordBit(m, i))
  {
    hide WordBit, Marked, Inverted, Cleared;
    BitsOfMarked(c, m, i);
    BitsOfInverted(c, m, i);
    BitsOfCleared(c, m, i);
  }

  lemma EntriesOfPen(m: bool, c: bool)
    ensures Entry(0xCA, m, true, c) == (c || m) && Entry(0x4A, m, true, c) == (c != m)
    ensures Entry(0xCA, m, false, c) == (c && !m) && Entry(0x4A, m, false, c) == (c && !m)
  {
  }

  /** The two usual minterms, where the texture is set and where it is not. */
  lemma PenMinterms(m: Word, c: Word)
    ensures Minterm(0xCA, m, 0xFFFF, c) == Marked(c, m) && Minterm(0x4A, m, 0xFFFF, c) == Inverted(c, m)
    ensures Minterm(0xCA, m, 0, c) == Cleared(c, m) && Minterm(0x4A, m, 0, c) == Cleared(c, m)
  {
    hide WordBit, Minterm, Marked, Inverted, Cleared, Entry;
    forall i: bv32 | i < 16
      ensures WordBit(Minterm(0xCA, m, 0xFFFF, c), i) == WordBit(Marked(c, m), i)
      ensures WordBit(Minterm(0x4A, m, 0xFFFF, c), i) == WordBit(Inverted(c, m), i)
      ensures WordBit(Minterm(0xCA, m, 0, c), i) == WordBit(Cleared(c, m), i)
      ensures WordBit(Minterm(0x4A, m, 0, c), i) == WordBit(Cleared(c, m), i)
    {
      MintermBits(0xCA, m, 0xFFFF, c, i);
      MintermBits(0x4A, m, 0xFFFF, c, i);
      MintermBits(0xCA, m, 0, c, i);
      MintermBits(0x4A, m, 0, c, i);
      BitsOfWhole(i);
      BitsOfPen(c, m, i);
      EntriesOfPen(WordBit(m, i), WordBit(c, i));
    }
    SameBits(Minterm(0xCA, m, 0xFFFF, c), Marked(c, m));
    SameBits(Minterm(0x4A, m, 0xFFFF, c), Inverted(c, m));
    SameBits(Minterm(0xCA, m, 0, c), Cleared(c, m));
    SameBits(Minterm(0x4A, m, 0, c), Cleared(c, m));
  }

  /** With the two usual minterms and a one-bit pen, drawing changes one bit of the word:
      where the texture is set it is set, or inverted; elsewhere it is cleared. */
  lemma PenChangesOneBit(job: LineJob, l: Line)
    requires Valid(job, l) && job.blinea == 0x8000 && job.afwm == 0xFFFF && job.minterm in {0xCA, 0x4A}
    ensures Draw(job, l).ddat ==
      if TextureBit(l.texture) == 0 then Cleared(l.cdat, PenBit(l.pen))
      else if job.minterm == 0xCA then Marked(l.cdat, PenBit(l.pen))
      else Inverted(l.cdat, PenBit(l.pen))
  {
    hide Logic, PixelA, Widen, Low, Minterm, PenBit, TextureBit, Marked, Inverted, Cleared;
    var m, b := PenBit(l.pen), TextureBit(l.texture);
    WholePen(l.pen);
    LogicIsMinterm(job.minterm, Widen(m), Widen(b), l.cdat);
    LowOfWide(m);
    LowOfWide(b);
    TextureIsWhole(l.texture);
    PenMinterms(m, l.cdat);
  }
}
