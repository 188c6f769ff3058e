/** Line mode: one pixel per step, along a Bresenham line whose error lives in the
    A pointer, whose texture is the B register and whose pixels are written
    through the C pointer. */
module LineSpec {
  import opened ChipMemory
  import opened DataPath
  import opened LogicUnit
  import opened CycleEngine

  datatype LineJob = LineJob(
    useA: bool, useC: bool, minterm: bv8,
    sud: bool, sul: bool, aul: bool, single: bool,
    amod: int, bmod: int, cmod: int, afwm: Word, blinea: Word, span: nat)

  /** Where the pen is: a word address, a bit in the word, and what it will store. */
  datatype Pen = Pen(cpt: int, dpt: int, shift: int, onedot: nat, pixel: bool, started: bool)

  datatype Line = Line(
    memory: seq<Word>, pen: Pen, apt: int, sign: bool,
    cdat: Word, ddat: Word, texture: Word, left: int, zero: bool)

  function PixelA(a: Word, mask: Word, shift: int): Word
    requires 0 <= shift < 16
  {
    Masked(a, mask) >> shift
  }

  function TextureBit(texture: Word): Word {
    if texture & 1 != 0 then 0xFFFF else 0
  }

  function Rotate(texture: Word): Word {
    (texture << 1) | (texture >> 15)
  }

  ghost predicate Valid(job: LineJob, l: Line) {
    job.span > 0 && 0 <= l.pen.shift < 16
  }

  function ReadC(job: LineJob, l: Line): Line
    requires job.span > 0
  {
    if job.useC then l.(cdat := Get(l.memory, job.span, l.pen.cpt)) else l
  }

  /** One pixel right or left, one raster row down or up. */
  function IncX(p: Pen): Pen {
    if p.shift + 1 == 16 then p.(shift := 0, cpt := Wrap(p.cpt + 2)) else p.(shift := p.shift + 1)
  }

  function DecX(p: Pen): Pen {
    if p.shift == 0 then p.(shift := 15, cpt := Wrap(p.cpt - 2)) else p.(shift := p.shift - 1)
  }

  function IncY(job: LineJob, p: Pen): Pen {
    p.(cpt := Wrap(p.cpt + job.cmod), onedot := 0)
  }

  function DecY(job: LineJob, p: Pen): Pen {
    p.(cpt := Wrap(p.cpt - job.cmod), onedot := 0)
  }

  function StepX(p: Pen, down: bool): Pen {
    if down then DecX(p) else IncX(p)
  }

  function StepY(job: LineJob, p: Pen, down: bool): Pen {
    if down then DecY(job, p) else IncY(job, p)
  }

  /** The sometimes step, taken when the error is not negative. */
  function Minor(job: LineJob, p: Pen): Pen {
    if job.sud then StepY(job, p, job.sul) else StepX(p, job.sul)
  }

  /** The always step. */
  function Major(job: LineJob, p: Pen): Pen {
    if job.sud then StepX(p, job.aul) else StepY(job, p, job.aul)
  }

  /** The sign of a 16-bit value. */
  predicate NegativeWord(value: int) {
    value % 0x1_0000 >= 0x8000
  }

  function Draw(job: LineJob, l: Line): Line
    requires Valid(job, l)
  {
    l.(ddat := Logic(job.minterm, Widen(PixelA(job.blinea, job.afwm, l.pen.shift)),
                     Widen(TextureBit(l.texture)), l.cdat),
       pen := l.pen.(pixel := !job.single || l.pen.onedot == 0, onedot := l.pen.onedot + 1))
  }

  function Proceed(job: LineJob, l: Line): Line {
    var apt := if job.useA then Wrap(l.apt + (if l.sign then job.bmod else job.amod)) else l.apt;
    var pen := if l.sign then l.pen else Minor(job, l.pen);
    l.(apt := apt, pen := Major(job, pen), sign := NegativeWord(apt))
  }

  /** The processing slot: from the second pixel on the destination follows the C
      pointer. */
  function Process(job: LineJob, l: Line): Line
    requires Valid(job, l)
  {
    var pen := l.pen.(dpt := if l.pen.started then l.pen.cpt else l.pen.dpt, started := true);
    var l1 := Proceed(job, Draw(job, l.(pen := pen)));
    l1.(texture := Rotate(l1.texture), left := l1.left - 1)
  }

  /** The pixel is written if there is one and channel C is on. */
  function Write(job: LineJob, l: Line): Line
    requires job.span > 0
  {
    if !l.pen.pixel then l
    else
      l.(zero := l.zero && l.ddat == 0,
         memory := if job.useC then Put(l.memory, job.span, l.pen.dpt, l.ddat) else l.memory,
         pen := l.pen.(pixel := false))
  }

  function Finish(l: Line): Line {
    l.(pen := l.pen.(dpt := l.pen.cpt))
  }

  // ----- The immediate drawer -----

  function Step(job: LineJob, l: Line): Line
    requires Valid(job, l)
  {
    Write(job, Process(job, ReadC(job, l)))
  }

  lemma StepKeepsValid(job: LineJob, l: Line)
    requires Valid(job, l)
    ensures Valid(job, Process(job, ReadC(job, l))) && Valid(job, Step(job, l))
    ensures Step(job, l).left == l.left - 1
  {
    hide Logic, PixelA, TextureBit, Rotate, Widen, Get, Put, NegativeWord, Wrap;
  }

  function Steps(job: LineJob, l: Line, n: nat): (r: Line)
    requires Valid(job, l)
    ensures Valid(job, r) && r.left == l.left - n
  {
    if n == 0 then l
    else
      var before := Steps(job, l, n - 1);
      StepKeepsValid(job, before);
      Step(job, before)
  }

  /** A whole line; the immediate drawer insists on a width of two words. */
  function DrawLine(job: LineJob, l: Line, width: int): Line
    requires Valid(job, l) && l.left > 0
  {
    if width != 2 then l else Finish(Steps(job, l, l.left))
  }

  // ----- The cycle-stepped drawer -----

  const LINE_DIAGRAM: seq<int> := [4, 0, 3, 5, 4, 0, 3, 5, 4]

  datatype LineEngine = LineEngine(line: Line, clock: Clock)

  function LineAdvance(e: LineEngine): LineEngine {
    e.(clock := e.clock.(cycle := e.clock.cycle + 1, total := e.clock.total + 1))
  }

  function LineSlot(job: LineJob, e: LineEngine, c: int): LineEngine
    requires Valid(job, e.line)
  {
    var e1 := LineAdvance(e);
    if c == 3 then e1.(line := ReadC(job, e.line))
    else if c == 5 then e1.(line := Process(job, e.line))
    else if c == 4 then
      var l := Write(job, e.line);
      if l.left == 0 then
        LineEngine(Finish(l), e1.clock.(final := true, cycle := 0, waiting := false, irq := true))
      else e1.(line := l)
    else e1
  }

  function LineTick(job: LineJob, e: LineEngine, g: Grant): LineEngine
    requires Valid(job, e.line)
  {
    var c := ChannelState(LINE_DIAGRAM, e.clock.cycle);
    if e.clock.waiting then e.(clock := e.clock.(waiting := false))
    else if e.clock.final then
      var e1 := LineAdvance(e);
      if e1.clock.cycle >= 2 then e1.(clock := e1.clock.(running := false, irq := true)) else e1
    else if g != Free then e.(clock := e.clock.(missed := e.clock.missed + 1))
    else LineSlot(job, e, c)
  }

  lemma PiecesKeepValid(job: LineJob, l: Line)
    requires Valid(job, l)
    ensures Valid(job, ReadC(job, l)) && Valid(job, Process(job, l))
    ensures Valid(job, Write(job, l)) && Valid(job, Finish(l))
  {
    hide Logic, PixelA, TextureBit, Rotate, Widen, Get, Put, NegativeWord, Wrap;
  }

  lemma SlotKeepsValid(job: LineJob, e: LineEngine, c: int)
    requires Valid(job, e.line)
    ensures Valid(job, LineSlot(job, e, c).line)
    ensures LineSlot(job, e, c).clock.running == e.clock.running
  {
    hide ReadC, Process, Write, Finish;
    PiecesKeepValid(job, e.line);
    PiecesKeepValid(job, Write(job, e.line));
  }

  lemma TickKeepsValid(job: LineJob, e: LineEngine, g: Grant)
    requires Valid(job, e.line)
    ensures Valid(job, LineTick(job, e, g).line)
  {
    hide LineSlot, ChannelState;
    SlotKeepsValid(job, e, ChannelState(LINE_DIAGRAM, e.clock.cycle));
  }

  function LineRun(job: LineJob, e: LineEngine, grants: seq<Grant>): (r: LineEngine)
    requires Valid(job, e.line)
    ensures Valid(job, r.line)
  {
    if grants == [] then e
    else
      var before := LineRun(job, e, grants[..|grants| - 1]);
      TickKeepsValid(job, before, grants[|grants| - 1]);
      if before.clock.running then LineTick(job, before, grants[|grants| - 1]) else before
  }
}
