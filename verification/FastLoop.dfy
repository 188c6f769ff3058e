/** The immediate blitter: a double loop over rows and columns.  A local pointer of
    zero stands for a channel that is switched off, so a pointer that becomes zero
    switches its channel off as well. */
module FastLoop {
  import opened ChipMemory
  import opened DataPath
  import opened LogicUnit
  import opened BlitSpec

  /** Data registers and the local copies of them; `bhold` keeps more bits than
      the register it came from. */
  datatype Inputs = Inputs(adat: Word, aold: Word, bdat: Word, bold: Word, bhold: bv32, cdat: Word)

  datatype Locals = Locals(qa: int, qb: int, qc: int, qd: int)

  /** The word computed last, and where it will go. */
  datatype Output = Output(ddat: Word, pending: bool, target: int, fc: bool, seen: Word)

  datatype Fast = Fast(memory: seq<Word>, inp: Inputs, ptr: Locals, out: Output)

  predicate Special(job: Job) {
    Dispatched(job.minterm) && !job.fill
  }

  function ReadA(job: Job, f: Fast): Fast
    requires job.span > 0
  {
    if f.ptr.qa != 0 then
      f.(inp := f.inp.(adat := Get(f.memory, job.span, f.ptr.qa)), ptr := f.ptr.(qa := Bump(job, f.ptr.qa)))
    else f
  }

  function ReadB(job: Job, f: Fast): Fast
    requires job.span > 0
  {
    if f.ptr.qb != 0 then
      var data := Get(f.memory, job.span, f.ptr.qb);
      f.(inp := f.inp.(bhold := Shifter(job.descending, job.bshift, f.inp.bold, data), bold := data, bdat := data),
         ptr := f.ptr.(qb := Bump(job, f.ptr.qb)))
    else f
  }

  /** The generic descending loop copies the C word into the B data register. */
  function ReadC(job: Job, f: Fast, mirrored: bool): Fast
    requires job.span > 0
  {
    if f.ptr.qc != 0 then
      var data := Get(f.memory, job.span, f.ptr.qc);
      f.(inp := f.inp.(cdat := data, bdat := if mirrored then data else f.inp.bdat),
         ptr := f.ptr.(qc := Bump(job, f.ptr.qc)))
    else f
  }

  /** The masked A word of a column goes through the shifter and is kept. */
  function HoldA(job: Job, inp: Inputs, i: int): (bv32, Inputs) {
    var a := MaskA(job, i, inp.adat);
    (Shifter(job.descending, job.ashift, inp.aold, a), inp.(aold := a))
  }

  /** The word before goes to memory; the specialised loops know by its address that there
      is one. */
  function StoreLast(job: Job, special: bool, f: Fast): seq<Word>
    requires job.span > 0
  {
    var pending := if special then f.out.target != 0 else f.out.pending;
    if pending then Put(f.memory, job.span, f.out.target, f.out.ddat) else f.memory
  }

  function Gather(seen: Word, w: Word): Word {
    seen | w
  }

  /** The word before is stored and the new one waits for its turn. */
  function Emit(job: Job, special: bool, f: Fast, d: Word): Fast
    requires job.span > 0
  {
    var (out, fc) := if job.fill then FillWord(job.inclusive, f.out.fc, d) else (d, f.out.fc);
    var out1 := f.out.(ddat := out, fc := fc, seen := Gather(f.out.seen, out));
    if f.ptr.qd != 0 then
      Fast(StoreLast(job, special, f), f.inp, f.ptr.(qd := Bump(job, f.ptr.qd)),
           out1.(pending := true, target := f.ptr.qd))
    else
      Fast(StoreLast(job, special, f), f.inp, f.ptr, out1)
  }

  /** The generic loop reads A, B and C. */
  function GenericReads(job: Job, f: Fast, i: int): (bv32, Fast)
    requires job.span > 0
  {
    var f1 := ReadA(job, f);
    var (ahold, inp) := HoldA(job, f1.inp, i);
    (ahold, ReadC(job, ReadB(job, f1.(inp := inp)), job.descending))
  }

  /** A specialised loop reads only the sources its formula needs, C first. */
  function SpecialReads(job: Job, f: Fast, i: int): (bv32, Fast)
    requires job.span > 0
  {
    var mt := job.minterm;
    var f1 := if ReadsC(mt) then ReadC(job, f, false) else f;
    var f2 := if ReadsB(mt) then ReadB(job, f1) else f1;
    var f3 := if ReadsA(mt) then ReadA(job, f2) else f2;
    var (ahold, inp) := HoldA(job, f3.inp, i);
    (ahold, if ReadsA(mt) then f3.(inp := inp) else f3)
  }

  /** One column. */
  function Column(job: Job, special: bool, f: Fast, i: int): Fast
    requires job.span > 0
  {
    var (ahold, f1) := if special then SpecialReads(job, f, i) else GenericReads(job, f, i);
    Emit(job, special, f1, Logic(job.minterm, ahold, f1.inp.bhold, f1.inp.cdat))
  }

  /** The first i columns of a row. */
  function Columns(job: Job, special: bool, f: Fast, i: nat): Fast
    requires job.span > 0
  {
    if i == 0 then f.(out := f.out.(fc := job.carryIn))
    else Column(job, special, Columns(job, special, f, i - 1), i - 1)
  }

  function EndRow(job: Job, f: Fast): Fast {
    f.(ptr := Locals(
        if f.ptr.qa != 0 then Skip(job, A, f.ptr.qa) else 0,
        if f.ptr.qb != 0 then Skip(job, B, f.ptr.qb) else 0,
        if f.ptr.qc != 0 then Skip(job, C, f.ptr.qc) else 0,
        if f.ptr.qd != 0 then Skip(job, D, f.ptr.qd) else 0))
  }

  function Rows(job: Job, special: bool, f: Fast, j: nat): Fast
    requires job.span > 0
  {
    if j == 0 then f else EndRow(job, Columns(job, special, Rows(job, special, f, j - 1), job.h))
  }

  /** The loops start from the register file; a disabled channel has pointer 0. */
  function Enter(job: Job, s: Serial, bdat: Word): Fast {
    Fast(s.memory,
      Inputs(s.regs.adat, s.regs.aold, bdat, s.regs.bold, Widen(s.regs.bhold), s.regs.cdat),
      Locals(
        if job.useA then job.apt else 0, if job.useB then job.bpt else 0,
        if job.useC then job.cpt else 0, if job.useD then job.dpt else 0),
      Output(s.out, false, 0, s.regs.fc, 0))
  }

  /** The pointers are advanced over the whole blit before the loops run. */
  function FinalPointer(job: Job, ch: Channel): int {
    if job.Uses(ch) then Wrap(job.Start(ch) + job.Sign() * ((job.h * 2 + job.Modulo(ch)) * job.v))
    else job.Start(ch)
  }

  /** The blit through the generic loop or through a specialised one. */
  function LoopBlit(job: Job, special: bool, s: Serial, bdat: Word): Outcome
    requires job.span > 0
  {
    var f := Rows(job, special, Enter(job, s, bdat), job.v);
    Outcome(StoreLast(job, special, f),
      FinalPointer(job, A), FinalPointer(job, B), FinalPointer(job, C), FinalPointer(job, D),
      s.regs.zero && f.out.seen == 0)
  }

  /** The dispatch tables send a blit to a specialised loop if there is one for its minterm. */
  function FastBlit(job: Job, s: Serial, bdat: Word): Outcome
    requires job.span > 0
  {
    LoopBlit(job, Special(job), s, bdat)
  }
}
