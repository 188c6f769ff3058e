/** What a (non-line) blit means: a machine that handles one destination word
    after the other.  Word k is fetched through the enabled source channels,
    then word k - 1 is stored, then word k is computed.  Both engines of the
    emulator are compared with this machine. */
module BlitSpec {
  import opened ChipMemory
  import opened DataPath
  import opened Counting

  datatype Channel = A | B | C | D

  /** Everything the registers say about a blit when it starts. */
  datatype Job = Job(
    useA: bool, useB: bool, useC: bool, useD: bool,
    minterm: bv8, ashift: Shift, bshift: Shift,
    descending: bool, fill: bool, inclusive: bool, carryIn: bool,
    afwm: Word, alwm: Word,
    h: nat, v: nat,
    amod: int, bmod: int, cmod: int, dmod: int,
    apt: int, bpt: int, cpt: int, dpt: int,
    span: nat)
  {
    ghost predicate Valid() {
      h > 0 && v > 0 && span > 0
      && 0 <= apt < ADDRESS_SPACE && 0 <= bpt < ADDRESS_SPACE
      && 0 <= cpt < ADDRESS_SPACE && 0 <= dpt < ADDRESS_SPACE
    }

    predicate Uses(ch: Channel) {
      match ch case A => useA case B => useB case C => useC case D => useD
    }

    function Start(ch: Channel): int {
      match ch case A => apt case B => bpt case C => cpt case D => dpt
    }

    function Modulo(ch: Channel): int {
      match ch case A => amod case B => bmod case C => cmod case D => dmod
    }

    function Sources(): (n: nat) {
      (if useA then 1 else 0) + (if useB then 1 else 0) + (if useC then 1 else 0)
    }

    function Sign(): int {
      if descending then -1 else 1
    }

    function Words(): nat {
      h * v
    }
  }

  /** A pointer after the word it points at has been transferred. */
  function Bump(job: Job, pointer: int): int {
    Wrap(pointer + 2 * job.Sign())
  }

  /** ... and after the modulo has been added at the end of a row. */
  function Skip(job: Job, ch: Channel, pointer: int): int {
    Wrap(pointer + job.Sign() * job.Modulo(ch))
  }

  /** Address of word k of a channel; a disabled channel keeps its pointer. */
  function Pointer(job: Job, ch: Channel, k: nat): int
    requires job.h > 0
  {
    if k == 0 || !job.Uses(ch) then job.Start(ch)
    else
      var next := Bump(job, Pointer(job, ch, k - 1));
      if (k - 1) % job.h == job.h - 1 then Skip(job, ch, next) else next
  }

  /** The registers that carry state from word to word.  `zero` is the flag that
      says that every word so far was zero. */
  datatype Regs = Regs(adat: Word, aold: Word, bold: Word, bhold: Word, cdat: Word, fc: bool, zero: bool)

  function FetchA(r: Regs, data: Word): Regs {
    r.(adat := data)
  }

  function FetchB(job: Job, r: Regs, data: Word): Regs {
    r.(bhold := Low(Shifter(job.descending, job.bshift, r.bold, data)), bold := data)
  }

  function FetchC(r: Regs, data: Word): Regs {
    r.(cdat := data)
  }

  /** The fetches of word k that have happened, as told by the three flags. */
  function Fetch(job: Job, a: bool, b: bool, c: bool, r: Regs, memory: seq<Word>, k: nat): Regs
    requires job.h > 0 && job.span > 0
  {
    var r := if a then FetchA(r, Get(memory, job.span, Pointer(job, A, k))) else r;
    var r := if b then FetchB(job, r, Get(memory, job.span, Pointer(job, B, k))) else r;
    if c then FetchC(r, Get(memory, job.span, Pointer(job, C, k))) else r
  }

  /** First and last word masks apply to source A only. */
  function MaskA(job: Job, column: int, data: Word): Word {
    var m := if column == 0 then Masked(data, job.afwm) else data;
    if column == job.h - 1 then Masked(m, job.alwm) else m
  }

  /** Computes the destination word of one column from the fetched registers. */
  function Compute(job: Job, r: Regs, column: int): (Regs, Word) {
    var a := MaskA(job, column, r.adat);
    var d := Minterm(job.minterm, Low(Shifter(job.descending, job.ashift, r.aold, a)), r.bhold, r.cdat);
    var (out, fc) := if job.fill then FillWord(job.inclusive, r.fc, d) else (d, r.fc);
    (r.(aold := a, fc := fc, zero := r.zero && out == 0), out)
  }

  /** The fill carry starts afresh in every row. */
  function EndColumn(job: Job, r: Regs, column: int): Regs {
    if column == job.h - 1 then r.(fc := job.carryIn) else r
  }

  datatype Serial = Serial(memory: seq<Word>, regs: Regs, out: Word)

  function Store(job: Job, s: Serial, k: nat): seq<Word>
    requires job.Valid()
  {
    if job.useD && k > 0 then Put(s.memory, job.span, Pointer(job, D, k - 1), s.out) else s.memory
  }

  /** Word k: fetch, store word k - 1, compute.  `rowReset` tells whether the fill
      carry is reset at the end of a row. */
  function WordStep(job: Job, rowReset: bool, s: Serial, k: nat): Serial
    requires job.Valid()
  {
    var r := Fetch(job, job.useA, job.useB, job.useC, s.regs, s.memory, k);
    var (r', out) := Compute(job, r, k % job.h);
    Serial(Store(job, s, k), if rowReset then EndColumn(job, r', k % job.h) else r', out)
  }

  /** The machine after k words; the last of them is not stored yet. */
  function Serially(job: Job, rowReset: bool, s: Serial, k: nat): Serial
    requires job.Valid()
  {
    if k == 0 then s else WordStep(job, rowReset, Serially(job, rowReset, s, k - 1), k - 1)
  }

  /** The outcome of a blit. */
  datatype Outcome = Outcome(memory: seq<Word>, apt: int, bpt: int, cpt: int, dpt: int, zero: bool)

  function Blit(job: Job, rowReset: bool, s: Serial): Outcome
    requires job.Valid()
  {
    var n := job.Words();
    var last := Serially(job, rowReset, s, n);
    Outcome(Store(job, last, n),
      Pointer(job, A, n), Pointer(job, B, n), Pointer(job, C, n), Pointer(job, D, n), last.regs.zero)
  }
}
