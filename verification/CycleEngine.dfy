/** The bus-cycle engine, one step per bus slot.  Which slots the blitter gets is
    decided by the rest of the chipset, so the grant of each slot is an input. */
module CycleEngine {
  import opened ChipMemory
  import opened BlitSpec

  /** What `canblit` says about a slot: blitter DMA off, slot taken, slot free. */
  datatype Grant = Off | Taken | Free

  /** Cycle diagrams: the length L, then L slots for the first round, then L
      slots for every later round.  0 is an idle slot, 1 to 4 are A to D. */
  function Diagram(ch: int): seq<int> {
    match ch
    case 1 => [2, 0, 0, 0, 4]
    case 2 => [2, 0, 3, 0, 3]
    case 3 => [3, 0, 3, 0, 0, 3, 4]
    case 4 => [3, 0, 2, 0, 0, 2, 0]
    case 5 => [3, 0, 2, 0, 0, 2, 4]
    case 6 => [3, 0, 2, 3, 0, 2, 3]
    case 7 => [4, 0, 2, 3, 0, 0, 2, 3, 4]
    case 8 => [2, 1, 0, 1, 0]
    case 9 => [2, 1, 0, 1, 4]
    case 10 => [2, 1, 3, 1, 3]
    case 11 => [3, 1, 3, 0, 1, 3, 4]
    case 12 => [3, 1, 2, 0, 1, 2, 0]
    case 13 => [3, 1, 2, 0, 1, 2, 4]
    case 14 => [3, 1, 2, 3, 1, 2, 3]
    case 15 => [4, 1, 2, 3, 0, 1, 2, 3, 4]
    case _ => [2, 0, 0, 0, 0]
  }

  /** Four channel sets have an extra idle slot in fill mode. */
  function FillDiagram(ch: int): seq<int> {
    match ch
    case 1 => [3, 0, 0, 0, 0, 4, 0]
    case 5 => [4, 0, 2, 0, 0, 0, 2, 4, 0]
    case 9 => [3, 1, 0, 0, 1, 4, 0]
    case 13 => [4, 1, 2, 0, 0, 1, 2, 4, 0]
    case _ => [0]
  }

  const FINAL_WITH_D: seq<int> := [2, 0, 4, 0, 4]
  const FINAL_WITHOUT_D: seq<int> := [2, 0, 0, 0, 0]

  function ChannelSet(job: Job): int {
    (if job.useA then 8 else 0) + (if job.useB then 4 else 0)
    + (if job.useC then 2 else 0) + (if job.useD then 1 else 0)
  }

  predicate ExtraIdle(job: Job) {
    job.fill && FillDiagram(ChannelSet(job))[0] != 0
  }

  /** What is derived from the control registers before the blit starts. */
  datatype Plan = Plan(diag: seq<int>, sources: nat, nod: bool)

  /** Source side: pointers, word counters, sources fetched for this word. */
  datatype Reader = Reader(apt: int, bpt: int, cpt: int, h1: int, v1: int, fetched: int)

  /** Destination side: pointer and counters of the words stored. */
  datatype Writer = Writer(dpt: int, h2: int, v2: int)

  /** The two words that may wait for their D slot. */
  datatype Pipe = Pipe(ddat1: Word, ddat2: Word, use1: bool, use2: bool)

  /** Bus cycles and the state of the blit as a whole. */
  datatype Clock = Clock(cycle: int, total: int, missed: int, waiting: bool, final: bool, irq: bool, running: bool)

  datatype Engine = Engine(
    memory: seq<Word>, regs: Regs, bdat: Word,
    reader: Reader, writer: Writer, pipe: Pipe, clock: Clock, idleD: bool)

  /** A well-formed diagram of length L: at least L first and L later slots. */
  predicate DiagramShape(diag: seq<int>) {
    |diag| > 0 && diag[0] > 0 && |diag| == 1 + 2 * diag[0]
  }

  function CurrentDiagram(plan: Plan, final: bool): (diag: seq<int>)
    requires DiagramShape(plan.diag)
    ensures DiagramShape(diag)
  {
    if final then (if plan.nod then FINAL_WITHOUT_D else FINAL_WITH_D) else plan.diag
  }

  /** Slots of the later rounds, up to slot n, that fetch a source. */
  function SourceSlots(diag: seq<int>, n: nat): nat
    requires DiagramShape(diag) && n <= diag[0]
  {
    if n == 0 then 0
    else SourceSlots(diag, n - 1) + (if 0 < diag[diag[0] + n] < 4 then 1 else 0)
  }

  predicate HasStoreSlot(diag: seq<int>, n: nat)
    requires DiagramShape(diag) && n <= diag[0]
  {
    n > 0 && (diag[diag[0] + n] == 4 || HasStoreSlot(diag, n - 1))
  }

  /** The diagram of a blit, and the counts taken from it. */
  function PlanOf(job: Job): (plan: Plan)
    ensures DiagramShape(plan.diag)
  {
    var ch := ChannelSet(job);
    var diag := if ExtraIdle(job) then FillDiagram(ch) else Diagram(ch);
    Plan(diag, SourceSlots(diag, diag[0]), !HasStoreSlot(diag, diag[0]))
  }

  function ChannelState(diag: seq<int>, cycles: int): int
    requires DiagramShape(diag)
  {
    if cycles < 0 then 0
    else if cycles < diag[0] then diag[1 + cycles]
    else diag[1 + diag[0] + (cycles - diag[0]) % diag[0]]
  }

  function ChannelPos(diag: seq<int>, cycles: int): int
    requires DiagramShape(diag)
  {
    if cycles < 0 then 0
    else if cycles < diag[0] then cycles
    else (cycles - diag[0]) % diag[0]
  }

  /** The word leaves through the D pointer. */
  function NextStored(job: Job, w: Writer): Writer {
    var next := Bump(job, w.dpt);
    if w.h2 + 1 == job.h then Writer(Skip(job, D, next), 0, w.v2 + 1)
    else Writer(next, w.h2 + 1, w.v2)
  }

  /** Stored rows also count as read rows when nothing is read, and the mask
      column follows the destination in a blit that only uses D. */
  function FollowStored(job: Job, plan: Plan, rd: Reader, w: Writer): Reader {
    var v1 :=
      if w.h2 + 1 == job.h then
        var v := if plan.sources == 0 then rd.v1 + 1 else rd.v1;
        if w.v2 + 1 > v then w.v2 + 1 else v
      else rd.v1;
    rd.(v1 := v1, h1 := if ChannelSet(job) == 1 then NextStored(job, w).h2 else rd.h1)
  }

  function StoreWord(job: Job, plan: Plan, e: Engine, d: Word): Engine
    requires job.span > 0
  {
    e.(memory := Put(e.memory, job.span, e.writer.dpt, d),
       writer := NextStored(job, e.writer),
       reader := FollowStored(job, plan, e.reader, e.writer))
  }

  /** The D slot: stores the older computed word; with no source enabled the word
      is computed here. */
  function StoreSlot(job: Job, plan: Plan, e: Engine): Engine
    requires job.span > 0
  {
    if plan.sources == 0 then
      var (r, d) := Compute(job, e.regs, e.reader.h1);
      StoreWord(job, plan, e.(regs := r), d)
    else if e.pipe.use2 then
      StoreWord(job, plan, e.(pipe := e.pipe.(use2 := false)), e.pipe.ddat2)
    else if e.pipe.use1 then
      StoreWord(job, plan, e.(pipe := e.pipe.(use1 := false)), e.pipe.ddat1)
    else
      e.(idleD := true)
  }

  /** The word enters the pipeline behind the one computed before. */
  function Push(job: Job, pipe: Pipe, d: Word): Pipe {
    Pipe(d, pipe.ddat1, job.useD, pipe.use1)
  }

  function NextRead(job: Job, rd: Reader): Reader {
    if rd.h1 + 1 == job.h then
      Reader(
        if job.useA then Skip(job, A, rd.apt) else rd.apt,
        if job.useB then Skip(job, B, rd.bpt) else rd.bpt,
        if job.useC then Skip(job, C, rd.cpt) else rd.cpt,
        0, rd.v1 + 1, 0)
    else
      rd.(h1 := rd.h1 + 1, fetched := 0)
  }

  /** The last source of a word arrived. */
  function ComputeWord(job: Job, e: Engine): Engine {
    var (r, d) := Compute(job, e.regs, e.reader.h1);
    e.(regs := if e.reader.h1 + 1 == job.h then r.(fc := job.carryIn) else r,
       pipe := Push(job, e.pipe, d),
       reader := NextRead(job, e.reader))
  }

  /** A source slot: 1, 2 and 3 fetch A, B and C. */
  function FetchData(job: Job, e: Engine, c: int): Engine
    requires job.span > 0
  {
    if c == 1 then
      var data := Get(e.memory, job.span, e.reader.apt);
      e.(regs := FetchA(e.regs, data), reader := e.reader.(apt := Bump(job, e.reader.apt)))
    else if c == 2 then
      var data := Get(e.memory, job.span, e.reader.bpt);
      e.(regs := FetchB(job, e.regs, data), bdat := data, reader := e.reader.(bpt := Bump(job, e.reader.bpt)))
    else
      var data := Get(e.memory, job.span, e.reader.cpt);
      e.(regs := FetchC(e.regs, data), reader := e.reader.(cpt := Bump(job, e.reader.cpt)))
  }

  function FetchSlot(job: Job, plan: Plan, e: Engine, c: int): Engine
    requires job.span > 0
  {
    var e1 := FetchData(job, e, c);
    if e1.reader.fetched + 1 >= plan.sources then ComputeWord(job, e1)
    else e1.(reader := e1.reader.(fetched := e1.reader.fetched + 1))
  }

  function Advance(e: Engine): Engine {
    e.(clock := e.clock.(cycle := e.clock.cycle + 1, total := e.clock.total + 1))
  }

  function Miss(e: Engine): Engine {
    e.(clock := e.clock.(missed := e.clock.missed + 1))
  }

  function Done(e: Engine): Engine {
    e.(clock := e.clock.(running := false, irq := true), pipe := e.pipe.(use1 := false, use2 := false))
  }

  /** An idle slot. */
  function IdleSlot(job: Job, e: Engine): Engine {
    var e1 := Advance(e);
    var e2 := if e1.clock.cycle == 0 then e1.(clock := e1.clock.(final := false)) else e1;
    if ChannelSet(job) == 0 && e2.clock.cycle >= job.h * job.v + 2 then Done(e2) else e2
  }

  /** A slot in which a channel transfers a word. */
  function TransferSlot(job: Job, plan: Plan, e: Engine, c: int): Engine
    requires job.span > 0
  {
    var e1 := Advance(
      if c == 4 then StoreSlot(job, plan, e)
      else if e.reader.v1 < job.v then FetchSlot(job, plan, e, c)
      else e);
    if e1.reader.v1 >= job.v && e1.writer.v2 >= job.v && !e1.pipe.use1 && !e1.pipe.use2 then Done(e1) else e1
  }

  /** One bus slot, up to the check for the end of the main cycles. */
  function Slot(job: Job, plan: Plan, e: Engine, g: Grant): Engine
    requires job.span > 0 && DiagramShape(plan.diag)
  {
    var c := ChannelState(CurrentDiagram(plan, e.clock.final), e.clock.cycle);
    if e.clock.waiting then
      e.(clock := e.clock.(waiting := false))
    else if (e.clock.cycle < 0 || !e.clock.final || ExtraIdle(job)) && ((c == 0 && g == Taken) || g == Off) then
      Miss(e)
    else if c == 0 then
      IdleSlot(job, e)
    else if g != Free then
      Miss(e)
    else
      TransferSlot(job, plan, e, c)
  }

  /** After the last round the interrupt is raised and two final cycles follow. */
  function EndOfRounds(job: Job, plan: Plan, e: Engine, g: Grant): Engine
    requires DiagramShape(plan.diag)
  {
    if g != Off && !e.clock.final
       && (e.reader.v1 == job.v
           || (e.reader.v1 == job.v - 1 && e.reader.h1 == job.h - 1 && plan.sources == 0))
       && ChannelPos(plan.diag, e.clock.cycle - 1) == plan.diag[0] - 1
    then e.(clock := e.clock.(irq := true, cycle := 0, final := true))
    else e
  }

  function Tick(job: Job, plan: Plan, e: Engine, g: Grant): Engine
    requires job.span > 0 && DiagramShape(plan.diag)
  {
    var e1 := Slot(job, plan, e, g);
    if e1.clock.running then EndOfRounds(job, plan, e1, g) else e1
  }

  /** A run over any sequence of bus slots. */
  function Run(job: Job, plan: Plan, e: Engine, grants: seq<Grant>): Engine
    requires job.span > 0 && DiagramShape(plan.diag)
  {
    if grants == [] then e
    else
      var before := Run(job, plan, e, grants[..|grants| - 1]);
      if before.clock.running then Tick(job, plan, before, grants[|grants| - 1]) else before
  }
}
