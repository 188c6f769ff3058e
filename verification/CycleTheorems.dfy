/** Properties of every run of the bus-cycle engine. */
module CycleTheorems {
  import opened ChipMemory
  import opened Counting
  import opened BlitSpec
  import opened CycleEngine
  import opened CycleProof

  /** After any sequence of grants the engine is in step with the word-serial
      machine, or has finished with its outcome. */
  lemma {:induction false} RunKeepsStep(job: Job, s: Serial, e: Engine, grants: seq<Grant>)
    requires Begun(job, PlanOf(job), s, e) && ChannelSet(job) != 0
    ensures
      var e' := Run(job, PlanOf(job), e, grants);
      if e'.clock.running then Underway(job, PlanOf(job), s, e') else Over(job, PlanOf(job), s, e')
  {
    hide Underway, Over, Tick;
    if grants == [] {
      BegunIsUnderway(job, PlanOf(job), s, e);
    } else {
      var before := Run(job, PlanOf(job), e, grants[..|grants| - 1]);
      RunKeepsStep(job, s, e, grants[..|grants| - 1]);
      if before.clock.running {
        TickKeepsStep(job, PlanOf(job), s, before, grants[|grants| - 1]);
      }
    }
  }

  /** The memory, pointers and zero flag a finished run leaves do not depend on
      which slots were granted. */
  lemma CycleExactOutcome(job: Job, s: Serial, e: Engine, grants: seq<Grant>)
    requires Begun(job, PlanOf(job), s, e) && ChannelSet(job) != 0
    requires !Run(job, PlanOf(job), e, grants).clock.running
    ensures
      var e' := Run(job, PlanOf(job), e, grants);
      Outcome(e'.memory, e'.reader.apt, e'.reader.bpt, e'.reader.cpt, e'.writer.dpt, e'.regs.zero)
        == Blit(job, Resets(job), s)
  {
    RunKeepsStep(job, s, e, grants);
    hide Run, Blit, PlanOf, Underway, Fits;
  }

  // ----- Bus time -----

  /** Granted slots a blit with a destination takes: two to start, one diagram
      per word, and two final ones. */
  function BusCycles(job: Job): nat {
    PlanOf(job).diag[0] * job.Words() + 4
  }

  function FreeSlots(grants: seq<Grant>): nat {
    if grants == [] then 0
    else FreeSlots(grants[..|grants| - 1]) + (if grants[|grants| - 1] == Free then 1 else 0)
  }

  ghost function Progress(e: Engine): int {
    e.clock.total + (if e.clock.waiting then 0 else 1)
  }

  lemma TransferTakesTime(job: Job, plan: Plan, e: Engine, c: int)
    requires job.Valid()
    ensures TransferSlot(job, plan, e, c).clock.total == e.clock.total + 1
    ensures TransferSlot(job, plan, e, c).clock.waiting == e.clock.waiting
  {
    hide StoreSlot, FetchSlot;
    StoreSlotKeepsClock(job, plan, e);
    FetchSlotFrame(job, plan, e, c);
  }

  lemma IdleTakesTime(job: Job, e: Engine)
    ensures IdleSlot(job, e).clock.total == e.clock.total + 1
    ensures IdleSlot(job, e).clock.waiting == e.clock.waiting
  {
  }

  lemma SlotProgress(job: Job, plan: Plan, e: Engine, g: Grant)
    requires job.Valid() && DiagramShape(plan.diag)
    ensures Progress(Slot(job, plan, e, g)) >= Progress(e) + (if g == Free then 1 else 0)
  {
    hide TransferSlot, IdleSlot, ChannelState, CurrentDiagram, ExtraIdle;
    IdleTakesTime(job, e);
    TransferTakesTime(job, plan, e, ChannelState(CurrentDiagram(plan, e.clock.final), e.clock.cycle));
  }

  lemma TickProgress(job: Job, plan: Plan, e: Engine, g: Grant)
    requires job.Valid() && DiagramShape(plan.diag)
    ensures Progress(Tick(job, plan, e, g)) >= Progress(e) + (if g == Free then 1 else 0)
  {
    hide Slot, ChannelPos;
    SlotProgress(job, plan, e, g);
  }

  lemma StoreSlotKeepsClock(job: Job, plan: Plan, e: Engine)
    requires job.Valid()
    ensures StoreSlot(job, plan, e).clock == e.clock
  {
  }

  lemma {:induction false} FreeSlotsAreProgress(job: Job, s: Serial, e: Engine, grants: seq<Grant>)
    requires Begun(job, PlanOf(job), s, e) && ChannelSet(job) != 0
    requires Run(job, PlanOf(job), e, grants).clock.running
    ensures FreeSlots(grants) + Progress(e) <= Progress(Run(job, PlanOf(job), e, grants))
  {
    if grants != [] {
      var before := Run(job, PlanOf(job), e, grants[..|grants| - 1]);
      FreeSlotsAreProgress(job, s, e, grants[..|grants| - 1]);
      RunKeepsStep(job, s, e, grants[..|grants| - 1]);
      hide Underway, Over, Tick, Begun;
      TickProgress(job, PlanOf(job), before, grants[|grants| - 1]);
    }
  }

  lemma UnderwayTotal(job: Job, plan: Plan, s: Serial, e: Engine)
    requires Underway(job, plan, s, e)
    ensures e.clock.total < plan.diag[0] * job.Words() + 4
  {
    hide InRound, Tail, Position;
  }

  lemma BegunProgress(job: Job, plan: Plan, s: Serial, e: Engine)
    requires Begun(job, plan, s, e)
    ensures Progress(e) == if e.clock.waiting then 0 else 1
  {
    hide Fits;
  }

  /** Enough free slots finish the blit, however they are spread. */
  lemma EnoughSlotsFinish(job: Job, s: Serial, e: Engine, grants: seq<Grant>)
    requires Begun(job, PlanOf(job), s, e) && ChannelSet(job) != 0
    requires FreeSlots(grants) >= BusCycles(job) + (if e.clock.waiting then 1 else 0)
    ensures !Run(job, PlanOf(job), e, grants).clock.running
  {
    hide Tick, PlanOf, InRound, Position;
    var e' := Run(job, PlanOf(job), e, grants);
    if e'.clock.running {
      FreeSlotsAreProgress(job, s, e, grants);
      RunKeepsStep(job, s, e, grants);
      UnderwayTotal(job, PlanOf(job), s, e');
      hide Underway, Over, Run, FreeSlots;
      BegunProgress(job, PlanOf(job), s, e);
    }
  }

  /** A blit that writes takes exactly its bus time, never more or less. */
  lemma ExactBusTime(job: Job, s: Serial, e: Engine, grants: seq<Grant>)
    requires Begun(job, PlanOf(job), s, e) && job.useD
    requires !Run(job, PlanOf(job), e, grants).clock.running
    ensures Run(job, PlanOf(job), e, grants).clock.total == BusCycles(job)
  {
    RunKeepsStep(job, s, e, grants);
  }

  /** Bus slots a word takes, by its channels: two, and one more for B, for C together with D,
      and for an area fill that stores without C. */
  function SlotsPerWord(job: Job): int {
    2 + (if job.useB then 1 else 0) + (if job.useC && job.useD then 1 else 0)
      + (if job.fill && job.useD && !job.useC then 1 else 0)
  }

  lemma DiagramSlots(job: Job)
    ensures PlanOf(job).diag[0] == SlotsPerWord(job)
  {
  }

  /** So the time of a blit follows from its channels and its size. */
  lemma BusTimeByChannels(job: Job, s: Serial, e: Engine, grants: seq<Grant>)
    requires Begun(job, PlanOf(job), s, e) && job.useD
    requires !Run(job, PlanOf(job), e, grants).clock.running
    ensures Run(job, PlanOf(job), e, grants).clock.total == SlotsPerWord(job) * (job.h * job.v) + 4
  {
    hide Run, Begun, PlanOf, SlotsPerWord;
    ExactBusTime(job, s, e, grants);
    DiagramSlots(job);
  }

  // ----- The pipeline -----

  ghost function WordsComputed(job: Job, e: Engine): int {
    job.h * e.reader.v1 + e.reader.h1
  }

  ghost function WordsStored(job: Job, e: Engine): int {
    job.h * e.writer.v2 + e.writer.h2
  }

  ghost function Held(e: Engine): int {
    (if e.pipe.use1 then 1 else 0) + (if e.pipe.use2 then 1 else 0)
  }

  lemma StoredCount(job: Job, w: Writer, m: nat)
    requires job.Valid() && job.useD && Stored(job, w, m)
    ensures job.h * w.v2 + w.h2 == m
  {
    hide Pointer;
    WholeAndRest(m, job.h);
  }

  lemma WholeAndRest(k: nat, h: nat)
    requires h > 0
    ensures h * (k / h) + k % h == k
  {
  }

  lemma ComputedHolds(job: Job, s: Serial, e: Engine, r: nat, stored: bool)
    requires job.Valid() && Computed(job, s, e, r, stored) && job.useD
    ensures WordsComputed(job, e) - WordsStored(job, e) == Held(e) <= 2
    ensures stored ==> WordsStored(job, e) == r && Held(e) == 1
  {
    hide At, Pointer, Stored;
    StoredCount(job, e.writer, if r == 0 || stored then r else r - 1);
    WholeAndRest(r + 1, job.h);
  }

  lemma DirectHolds(job: Job, s: Serial, e: Engine, m: nat)
    requires job.Valid() && Direct(job, s, e, m) && job.useD
    ensures WordsComputed(job, e) == WordsStored(job, e) == m && Held(e) == 0
  {
    hide At, Pointer, Stored, Store;
    StoredCount(job, e.writer, m);
    WholeAndRest(m, job.h);
  }

  lemma ReadingHolds(job: Job, s: Serial, e: Engine, r: nat, a: bool, b: bool, c: bool)
    requires job.Valid() && Reading(job, s, e, r, a, b, c) && job.useD
    ensures WordsComputed(job, e) - WordsStored(job, e) == Held(e) <= 1
  {
    hide At, Pointer, Stored, Fetch;
    StoredCount(job, e.writer, if r == 0 then 0 else r - 1);
    WholeAndRest(r, job.h);
  }

  lemma RoundHolds(job: Job, plan: Plan, s: Serial, e: Engine, r: nat, p: nat)
    requires Fits(job, plan) && InRound(job, plan, s, e, r, p) && job.useD
    ensures WordsComputed(job, e) - WordsStored(job, e) == Held(e) <= 2
  {
    hide Computed, Reading, Direct, Position, WordsComputed, WordsStored;
    if job.Sources() == 0 {
      DirectHolds(job, s, e, if GotD(job, plan, p) || r == 0 then r else r - 1);
    } else if Count(GotA(job, plan, p), GotB(job, plan, p), GotC(job, plan, p)) < job.Sources() {
      ReadingHolds(job, s, e, r, GotA(job, plan, p), GotB(job, plan, p), GotC(job, plan, p));
    } else {
      ComputedHolds(job, s, e, r, GotD(job, plan, p));
    }
  }

  lemma TailHolds(job: Job, s: Serial, e: Engine)
    requires job.Valid() && Tail(job, s, e) && job.useD
    ensures WordsComputed(job, e) - WordsStored(job, e) == Held(e) <= 1
    ensures WordsStored(job, e) == job.Words() - 1
  {
    hide Computed, Direct, WordsComputed, WordsStored;
    if job.Sources() == 0 {
      DirectHolds(job, s, e, job.Words() - 1);
    } else {
      ComputedHolds(job, s, e, job.Words() - 1, true);
    }
  }

  /** In every run of a blit that writes, at most two computed words wait for
      their D slot, the engine never comes to a D slot with nothing to store, and
      when the finish interrupt is raised exactly one word is still to be stored. */
  lemma PipelineNeverOverflows(job: Job, s: Serial, e: Engine, grants: seq<Grant>)
    requires Begun(job, PlanOf(job), s, e) && job.useD
    ensures
      var e' := Run(job, PlanOf(job), e, grants);
      && !e'.idleD
      && (e'.clock.running ==>
        && WordsComputed(job, e') - WordsStored(job, e') == Held(e') <= 2
        && (e'.clock.cycle >= 0 && e'.clock.final ==> job.Words() - WordsStored(job, e') == 1))
  {
    hide InRound, Tail, Position, Run, WordsComputed, WordsStored, PlanOf;
    var plan := PlanOf(job);
    var e' := Run(job, plan, e, grants);
    RunKeepsStep(job, s, e, grants);
    if e'.clock.running {
      if e'.clock.cycle < 0 {
        RoundHolds(job, plan, s, e', 0, 0);
      } else if e'.clock.final {
        TailHolds(job, s, e');
      } else {
        RoundHolds(job, plan, s, e', Turn(plan, e'.clock.cycle), Place(plan, e'.clock.cycle));
      }
    }
  }
}
