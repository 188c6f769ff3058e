/** Where the bus-cycle engine stands after any sequence of grants, in terms of
    the word-serial machine of BlitSpec. */
module CycleProof {
  import opened ChipMemory
  import opened Counting
  import opened BlitSpec
  import opened CycleEngine

  // ----- Cycle diagrams -----

  function Later(diag: seq<int>, p: int): int
    requires DiagramShape(diag) && 0 <= p < diag[0]
  {
    diag[1 + diag[0] + p]
  }

  function First(diag: seq<int>, p: int): int
    requires DiagramShape(diag) && 0 <= p < diag[0]
  {
    diag[1 + p]
  }

  /** Position of a channel in a round, or the length when it is absent. */
  function Position(diag: seq<int>, c: int): int
    requires DiagramShape(diag)
  {
    PositionFrom(diag, c, 0)
  }

  function PositionFrom(diag: seq<int>, c: int, p: nat): (r: int)
    requires DiagramShape(diag) && p <= diag[0]
    ensures p <= r <= diag[0]
    ensures r < diag[0] ==> Later(diag, r) == c
    decreases diag[0] - p
  {
    if p == diag[0] || Later(diag, p) == c then p else PositionFrom(diag, c, p + 1)
  }

  /** The round a cycle belongs to, its place in the round, and the cycles before a round. */
  function Turn(plan: Plan, cycle: int): int
    requires DiagramShape(plan.diag)
  {
    cycle / plan.diag[0]
  }

  function Place(plan: Plan, cycle: int): (p: int)
    requires DiagramShape(plan.diag)
    ensures 0 <= p < plan.diag[0]
  {
    cycle % plan.diag[0]
  }

  function Before(plan: Plan, r: int): int
    requires DiagramShape(plan.diag)
  {
    plan.diag[0] * r
  }

  /** What the engine relies on: every enabled channel has exactly one slot, the
      D slot comes after all sources, and the first round has no D slot. */
  ghost predicate Fits(job: Job, plan: Plan) {
    job.Valid() && DiagramShape(plan.diag)
    && plan.diag[0] >= 2
    && plan.sources == job.Sources() && plan.nod == !job.useD
    && (forall p :: 0 <= p < plan.diag[0] ==>
      First(plan.diag, p) == if Later(plan.diag, p) == 4 then 0 else Later(plan.diag, p))
    && (forall p :: 0 <= p < plan.diag[0] && Later(plan.diag, p) != 0 ==>
      1 <= Later(plan.diag, p) <= 4 && p == Position(plan.diag, Later(plan.diag, p)))
    && (job.useA <==> Position(plan.diag, 1) < plan.diag[0])
    && (job.useB <==> Position(plan.diag, 2) < plan.diag[0])
    && (job.useC <==> Position(plan.diag, 3) < plan.diag[0])
    && (job.useD <==> Position(plan.diag, 4) < plan.diag[0])
    && (job.useD ==>
      && (job.useA ==> Position(plan.diag, 1) < Position(plan.diag, 4))
      && (job.useB ==> Position(plan.diag, 2) < Position(plan.diag, 4))
      && (job.useC ==> Position(plan.diag, 3) < Position(plan.diag, 4)))
    && (job.useA && job.useB ==> Position(plan.diag, 1) < Position(plan.diag, 2))
    && (job.useA && job.useC ==> Position(plan.diag, 1) < Position(plan.diag, 3))
    && (job.useB && job.useC ==> Position(plan.diag, 2) < Position(plan.diag, 3))
  }

  lemma CountsOfShortDiagram(diag: seq<int>)
    requires DiagramShape(diag) && 2 <= diag[0] <= 4
    ensures
      var Src := (v: int) => if 0 < v < 4 then 1 else 0;
      SourceSlots(diag, diag[0]) ==
        Src(Later(diag, 0)) + Src(Later(diag, 1))
        + (if diag[0] > 2 then Src(Later(diag, 2)) else 0) + (if diag[0] > 3 then Src(Later(diag, 3)) else 0)
    ensures HasStoreSlot(diag, diag[0]) ==
      (exists p :: 0 <= p < diag[0] && Later(diag, p) == 4)
  {
    assert SourceSlots(diag, 1) == SourceSlots(diag, 0) + (if 0 < diag[diag[0] + 1] < 4 then 1 else 0);
    assert HasStoreSlot(diag, 1) == (Later(diag, 0) == 4);
    assert HasStoreSlot(diag, 2) == (Later(diag, 1) == 4 || Later(diag, 0) == 4);
    if diag[0] > 2 {
      assert HasStoreSlot(diag, 3) == (Later(diag, 2) == 4 || HasStoreSlot(diag, 2));
      assert SourceSlots(diag, 3) == SourceSlots(diag, 2) + (if 0 < diag[diag[0] + 3] < 4 then 1 else 0);
    }
  }

  lemma PositionsOfShortDiagram(diag: seq<int>, c: int)
    requires DiagramShape(diag) && 2 <= diag[0] <= 4
    ensures Position(diag, c) ==
      if Later(diag, 0) == c then 0
      else if Later(diag, 1) == c then 1
      else if diag[0] == 2 then 2
      else if Later(diag, 2) == c then 2
      else if diag[0] == 3 then 3
      else if Later(diag, 3) == c then 3
      else 4
  {
    assert PositionFrom(diag, c, 0) == if Later(diag, 0) == c then 0 else PositionFrom(diag, c, 1);
    assert PositionFrom(diag, c, 1) == if Later(diag, 1) == c then 1 else PositionFrom(diag, c, 2);
    assert PositionFrom(diag, c, 2) ==
      if diag[0] == 2 || Later(diag, 2) == c then 2 else PositionFrom(diag, c, 3);
    if diag[0] > 2 {
      assert PositionFrom(diag, c, 3) ==
        if diag[0] == 3 || Later(diag, 3) == c then 3 else PositionFrom(diag, c, 4);
    }
  }

  lemma PlainDiagramsFromABFit(job: Job)
    requires job.Valid() && job.useA && job.useB && !ExtraIdle(job)
    ensures Fits(job, PlanOf(job))
  {
    var diag := PlanOf(job).diag;
    assert 2 <= diag[0] <= 4;
    CountsOfShortDiagram(diag);
    PositionsOfShortDiagram(diag, 1);
    PositionsOfShortDiagram(diag, 2);
    PositionsOfShortDiagram(diag, 3);
    hide Position, SourceSlots, HasStoreSlot;
    PositionsOfShortDiagram(diag, 4);
  }

  lemma PlainDiagramsFromAFit(job: Job)
    requires job.Valid() && job.useA && !job.useB && !ExtraIdle(job)
    ensures Fits(job, PlanOf(job))
  {
    var diag := PlanOf(job).diag;
    assert 2 <= diag[0] <= 4;
    CountsOfShortDiagram(diag);
    PositionsOfShortDiagram(diag, 1);
    PositionsOfShortDiagram(diag, 2);
    PositionsOfShortDiagram(diag, 3);
    hide Position, SourceSlots, HasStoreSlot;
    PositionsOfShortDiagram(diag, 4);
  }

  lemma PlainDiagramsFromBFit(job: Job)
    requires job.Valid() && !job.useA && job.useB && !ExtraIdle(job)
    ensures Fits(job, PlanOf(job))
  {
    var diag := PlanOf(job).diag;
    assert 2 <= diag[0] <= 4;
    CountsOfShortDiagram(diag);
    PositionsOfShortDiagram(diag, 1);
    PositionsOfShortDiagram(diag, 2);
    PositionsOfShortDiagram(diag, 3);
    hide Position, SourceSlots, HasStoreSlot;
    PositionsOfShortDiagram(diag, 4);
  }

  lemma PlainDiagramsFromCDFit(job: Job)
    requires job.Valid() && !job.useA && !job.useB && ChannelSet(job) != 0 && !ExtraIdle(job)
    ensures Fits(job, PlanOf(job))
  {
    var diag := PlanOf(job).diag;
    assert 2 <= diag[0] <= 4;
    CountsOfShortDiagram(diag);
    PositionsOfShortDiagram(diag, 1);
    PositionsOfShortDiagram(diag, 2);
    PositionsOfShortDiagram(diag, 3);
    hide Position, SourceSlots, HasStoreSlot;
    PositionsOfShortDiagram(diag, 4);
  }

  lemma FillDiagramsFit(job: Job)
    requires job.Valid() && ExtraIdle(job)
    ensures Fits(job, PlanOf(job))
  {
    var diag := PlanOf(job).diag;
    assert 2 <= diag[0] <= 4;
    CountsOfShortDiagram(diag);
    PositionsOfShortDiagram(diag, 1);
    PositionsOfShortDiagram(diag, 2);
    PositionsOfShortDiagram(diag, 3);
    hide Position, SourceSlots, HasStoreSlot;
    PositionsOfShortDiagram(diag, 4);
  }

  /** All twenty diagrams fit the channels they are chosen for. */
  lemma DiagramsFit(job: Job)
    requires job.Valid() && ChannelSet(job) != 0
    ensures Fits(job, PlanOf(job))
  {
    hide PlanOf, Fits;
    if ExtraIdle(job) {
      FillDiagramsFit(job);
    } else if job.useA {
      if job.useB {
        PlainDiagramsFromABFit(job);
      } else {
        PlainDiagramsFromAFit(job);
      }
    } else if job.useB {
      PlainDiagramsFromBFit(job);
    } else {
      PlainDiagramsFromCDFit(job);
    }
  }

  predicate ChannelSlots(diag: seq<int>) {
    |diag| <= 9 && forall k :: 1 <= k < |diag| ==> 0 <= diag[k] <= 4
  }

  lemma LowDiagramsAreChannels(ch: int)
    requires ch < 8
    ensures ChannelSlots(Diagram(ch))
  {
  }

  lemma DiagramsAreChannels(ch: int)
    ensures ChannelSlots(Diagram(ch)) && ChannelSlots(FillDiagram(ch))
  {
    if ch < 8 {
      LowDiagramsAreChannels(ch);
      hide Diagram;
    }
  }

  /** No diagram has a slot for anything but the four channels. */
  lemma SlotsAreChannels(job: Job, final: bool, cycle: int)
    ensures 0 <= ChannelState(CurrentDiagram(PlanOf(job), final), cycle) <= 4
  {
    hide Diagram, FillDiagram;
    DiagramsAreChannels(ChannelSet(job));
    var diag := CurrentDiagram(PlanOf(job), final);
    assert ChannelSlots(diag);
  }

  predicate GotA(job: Job, plan: Plan, p: int) requires DiagramShape(plan.diag) {
    job.useA && Position(plan.diag, 1) < p
  }
  predicate GotB(job: Job, plan: Plan, p: int) requires DiagramShape(plan.diag) {
    job.useB && Position(plan.diag, 2) < p
  }
  predicate GotC(job: Job, plan: Plan, p: int) requires DiagramShape(plan.diag) {
    job.useC && Position(plan.diag, 3) < p
  }
  predicate GotD(job: Job, plan: Plan, p: int) requires DiagramShape(plan.diag) {
    job.useD && Position(plan.diag, 4) < p
  }
  function Count(a: bool, b: bool, c: bool): int {
    (if a then 1 else 0) + (if b then 1 else 0) + (if c then 1 else 0)
  }

  // ----- The engine between two slots -----

  /** A source pointer inside a round: past the word once it has been fetched. */
  function MidPointer(job: Job, ch: Channel, got: bool, r: nat): int
    requires job.h > 0
  {
    if got then Bump(job, Pointer(job, ch, r)) else Pointer(job, ch, r)
  }

  /** The fill carry is reset at row ends when words are computed from sources. */
  predicate Resets(job: Job) {
    job.Sources() > 0
  }

  function At(job: Job, s: Serial, k: nat): Serial
    requires job.Valid()
  {
    Serially(job, Resets(job), s, k)
  }

  /** m words stored: the destination pointer and its row counters. */
  ghost predicate Stored(job: Job, w: Writer, m: nat)
    requires job.Valid()
  {
    if job.useD then
      w == Writer(Pointer(job, D, m), m % job.h, m / job.h)
    else
      w == Writer(job.dpt, 0, job.v)
  }

  /** Where the source side stands while word r is fetched. */
  ghost function ReaderAt(job: Job, r: nat, a: bool, b: bool, c: bool): Reader
    requires job.Valid()
  {
    Reader(MidPointer(job, A, a, r), MidPointer(job, B, b, r), MidPointer(job, C, c, r),
      r % job.h, r / job.h, Count(a, b, c))
  }

  /** Round r, not all sources of word r fetched yet. */
  ghost predicate Reading(job: Job, s: Serial, e: Engine, r: nat, a: bool, b: bool, c: bool)
    requires job.Valid()
  {
    var now := At(job, s, r);
    && e.memory == now.memory
    && e.regs == Fetch(job, a, b, c, now.regs, now.memory, r)
    && e.reader == ReaderAt(job, r, a, b, c)
    && Stored(job, e.writer, if r == 0 then 0 else r - 1)
    && e.pipe.use1 == (job.useD && r > 0) && !e.pipe.use2
    && (r > 0 ==> e.pipe.ddat1 == now.out)
  }

  /** Round r, word r computed; `stored` tells whether word r - 1 is stored. */
  ghost predicate Computed(job: Job, s: Serial, e: Engine, r: nat, stored: bool)
    requires job.Valid()
  {
    var now := At(job, s, r + 1);
    && e.regs == now.regs
    && e.reader == ReaderAt(job, r + 1, false, false, false)
    && e.pipe.ddat1 == now.out && e.pipe.use1 == job.useD
    && if !job.useD || r == 0 || stored then
         e.memory == now.memory && !e.pipe.use2 && Stored(job, e.writer, r)
       else
         e.memory == At(job, s, r).memory && e.pipe.use2 && e.pipe.ddat2 == At(job, s, r).out
         && Stored(job, e.writer, r - 1)
  }

  /** Without sources, m words computed and stored. */
  ghost predicate Direct(job: Job, s: Serial, e: Engine, m: nat)
    requires job.Valid()
  {
    && e.memory == Store(job, At(job, s, m), m)
    && e.regs == At(job, s, m).regs
    && e.reader == Reader(job.apt, job.bpt, job.cpt, m % job.h, m / job.h, 0)
    && Stored(job, e.writer, m)
    && !e.pipe.use1 && !e.pipe.use2
  }

  ghost predicate InRound(job: Job, plan: Plan, s: Serial, e: Engine, r: nat, p: nat)
    requires Fits(job, plan)
  {
    if job.Sources() == 0 then
      Direct(job, s, e, if !job.useD then 0 else if GotD(job, plan, p) || r == 0 then r else r - 1)
    else if Count(GotA(job, plan, p), GotB(job, plan, p), GotC(job, plan, p)) < job.Sources() then
      Reading(job, s, e, r, GotA(job, plan, p), GotB(job, plan, p), GotC(job, plan, p))
    else
      Computed(job, s, e, r, GotD(job, plan, p))
  }

  // ----- Single slots -----

  lemma PointerStep(job: Job, ch: Channel, k: nat)
    requires job.Valid() && job.Uses(ch)
    ensures Pointer(job, ch, k + 1) ==
      if k % job.h == job.h - 1 then Skip(job, ch, Bump(job, Pointer(job, ch, k)))
      else Bump(job, Pointer(job, ch, k))
  {
  }

  lemma PointerIdle(job: Job, ch: Channel, k: nat)
    requires job.Valid() && !job.Uses(ch)
    ensures Pointer(job, ch, k) == job.Start(ch)
  {
  }

  /** What the diagram says about a source slot. */
  lemma SourceSlot(job: Job, plan: Plan, p: nat)
    requires Fits(job, plan) && p < plan.diag[0] && 1 <= Later(plan.diag, p) <= 3
    ensures !GotD(job, plan, p + 1) && job.Sources() > 0
    ensures GotA(job, plan, p + 1) == (GotA(job, plan, p) || Later(plan.diag, p) == 1)
    ensures GotB(job, plan, p + 1) == (GotB(job, plan, p) || Later(plan.diag, p) == 2)
    ensures GotC(job, plan, p + 1) == (GotC(job, plan, p) || Later(plan.diag, p) == 3)
    ensures match Later(plan.diag, p)
            case 1 => job.useA && !GotA(job, plan, p) && !GotB(job, plan, p) && !GotC(job, plan, p)
            case 2 => job.useB && !GotB(job, plan, p) && !GotC(job, plan, p)
            case _ => job.useC && !GotC(job, plan, p)
  {
    assert p == Position(plan.diag, Later(plan.diag, p));
  }

  /** The fetches come in the order A, B, C. */
  ghost predicate NextSource(job: Job, c: int, a: bool, b: bool, c': bool) {
    match c
    case 1 => job.useA && !a && !b && !c'
    case 2 => job.useB && !b && !c'
    case 3 => job.useC && !c'
    case _ => false
  }

  lemma FetchAdds(job: Job, s: Serial, e: Engine, r: nat, c: int, a: bool, b: bool, c': bool)
    requires job.Valid() && Reading(job, s, e, r, a, b, c') && NextSource(job, c, a, b, c')
    ensures
      var now := At(job, s, r);
      FetchData(job, e, c) == e.(
        regs := Fetch(job, a || c == 1, b || c == 2, c' || c == 3, now.regs, now.memory, r),
        reader := ReaderAt(job, r, a || c == 1, b || c == 2, c' || c == 3).(fetched := e.reader.fetched),
        bdat := FetchData(job, e, c).bdat)
  {
  }

  lemma FetchKeepsReading(job: Job, plan: Plan, s: Serial, e: Engine, r: nat, c: int, a: bool, b: bool, c': bool)
    requires job.Valid() && plan.sources == job.Sources()
    requires Reading(job, s, e, r, a, b, c') && NextSource(job, c, a, b, c')
    requires e.reader.fetched + 1 < job.Sources()
    ensures Reading(job, s, FetchSlot(job, plan, e, c), r, a || c == 1, b || c == 2, c' || c == 3)
  {
    FetchAdds(job, s, e, r, c, a, b, c');
  }

  lemma LastFetchComputes(job: Job, plan: Plan, s: Serial, e: Engine, r: nat, c: int, a: bool, b: bool, c': bool)
    requires job.Valid() && plan.sources == job.Sources()
    requires Reading(job, s, e, r, a, b, c') && NextSource(job, c, a, b, c')
    requires (a || c == 1) == job.useA && (b || c == 2) == job.useB && (c' || c == 3) == job.useC
    ensures Computed(job, s, FetchSlot(job, plan, e, c), r, false)
  {
    FetchAdds(job, s, e, r, c, a, b, c');
    NextReadPointers(job, r, e.reader.fetched);
    assert At(job, s, r + 1) == WordStep(job, true, At(job, s, r), r);
  }

  lemma NextReadPointers(job: Job, r: nat, fetched: int)
    requires job.Valid()
    ensures NextRead(job, ReaderAt(job, r, job.useA, job.useB, job.useC).(fetched := fetched))
         == ReaderAt(job, r + 1, false, false, false)
  {
    NextWord(r, job.h);
    PointerAfterFetch(job, A, r);
    PointerAfterFetch(job, B, r);
    PointerAfterFetch(job, C, r);
  }

  lemma PointerAfterFetch(job: Job, ch: Channel, r: nat)
    requires job.Valid()
    ensures Pointer(job, ch, r + 1) ==
      if !job.Uses(ch) then Pointer(job, ch, r)
      else if r % job.h == job.h - 1 then Skip(job, ch, Bump(job, Pointer(job, ch, r)))
      else Bump(job, Pointer(job, ch, r))
  {
    if job.Uses(ch) {
      PointerStep(job, ch, r);
    } else {
      PointerIdle(job, ch, r);
      PointerIdle(job, ch, r + 1);
    }
  }

  /** An empty slot, or the D slot of the first round, changes nothing. */
  lemma IdleStep(job: Job, plan: Plan, s: Serial, e: Engine, r: nat, p: nat)
    requires Fits(job, plan) && p < plan.diag[0] && InRound(job, plan, s, e, r, p)
    requires Later(plan.diag, p) == 0 || (r == 0 && Later(plan.diag, p) == 4)
    ensures InRound(job, plan, s, e, r, p + 1)
  {
    hide Serially, Pointer, Fetch, Store;
    if Later(plan.diag, p) == 4 {
      assert p == Position(plan.diag, 4);
    }
  }

  lemma FetchStep(job: Job, plan: Plan, s: Serial, e: Engine, r: nat, p: nat)
    requires Fits(job, plan) && p < plan.diag[0] && InRound(job, plan, s, e, r, p)
    requires 1 <= Later(plan.diag, p) <= 3
    ensures InRound(job, plan, s, FetchSlot(job, plan, e, Later(plan.diag, p)), r, p + 1)
  {
    SourceSlot(job, plan, p);
    var c := Later(plan.diag, p);
    var a, b, c' := GotA(job, plan, p), GotB(job, plan, p), GotC(job, plan, p);
    if Count(a, b, c') + 1 == job.Sources() {
      LastFetchComputes(job, plan, s, e, r, c, a, b, c');
    } else {
      FetchKeepsReading(job, plan, s, e, r, c, a, b, c');
    }
  }

  lemma NextStoredIs(job: Job, w: Writer, m: nat)
    requires job.Valid() && job.useD && Stored(job, w, m)
    ensures Stored(job, NextStored(job, w), m + 1)
  {
    NextWord(m, job.h);
    PointerStep(job, D, m);
  }

  lemma StoreComputed(job: Job, plan: Plan, s: Serial, e: Engine, r: nat)
    requires job.Valid() && plan.sources == job.Sources() > 0 && job.useD && r > 0
    requires Computed(job, s, e, r, false)
    ensures Computed(job, s, StoreSlot(job, plan, e), r, true)
  {
    NextStoredIs(job, e.writer, r - 1);
    NextWord(r - 1, job.h);
    NextWord(r, job.h);
    assert At(job, s, r + 1).memory == Store(job, At(job, s, r), r);
  }

  lemma StoreDirect(job: Job, plan: Plan, s: Serial, e: Engine, m: nat)
    requires job.Valid() && plan.sources == job.Sources() == 0 && job.useD
    requires Direct(job, s, e, m)
    ensures Direct(job, s, StoreSlot(job, plan, e), m + 1)
  {
    NextStoredIs(job, e.writer, m);
    NextWord(m, job.h);
    assert At(job, s, m + 1) == WordStep(job, false, At(job, s, m), m);
  }

  lemma StoreStep(job: Job, plan: Plan, s: Serial, e: Engine, r: nat, p: nat)
    requires Fits(job, plan) && p < plan.diag[0] && InRound(job, plan, s, e, r, p)
    requires Later(plan.diag, p) == 4 && r > 0
    ensures InRound(job, plan, s, StoreSlot(job, plan, e), r, p + 1)
  {
    assert p == Position(plan.diag, 4);
    assert GotD(job, plan, p + 1) && !GotD(job, plan, p);
    if job.Sources() == 0 {
      StoreDirect(job, plan, s, e, r - 1);
    } else {
      assert Computed(job, s, e, r, false);
      StoreComputed(job, plan, s, e, r);
    }
  }

  /** The end of a round is the beginning of the next one. */
  lemma TurnRound(job: Job, plan: Plan, s: Serial, e: Engine, r: nat)
    requires Fits(job, plan) && InRound(job, plan, s, e, r, plan.diag[0])
    ensures InRound(job, plan, s, e, r + 1, 0)
  {
  }

  // ----- Whole runs -----

  /** The engine as a start leaves it.  `final` may be left over from the blit
      before; `waiting` is set by a copper start. */
  ghost predicate Begun(job: Job, plan: Plan, s: Serial, e: Engine) {
    && Fits(job, plan)
    && e.memory == s.memory && e.regs == s.regs
    && e.reader == Reader(job.apt, job.bpt, job.cpt, 0, 0, 0)
    && e.writer == Writer(job.dpt, 0, if plan.nod then job.v else 0)
    && !e.pipe.use1 && !e.pipe.use2 && !e.idleD
    && e.clock.running && e.clock.cycle == -2 && e.clock.total == 0
  }

  /** Both final cycles still wait: one word is left to store. */
  ghost predicate Tail(job: Job, s: Serial, e: Engine)
    requires job.Valid()
  {
    if job.Sources() == 0 then Direct(job, s, e, job.Words() - 1)
    else Computed(job, s, e, job.Words() - 1, true)
  }

  ghost predicate Underway(job: Job, plan: Plan, s: Serial, e: Engine) {
    && Fits(job, plan) && ChannelSet(job) != 0
    && e.clock.running && !e.idleD && -2 <= e.clock.cycle
    && (!job.useD ==> e.reader.v1 < job.v)
    && if e.clock.cycle < 0 then
         InRound(job, plan, s, e, 0, 0) && e.clock.total == e.clock.cycle + 2
       else if !e.clock.final then
         && e.clock.cycle < Before(plan, job.Words())
         && InRound(job, plan, s, e, Turn(plan, e.clock.cycle), Place(plan, e.clock.cycle))
         && e.clock.total == e.clock.cycle + 2
       else
         && job.useD && e.clock.cycle < 2 && Tail(job, s, e)
         && e.clock.total == Before(plan, job.Words()) + 2 + e.clock.cycle
  }

  /** The blit is over and did what the word-serial machine does. */
  ghost predicate Over(job: Job, plan: Plan, s: Serial, e: Engine) {
    && Fits(job, plan)
    && !e.clock.running && !e.idleD && e.clock.irq
    && e.regs == At(job, s, job.Words()).regs
    && Outcome(e.memory, e.reader.apt, e.reader.bpt, e.reader.cpt, e.writer.dpt, e.regs.zero)
         == Blit(job, Resets(job), s)
    && (job.useD ==> e.clock.total == Before(plan, job.Words()) + 4)
    && !e.pipe.use1 && !e.pipe.use2 && e.reader.fetched == 0
  }

  lemma BegunIsUnderway(job: Job, plan: Plan, s: Serial, e: Engine)
    requires Begun(job, plan, s, e) && ChannelSet(job) != 0
    ensures Underway(job, plan, s, e)
  {
    NextWord(0, job.h);
    assert 0 / job.h == 0 && 0 % job.h == 0;
  }

  /** Slot lookup through the two-part diagram, by round and position. */
  lemma SlotOfCycle(plan: Plan, cycle: nat)
    requires DiagramShape(plan.diag)
    ensures ChannelPos(plan.diag, cycle) == Place(plan, cycle)
    ensures 0 <= Place(plan, cycle) < plan.diag[0]
    ensures ChannelState(plan.diag, cycle) ==
      if Turn(plan, cycle) == 0 then First(plan.diag, Place(plan, cycle))
      else Later(plan.diag, Place(plan, cycle))
  {
    var L := plan.diag[0];
    var r, p := cycle / L, cycle % L;
    assert cycle == L * r + p;
    if cycle < L {
      QuotientIsUnique(cycle, L, 0, cycle);
    } else {
      assert r != 0;
      assert cycle - L == (r - 1) * L + p;
      QuotientIsUnique(cycle - L, L, r - 1, p);
    }
  }

  /** The counter test the engine makes at the end of a round. */
  ghost predicate AllButStored(job: Job, e: Engine) {
    e.reader.v1 == job.v
    || (e.reader.v1 == job.v - 1 && e.reader.h1 == job.h - 1 && job.Sources() == 0)
  }

  lemma CountersInRound(job: Job, plan: Plan, s: Serial, e: Engine, r: nat, p: nat)
    requires Fits(job, plan) && ChannelSet(job) != 0
    requires p <= plan.diag[0] && InRound(job, plan, s, e, r, p) && r < job.Words()
    ensures job.useD ==> e.writer.v2 < job.v
    ensures !job.useD && p == plan.diag[0] ==> (e.reader.v1 == job.v <==> r == job.Words() - 1)
    ensures e.reader.v1 <= job.v
    ensures Reading(job, s, e, r, GotA(job, plan, p), GotB(job, plan, p), GotC(job, plan, p)) ==> e.reader.v1 < job.v
    ensures job.useD && p == 0 && r > 0 ==> !AllButStored(job, e)
    ensures job.useD && p == plan.diag[0] ==> (AllButStored(job, e) <==> r == job.Words() - 1)
  {
    hide At, Pointer;
    RowsAndWords(r, job.h, job.v);
    RowsAndWords(r + 1, job.h, job.v);
    if r > 0 {
      RowsAndWords(r - 1, job.h, job.v);
    }
  }

  lemma NextRound(plan: Plan, r: nat)
    requires DiagramShape(plan.diag)
    ensures Before(plan, r + 1) == Before(plan, r) + plan.diag[0] && 0 <= Before(plan, r)
    ensures Before(plan, 0) == 0 && Turn(plan, 0) == 0 && Place(plan, 0) == 0
  {
  }

  /** A cycle starts a round exactly if the one before ends one. */
  lemma PlaceBefore(plan: Plan, cycle: nat)
    requires DiagramShape(plan.diag) && 0 < cycle
    ensures Place(plan, cycle - 1) == plan.diag[0] - 1 <==> Place(plan, cycle) == 0
    ensures 0 <= Turn(plan, cycle)
  {
    NextWord(cycle - 1, plan.diag[0]);
  }

  lemma CycleOf(plan: Plan, r: nat, p: nat)
    requires DiagramShape(plan.diag) && p < plan.diag[0]
    ensures Turn(plan, Before(plan, r) + p) == r && Place(plan, Before(plan, r) + p) == p
  {
    QuotientIsUnique(Before(plan, r) + p, plan.diag[0], r, p);
  }

  lemma RoundInRange(plan: Plan, cycle: nat, words: nat)
    requires DiagramShape(plan.diag)
    ensures cycle == Before(plan, Turn(plan, cycle)) + Place(plan, cycle)
    ensures cycle < Before(plan, words) <==> Turn(plan, cycle) < words
  {
    RowsAndWords(cycle, plan.diag[0], words);
  }

  /** The part of Fits that does not look at single slots. */
  lemma Shape(job: Job, plan: Plan)
    requires Fits(job, plan)
    ensures job.Valid() && DiagramShape(plan.diag) && plan.diag[0] >= 2
    ensures plan.sources == job.Sources() && plan.nod == !job.useD
  {
  }

  /** Waiting and lost slots do not end the rounds. */
  lemma NotYet(job: Job, plan: Plan, s: Serial, e: Engine, g: Grant)
    requires Underway(job, plan, s, e)
    ensures EndOfRounds(job, plan, e, g) == e
  {
    Shape(job, plan);
    hide Fits, InRound, Tail, Turn, Place, Before, ChannelPos, ChannelState, Job.Words;
    var t := e.clock.cycle;
    if t > 0 && !e.clock.final {
      var r, p := Turn(plan, t), Place(plan, t);
      PlaceBefore(plan, t);
      RoundInRange(plan, t, job.Words());
      CountersInRound(job, plan, s, e, r, p);
      SlotOfCycle(plan, t - 1);
    } else if t <= 0 {
      PlaceAtStart(plan, t - 1);
    }
  }

  lemma PlaceAtStart(plan: Plan, cycle: int)
    requires DiagramShape(plan.diag) && cycle < 0
    ensures ChannelPos(plan.diag, cycle) == 0
  {
  }

  /** The engine after slot p of round r was used. */
  ghost predicate SlotUsed(job: Job, plan: Plan, s: Serial, e: Engine, r: nat, p: nat) {
    && Fits(job, plan) && ChannelSet(job) != 0 && p < plan.diag[0] && r < job.Words()
    && InRound(job, plan, s, e, r, p + 1) && e.clock.running && !e.clock.final && !e.idleD
    && e.clock.cycle == Before(plan, r) + p + 1 && e.clock.total == e.clock.cycle + 2
    && (!job.useD ==> e.reader.v1 < job.v)
  }

  lemma UnderwayAt(job: Job, plan: Plan, s: Serial, e: Engine, r: nat, p: nat)
    requires Fits(job, plan) && ChannelSet(job) != 0 && p < plan.diag[0] && r < job.Words()
    requires InRound(job, plan, s, e, r, p) && e.clock.running && !e.clock.final && !e.idleD
    requires e.clock.cycle == Before(plan, r) + p && e.clock.total == e.clock.cycle + 2
    requires !job.useD ==> e.reader.v1 < job.v
    ensures Underway(job, plan, s, e)
  {
    hide Fits, InRound, Tail, ChannelSet, Turn, Place, Before, ChannelPos, ChannelState, Job.Words;
    Shape(job, plan);
    NextRound(plan, r);
    CycleOf(plan, r, p);
    RoundInRange(plan, Before(plan, r) + p, job.Words());
  }

  lemma RoundTurns(job: Job, plan: Plan, s: Serial, e: Engine, r: nat, p: nat)
    requires SlotUsed(job, plan, s, e, r, p) && p == plan.diag[0] - 1 && r < job.Words() - 1
    ensures Underway(job, plan, s, e)
  {
    hide Fits, InRound, Tail, ChannelSet, Underway, Turn, Place, Before, ChannelPos, ChannelState, Job.Words;
    Shape(job, plan);
    TurnRound(job, plan, s, e, r);
    NextRound(plan, r);
    UnderwayAt(job, plan, s, e, r + 1, 0);
  }

  lemma LastRoundEnds(job: Job, plan: Plan, s: Serial, e: Engine, r: nat)
    requires Fits(job, plan) && r == job.Words() - 1 && job.useD
    requires InRound(job, plan, s, e, r, plan.diag[0])
    ensures Tail(job, s, e)
  {
  }

  lemma LastCheck(job: Job, plan: Plan, s: Serial, e: Engine, g: Grant, r: nat)
    requires Fits(job, plan) && r == job.Words() - 1 && g != Off
    requires SlotUsed(job, plan, s, e, r, plan.diag[0] - 1)
    requires AllButStored(job, e)
    ensures Underway(job, plan, s, EndOfRounds(job, plan, e, g))
  {
    var L := plan.diag[0];
    assert job.useD;
    Shape(job, plan);
    hide Fits, InRound, Position, Tail, ChannelSet, Turn, Place, Before, ChannelPos, ChannelState, Job.Words;
    LastRoundEnds(job, plan, s, e, r);
    CycleOf(plan, r, L - 1);
    SlotOfCycle(plan, Before(plan, r) + L - 1);
    NextRound(plan, r);
    var e1 := e.(clock := e.clock.(irq := true, cycle := 0, final := true));
    assert EndOfRounds(job, plan, e, g) == e1;
    assert Tail(job, s, e1);
  }

  lemma NoEndInside(job: Job, plan: Plan, e: Engine, g: Grant)
    requires DiagramShape(plan.diag) && ChannelPos(plan.diag, e.clock.cycle - 1) != plan.diag[0] - 1
    ensures EndOfRounds(job, plan, e, g) == e
  {
    hide ChannelPos;
  }

  lemma NoEndBeforeLast(job: Job, plan: Plan, e: Engine, g: Grant)
    requires DiagramShape(plan.diag) && plan.sources == job.Sources() && !AllButStored(job, e)
    ensures EndOfRounds(job, plan, e, g) == e
  {
    hide ChannelPos;
  }

  /** Short of the last round something is still to be read or stored. */
  lemma SomeWordsLeft(job: Job, plan: Plan, s: Serial, e: Engine, r: nat)
    requires Fits(job, plan) && SlotUsed(job, plan, s, e, r, plan.diag[0] - 1) && r < job.Words() - 1
    ensures !AllButStored(job, e)
  {
    CountersInRound(job, plan, s, e, r, plan.diag[0]);
    hide Fits, InRound;
  }

  /** A used slot of round r, seen after the check that follows it: the blit goes
      on, or only the final cycles are left. */
  lemma AfterSlot(job: Job, plan: Plan, s: Serial, e: Engine, g: Grant, r: nat, p: nat)
    requires SlotUsed(job, plan, s, e, r, p) && g != Off
    ensures Underway(job, plan, s, EndOfRounds(job, plan, e, g))
  {
    hide Fits, InRound, Tail, ChannelSet, Underway, Turn, Place, Before, ChannelPos, ChannelState, EndOfRounds,
         AllButStored, Job.Words;
    Shape(job, plan);
    var L := plan.diag[0];
    NextRound(plan, r);
    CycleOf(plan, r, p);
    SlotOfCycle(plan, Before(plan, r) + p);
    if p < L - 1 {
      NoEndInside(job, plan, e, g);
      UnderwayAt(job, plan, s, e, r, p + 1);
    } else if r < job.Words() - 1 {
      SomeWordsLeft(job, plan, s, e, r);
      NoEndBeforeLast(job, plan, e, g);
      RoundTurns(job, plan, s, e, r, p);
    } else {
      LastWords(job, plan, s, e, r);
      LastCheck(job, plan, s, e, g, r);
    }
  }

  /** At the end of the last round only stores are left. */
  lemma LastWords(job: Job, plan: Plan, s: Serial, e: Engine, r: nat)
    requires Fits(job, plan) && SlotUsed(job, plan, s, e, r, plan.diag[0] - 1) && r == job.Words() - 1
    ensures AllButStored(job, e)
  {
    CountersInRound(job, plan, s, e, r, plan.diag[0]);
    hide Fits, InRound;
  }

  lemma SomeRounds(job: Job, plan: Plan)
    requires Fits(job, plan)
    ensures 0 < Before(plan, job.Words())
  {
    hide Fits;
    Shape(job, plan);
    assert 0 < plan.diag[0] * (job.h * job.v);
  }

  lemma StartupTick(job: Job, plan: Plan, s: Serial, e: Engine)
    requires Underway(job, plan, s, e) && e.clock.cycle < 0
    ensures Underway(job, plan, s, IdleSlot(job, e))
  {
    hide Fits, InRound, Tail, Turn, Place, Before, ChannelPos, ChannelState, Job.Words;
    Shape(job, plan);
    NextRound(plan, 0);
    SomeRounds(job, plan);
    InRoundIgnoresClock(job, plan, s, e, IdleSlot(job, e), 0, 0);
  }

  lemma IdleIsAdvance(job: Job, e: Engine)
    requires ChannelSet(job) != 0 && e.clock.cycle >= 0
    ensures IdleSlot(job, e) == Advance(e)
  {
  }

  lemma IdleUsed(job: Job, plan: Plan, s: Serial, e: Engine, r: nat, p: nat)
    requires Underway(job, plan, s, e) && e.clock.cycle >= 0 && !e.clock.final
    requires r == Turn(plan, e.clock.cycle) && p == Place(plan, e.clock.cycle)
    requires Later(plan.diag, p) == 0 || (r == 0 && Later(plan.diag, p) == 4)
    ensures SlotUsed(job, plan, s, Advance(e), r, p)
  {
    hide Fits, InRound, Position, Underway, ChannelSet, Turn, Place, Before, Job.Words;
    UnderwayInRound(job, plan, s, e);
    Shape(job, plan);
    RoundInRange(plan, e.clock.cycle, job.Words());
    IdleStep(job, plan, s, e, r, p);
    InRoundIgnoresClock(job, plan, s, e, Advance(e), r, p + 1);
  }

  /** Underway between the start and the final cycles. */
  lemma UnderwayInRound(job: Job, plan: Plan, s: Serial, e: Engine)
    requires Underway(job, plan, s, e) && e.clock.cycle >= 0 && !e.clock.final
    ensures Fits(job, plan) && ChannelSet(job) != 0 && e.clock.running && !e.idleD
    ensures e.clock.cycle < Before(plan, job.Words()) && e.clock.total == e.clock.cycle + 2
    ensures 0 <= Turn(plan, e.clock.cycle)
    ensures InRound(job, plan, s, e, Turn(plan, e.clock.cycle), Place(plan, e.clock.cycle))
    ensures !job.useD ==> e.reader.v1 < job.v
  {
    hide InRound, Tail;
  }

  lemma IdleTick(job: Job, plan: Plan, s: Serial, e: Engine, g: Grant, r: nat, p: nat)
    requires Underway(job, plan, s, e) && e.clock.cycle >= 0 && !e.clock.final && g != Off
    requires r == Turn(plan, e.clock.cycle) && p == Place(plan, e.clock.cycle)
    requires Later(plan.diag, p) == 0 || (r == 0 && Later(plan.diag, p) == 4)
    ensures IdleSlot(job, e).clock.running
    ensures Underway(job, plan, s, EndOfRounds(job, plan, IdleSlot(job, e), g))
  {
    IdleIsAdvance(job, e);
    IdleUsed(job, plan, s, e, r, p);
    hide Fits, InRound, Tail, ChannelSet, EndOfRounds, Underway, SlotUsed, IdleSlot;
    AfterSlot(job, plan, s, Advance(e), g, r, p);
  }

  /** What the word counters and the pipeline say does not depend on the clock. */
  lemma InRoundIgnoresClock(job: Job, plan: Plan, s: Serial, e: Engine, e': Engine, r: nat, p: nat)
    requires Fits(job, plan) && InRound(job, plan, s, e, r, p)
    requires e' == e.(clock := e'.clock)
    ensures InRound(job, plan, s, e', r, p)
  {
  }

  lemma StoreTick(job: Job, plan: Plan, s: Serial, e: Engine, g: Grant, r: nat, p: nat)
    requires Underway(job, plan, s, e) && e.clock.cycle >= 0 && !e.clock.final && g == Free
    requires r == Turn(plan, e.clock.cycle) && p == Place(plan, e.clock.cycle)
    requires Later(plan.diag, p) == 4 && r > 0
    ensures TransferSlot(job, plan, e, 4).clock.running
    ensures Underway(job, plan, s, EndOfRounds(job, plan, TransferSlot(job, plan, e, 4), g))
  {
    hide InRound, StoreSlot, Position;
    RoundInRange(plan, e.clock.cycle, job.Words());
    StoreStep(job, plan, s, e, r, p);
    StoreSlotFrame(job, plan, s, e, r, p);
    var e1 := StoreSlot(job, plan, e);
    CountersInRound(job, plan, s, e1, r, p + 1);
    InRoundIgnoresClock(job, plan, s, e1, Advance(e1), r, p + 1);
    AfterSlot(job, plan, s, Advance(e1), g, r, p);
  }

  lemma StoreSlotFrame(job: Job, plan: Plan, s: Serial, e: Engine, r: nat, p: nat)
    requires Fits(job, plan) && p < plan.diag[0] && InRound(job, plan, s, e, r, p)
    requires Later(plan.diag, p) == 4 && r > 0 && !e.idleD
    ensures job.useD
    ensures StoreSlot(job, plan, e).clock == e.clock && !StoreSlot(job, plan, e).idleD
  {
    assert p == Position(plan.diag, 4);
  }

  lemma FetchSlotFrame(job: Job, plan: Plan, e: Engine, c: int)
    requires job.Valid()
    ensures FetchSlot(job, plan, e, c).clock == e.clock && FetchSlot(job, plan, e, c).idleD == e.idleD
    ensures FetchSlot(job, plan, e, c).writer == e.writer
  {
  }

  lemma FetchTick(job: Job, plan: Plan, s: Serial, e: Engine, g: Grant, r: nat, p: nat)
    requires Underway(job, plan, s, e) && e.clock.cycle >= 0 && !e.clock.final && g == Free
    requires r == Turn(plan, e.clock.cycle) && p == Place(plan, e.clock.cycle)
    requires 1 <= Later(plan.diag, p) <= 3
    ensures
      var e2 := TransferSlot(job, plan, e, Later(plan.diag, p));
      if e2.clock.running then Underway(job, plan, s, EndOfRounds(job, plan, e2, g))
      else Over(job, plan, s, e2)
  {
    hide InRound, FetchSlot, Position, Blit, At;
    var c := Later(plan.diag, p);
    var e1 := FetchSlot(job, plan, e, c);
    RoundInRange(plan, e.clock.cycle, job.Words());
    FetchStep(job, plan, s, e, r, p);
    FetchSlotFrame(job, plan, e, c);
    SourceMeansReading(job, plan, s, e, r, p);
    InRoundIgnoresClock(job, plan, s, e1, Advance(e1), r, p + 1);
    CountersInRound(job, plan, s, e1, r, p + 1);
    if job.useD || e1.reader.v1 < job.v {
      AfterSlot(job, plan, s, Advance(e1), g, r, p);
    } else {
      LastFetchWithoutD(job, plan, s, e1, r, p + 1);
    }
  }

  lemma SourceMeansReading(job: Job, plan: Plan, s: Serial, e: Engine, r: nat, p: nat)
    requires Fits(job, plan) && p < plan.diag[0] && InRound(job, plan, s, e, r, p) && r < job.Words()
    requires 1 <= Later(plan.diag, p) <= 3
    ensures e.reader.v1 < job.v
  {
    SourceSlot(job, plan, p);
    RowsAndWords(r, job.h, job.v);
  }

  lemma LastFetchWithoutD(job: Job, plan: Plan, s: Serial, e: Engine, r: nat, p: nat)
    requires Fits(job, plan) && p <= plan.diag[0] && r < job.Words() && ChannelSet(job) != 0
    requires InRound(job, plan, s, e, r, p) && !job.useD && e.reader.v1 == job.v && !e.idleD
    ensures !e.pipe.use1 && !e.pipe.use2 && e.writer.v2 == job.v
    ensures Over(job, plan, s, Done(e))
  {
    RowsAndWords(r, job.h, job.v);
    RowsAndWords(r + 1, job.h, job.v);
    assert r + 1 == job.Words();
    PointerIdle(job, D, job.Words());
  }

  lemma FinalStoreComputed(job: Job, plan: Plan, s: Serial, e: Engine)
    requires job.Valid() && plan.sources == job.Sources() > 0 && job.useD
    requires Computed(job, s, e, job.Words() - 1, true)
    ensures
      var n := job.Words();
      var e' := StoreSlot(job, plan, e);
      && e'.memory == Store(job, At(job, s, n), n) && e'.regs == At(job, s, n).regs
      && e'.reader == ReaderAt(job, n, false, false, false) && Stored(job, e'.writer, n)
      && !e'.pipe.use1 && !e'.pipe.use2
      && e'.clock == e.clock && e'.idleD == e.idleD
  {
    hide Compute, Fetch, Serially;
    var n := job.Words();
    NextStoredIs(job, e.writer, n - 1);
    RowsAndWords(n, job.h, job.v);
    RowsAndWords(n - 1, job.h, job.v);
    NextWord(n - 1, job.h);
  }

  /** The D slot of the final cycles stores the last word. */
  lemma FinalStore(job: Job, plan: Plan, s: Serial, e: Engine)
    requires Underway(job, plan, s, e) && e.clock.cycle == 1 && e.clock.final
    ensures Over(job, plan, s, TransferSlot(job, plan, e, 4))
  {
    hide InRound, Position;
    var n := job.Words();
    RowsAndWords(n, job.h, job.v);
    if job.Sources() == 0 {
      StoreDirect(job, plan, s, e, n - 1);
      SourcesIdle(job, n);
    } else {
      hide StoreSlot;
      FinalStoreComputed(job, plan, s, e);
    }
  }

  lemma SourcesIdle(job: Job, k: nat)
    requires job.Valid() && job.Sources() == 0
    ensures Pointer(job, A, k) == job.apt && Pointer(job, B, k) == job.bpt && Pointer(job, C, k) == job.cpt
  {
    PointerIdle(job, A, k);
    PointerIdle(job, B, k);
    PointerIdle(job, C, k);
  }

  /** A slot the blitter does not get, or spends waiting, changes nothing else. */
  lemma Held(job: Job, plan: Plan, s: Serial, e: Engine, e': Engine, g: Grant)
    requires Underway(job, plan, s, e)
    requires e' == e.(clock := e.clock.(missed := e'.clock.missed, waiting := e'.clock.waiting))
    ensures Underway(job, plan, s, e') && EndOfRounds(job, plan, e', g) == e'
  {
    hide InRound, Position, At;
    if 0 <= e.clock.cycle && !e.clock.final {
      var r, p := Turn(plan, e.clock.cycle), Place(plan, e.clock.cycle);
      InRoundIgnoresClock(job, plan, s, e, e', r, p);
    } else if e.clock.cycle < 0 {
      InRoundIgnoresClock(job, plan, s, e, e', 0, 0);
    }
    NotYet(job, plan, s, e', g);
  }

  lemma FinalIdle(job: Job, plan: Plan, s: Serial, e: Engine)
    requires Underway(job, plan, s, e) && e.clock.cycle == 0 && e.clock.final
    ensures Underway(job, plan, s, IdleSlot(job, e)) && IdleSlot(job, e).clock.final
  {
    hide InRound, At;
  }

  lemma FinalTick(job: Job, plan: Plan, s: Serial, e: Engine, g: Grant)
    requires Underway(job, plan, s, e) && e.clock.cycle >= 0 && e.clock.final && !e.clock.waiting
    ensures
      var e' := Tick(job, plan, e, g);
      if e'.clock.running then Underway(job, plan, s, e') else Over(job, plan, s, e')
  {
    hide InRound, Tail, TransferSlot, IdleSlot, Blit, Position;
    Held(job, plan, s, e, Miss(e), g);
    if e.clock.cycle == 1 {
      FinalStore(job, plan, s, e);
      TransferKeepsFinal(job, plan, e, 4);
    } else {
      FinalIdle(job, plan, s, e);
    }
  }

  lemma TransferKeepsFinal(job: Job, plan: Plan, e: Engine, c: int)
    requires job.Valid()
    ensures TransferSlot(job, plan, e, c).clock.final == e.clock.final
  {
    FetchSlotFrame(job, plan, e, c);
    hide FetchSlot, Compute;
  }

  lemma MainTick(job: Job, plan: Plan, s: Serial, e: Engine, g: Grant)
    requires Underway(job, plan, s, e) && e.clock.cycle >= 0 && !e.clock.final && !e.clock.waiting
    requires g != Off
    ensures
      var e' := Tick(job, plan, e, g);
      if e'.clock.running then Underway(job, plan, s, e') else Over(job, plan, s, e')
  {
    hide InRound, Over, TransferSlot, IdleSlot, Position, EndOfRounds;
    var r, p := Turn(plan, e.clock.cycle), Place(plan, e.clock.cycle);
    SlotOfCycle(plan, e.clock.cycle);
    Held(job, plan, s, e, Miss(e), g);
    if Later(plan.diag, p) == 0 || (r == 0 && Later(plan.diag, p) == 4) {
      if g == Free {
        IdleTick(job, plan, s, e, g, r, p);
      }
    } else if g == Free {
      if Later(plan.diag, p) == 4 {
        StoreTick(job, plan, s, e, g, r, p);
      } else {
        FetchTick(job, plan, s, e, g, r, p);
      }
    }
  }

  /** Any slot, granted or not, keeps the engine in step with the word-serial
      machine. */
  lemma TickKeepsStep(job: Job, plan: Plan, s: Serial, e: Engine, g: Grant)
    requires Underway(job, plan, s, e)
    ensures
      var e' := Tick(job, plan, e, g);
      if e'.clock.running then Underway(job, plan, s, e') else Over(job, plan, s, e')
  {
    hide InRound, Over, TransferSlot, Position, EndOfRounds, IdleSlot, Tail;
    Held(job, plan, s, e, e.(clock := e.clock.(waiting := false)), g);
    Held(job, plan, s, e, Miss(e), g);
    if e.clock.waiting || (g == Off && !e.clock.final) {
    } else if e.clock.cycle < 0 {
      StartupTick(job, plan, s, e);
      NotYet(job, plan, s, IdleSlot(job, e), g);
    } else if e.clock.final {
      FinalTick(job, plan, s, e, g);
    } else {
      MainTick(job, plan, s, e, g);
    }
  }
}
