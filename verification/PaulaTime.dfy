/** Time passing over the sound channels: in steps to the next event or sample, with the
    same result however it is cut into calls. */
module PaulaTime {
  import opened Options
  import opened PaulaSpec

  /** The lines, the cycles between samples, and whether samples are produced. */
  datatype Setting = Setting(lines: Lines, interval: real, sampling: bool)

  predicate Usable(s: Setting) {
    Wired(s.lines) && s.interval >= 1.0
  }

  /** The channels, the cycle count, and the time to the next sample. */
  datatype Engine = Engine(paula: Paula, now: int, next: real)

  datatype Sample = Sample(at: int, sounds: seq<Sound>)
  datatype Tick = Tick(at: int, nr: nat)

  function Rounded(x: real): int {
    var whole := x.Floor;
    if x - whole as real >= 0.5 then whole + 1 else whole
  }

  lemma RoundedShift(x: real, n: int)
    ensures Rounded(x - n as real) == Rounded(x) - n
  {
  }

  // ----- One step -----

  function Sooner(best: int, evtime: int): int {
    if evtime != MAX_EV && best > evtime then evtime else best
  }

  function SoonestChannel(p: Paula, best: int): int
    requires |p.channels| == 4
  {
    Sooner(Sooner(Sooner(Sooner(best, p.channels[0].evtime), p.channels[1].evtime), p.channels[2].evtime),
           p.channels[3].evtime)
  }

  /** The length of the next step when n cycles are to pass. */
  function Best(s: Setting, e: Engine, n: int): int
    requires |e.paula.channels| == 4
  {
    var event := SoonestChannel(e.paula, n + 1);
    var sample := if s.sampling && event > Rounded(e.next) then Rounded(e.next) else event;
    if sample > n then n else sample
  }

  function CountedDown(c: Channel, b: int): Channel {
    if c.evtime != MAX_EV then c.(evtime := c.evtime - b) else c
  }

  function Passed(p: Paula, b: int): (q: Paula)
    requires |p.channels| == 4
    ensures |q.channels| == 4
  {
    p.(channels := [CountedDown(p.channels[0], b), CountedDown(p.channels[1], b),
                    CountedDown(p.channels[2], b), CountedDown(p.channels[3], b)])
  }

  function TickDue(l: Lines, p: Paula, i: nat): (q: Paula)
    requires Wired(l) && |p.channels| == 4 && i < 4
    ensures |q.channels| == 4
  {
    if p.channels[i].evtime == 0 then Ticked(l, p, i) else p
  }

  /** The state machines of all channels whose countdown has run out, in order. */
  function TickAll(l: Lines, p: Paula): (q: Paula)
    requires Wired(l) && |p.channels| == 4
    ensures |q.channels| == 4
  {
    TickDue(l, TickDue(l, TickDue(l, TickDue(l, p, 0), 1), 2), 3)
  }

  function Step(s: Setting, e: Engine, b: int): (r: Engine)
    requires Usable(s) && |e.paula.channels| == 4
    ensures |r.paula.channels| == 4 && r.now == e.now + b
  {
    var next := e.next - b as real;
    Engine(TickAll(s.lines, Passed(e.paula, b)), e.now + b,
           if s.sampling && Rounded(e.next) == b then next + s.interval else next)
  }

  /** The sample a step puts out. */
  function StepSamples(s: Setting, e: Engine, b: int): seq<Sample>
    requires |e.paula.channels| == 4
  {
    if s.sampling && Rounded(e.next) == b then [Sample(e.now + b, Sounds(Passed(e.paula, b)))] else []
  }

  function Sounds(p: Paula): seq<Sound>
    requires |p.channels| == 4
  {
    [p.channels[0].sound, p.channels[1].sound, p.channels[2].sound, p.channels[3].sound]
  }

  function TickOf(p: Paula, at: int, i: nat): seq<Tick>
    requires |p.channels| == 4 && i < 4
  {
    if p.channels[i].evtime == 0 then [Tick(at, i)] else []
  }

  /** The state machine calls a step makes. */
  function StepTicks(e: Engine, b: int): seq<Tick>
    requires |e.paula.channels| == 4
  {
    var p := Passed(e.paula, b);
    TickOf(p, e.now + b, 0) + TickOf(p, e.now + b, 1) + TickOf(p, e.now + b, 2) + TickOf(p, e.now + b, 3)
  }

  // ----- The state between steps -----

  predicate Ready(c: Channel) {
    Running(c) && (c.evtime == MAX_EV || 1 <= c.evtime <= 65536 * CYCLE_UNIT)
  }

  /** The period of a channel after reset, before any is programmed. */
  const NO_PERIOD := -2

  /** A write to the period register, with DMA on or off; the first one after reset also
      starts the countdown. */
  function PeriodWritten(c: Channel, v: int, exact: bool): Channel
    requires 0 <= v < 0x10000
  {
    c.(per := ProgrammedPeriod(v, c.feed.dmaStore, exact),
       evtime := if c.per == NO_PERIOD then CYCLE_UNIT else c.evtime)
  }

  /** A channel is ready from the first write of its period on, and every write keeps it so:
      a countdown under way runs on, the new period counts from its end. */
  lemma PeriodMakesReady(c: Channel, v: int, exact: bool)
    requires 0 <= v < 0x10000 && (Ready(c) || (c.per == NO_PERIOD && Running(c.(per := CYCLE_UNIT))))
    ensures Ready(PeriodWritten(c, v, exact))
    ensures Ready(c) ==> PeriodWritten(c, v, exact).evtime == c.evtime
    ensures CYCLE_UNIT <= PeriodWritten(c, v, exact).per <= 65536 * CYCLE_UNIT
  {
  }

  /** Every channel runs with its countdown idle or ahead, and the next sample is ahead. */
  predicate Valid(s: Setting, e: Engine) {
    && |e.paula.channels| == 4
    && Ready(e.paula.channels[0]) && Ready(e.paula.channels[1])
    && Ready(e.paula.channels[2]) && Ready(e.paula.channels[3])
    && (s.sampling ==> e.next >= 0.5)
  }

  /** A call between steps leaves all channels ready. */
  lemma CalledReady(l: Lines, p: Paula, nr: nat)
    requires Wired(l) && nr < 4 && |p.channels| == 4 && forall i :: 0 <= i < 4 ==> Ready(p.channels[i])
    ensures forall i :: 0 <= i < 4 ==> Ready(Called(l, p, nr).channels[i])
  {
    hide Running, FromRest, Waited, PlayHigh, PlayLow, EndHigh, EndLow;
    AdvancedSteady(l, p, nr, false);
    OwnCountdown(l, p, nr);
    WrittenFlagOnly(Advanced(l, p, nr, false).channels[nr]);
  }

  lemma WrittenFlagOnly(c: Channel)
    ensures Running(c.(datWritten := false)) == Running(c)
  {
  }

  lemma OwnCountdown(l: Lines, p: Paula, nr: nat)
    requires Wired(l) && nr < 4 && |p.channels| == 4 && forall i :: 0 <= i < 4 ==> Ready(p.channels[i])
    ensures var e := Advanced(l, p, nr, false).channels[nr].evtime; e == MAX_EV || 1 <= e <= 65536 * CYCLE_UNIT
  {
    hide FromRest, Waited, PlayHigh, PlayLow, EndHigh, EndLow;
    var c := p.channels[nr].(feed := p.channels[nr].feed.(dmaStore := l.master && l.dma[nr]));
    var q := Put(p, nr, c);
    PutSteady(p, p, nr, c);
    FromRestSteady(l, p, q, nr);
    WaitedSteady(l, p, q, nr);
    if c.state == 2 {
      PlayHighSteady(p, q, nr);
      SilentHigh(q, nr);
    } else if c.state == 3 {
      PlayLowSteady(l, p, q, nr);
      SilentLow(l, q, nr);
    }
  }

  lemma SilentHigh(p: Paula, nr: nat)
    requires |p.channels| == 4 && nr < 4
    ensures !p.channels[nr].pbufldl ==> PlayHigh(p, nr) == p
  {
  }

  lemma SilentLow(l: Lines, p: Paula, nr: nat)
    requires Wired(l) && |p.channels| == 4 && nr < 4
    ensures !p.channels[nr].pbufldl ==> PlayLow(l, p, nr) == p
  {
  }

  /** The step stops at nothing earlier than its end. */
  predicate Reaches(s: Setting, e: Engine, b: int)
    requires |e.paula.channels| == 4
  {
    && (forall i :: 0 <= i < 4 ==> e.paula.channels[i].evtime == MAX_EV || b <= e.paula.channels[i].evtime)
    && (s.sampling ==> b <= Rounded(e.next))
  }

  /** A step is at least one cycle, at most what is asked, and passes no event: where it
      is shorter than asked, it ends at one. */
  lemma BestReaches(s: Setting, e: Engine, n: int)
    requires Valid(s, e) && 0 < n
    ensures 1 <= Best(s, e, n) <= n && Reaches(s, e, Best(s, e, n))
    ensures forall b :: b <= n && Reaches(s, e, b) ==> b <= Best(s, e, n)
  {
  }

  lemma TickDueKeeps(l: Lines, p: Paula, i: nat)
    requires Wired(l) && i < 4 && |p.channels| == 4
    requires forall k :: 0 <= k < 4 ==> Running(p.channels[k])
    ensures forall k :: 0 <= k < 4 ==> Running(TickDue(l, p, i).channels[k])
    ensures forall k :: 0 <= k < 4 && k != i ==> TickDue(l, p, i).channels[k].evtime == p.channels[k].evtime
    ensures if p.channels[i].evtime == 0 then Rearmed(TickDue(l, p, i), i)
            else TickDue(l, p, i).channels[i].evtime == p.channels[i].evtime
  {
    hide Running, Ticked, Rearmed;
    TickedSteady(l, p, i);
  }

  /** Countdowns after all due state machines have run: set again if they were due,
      untouched otherwise. */
  lemma TickAllKeeps(l: Lines, p: Paula)
    requires Wired(l) && |p.channels| == 4 && forall k :: 0 <= k < 4 ==> Running(p.channels[k])
    ensures forall k :: 0 <= k < 4 ==> Running(TickAll(l, p).channels[k])
    ensures forall k :: 0 <= k < 4 ==>
      if p.channels[k].evtime == 0 then Rearmed(TickAll(l, p), k)
      else TickAll(l, p).channels[k].evtime == p.channels[k].evtime
  {
    hide Running, TickDue;
    var p1 := TickDue(l, p, 0);
    var p2 := TickDue(l, p1, 1);
    var p3 := TickDue(l, p2, 2);
    TickDueKeeps(l, p, 0);
    TickDueKeeps(l, p1, 1);
    TickDueKeeps(l, p2, 2);
    TickDueKeeps(l, p3, 3);
  }

  lemma RoundedBounds(x: real)
    ensures -0.5 <= x - Rounded(x) as real < 0.5
  {
  }

  lemma PassedIs(p: Paula, b: int, k: nat)
    requires |p.channels| == 4 && k < 4
    ensures Passed(p, b).channels[k] == CountedDown(p.channels[k], b)
  {
  }

  /** What a step does to one countdown: it runs on, or it is due exactly at the end of
      the step and is set again. No countdown passes below zero. */
  lemma StepCountdown(s: Setting, e: Engine, b: int, k: nat)
    requires Usable(s) && Valid(s, e) && 1 <= b && Reaches(s, e, b) && k < 4
    ensures var c, d := e.paula.channels[k], Step(s, e, b).paula.channels[k];
      && Ready(d)
      && (c.evtime == MAX_EV ==> d.evtime == MAX_EV)
      && (c.evtime != MAX_EV ==> b <= c.evtime && (b < c.evtime ==> d.evtime == c.evtime - b))
  {
    hide Running, TickAll;
    forall i | 0 <= i < 4 ensures Running(Passed(e.paula, b).channels[i]) {
      PassedIs(e.paula, b, i);
      CountingKeepsRunning(e.paula.channels[i], b);
    }
    PassedIs(e.paula, b, k);
    TickAllKeeps(s.lines, Passed(e.paula, b));
  }

  lemma CountingKeepsRunning(c: Channel, b: int)
    requires Running(c)
    ensures Running(CountedDown(c, b))
  {
  }

  lemma StepKeepsValid(s: Setting, e: Engine, b: int)
    requires Usable(s) && Valid(s, e) && 1 <= b && Reaches(s, e, b)
    ensures Valid(s, Step(s, e, b))
  {
    StepCountdown(s, e, b, 0);
    StepCountdown(s, e, b, 1);
    StepCountdown(s, e, b, 2);
    StepCountdown(s, e, b, 3);
    RoundedBounds(e.next);
    hide TickAll, Passed, Ready, Rounded;
  }

  // ----- Whole runs -----

  /** The engine after n cycles. */
  function Run(s: Setting, e: Engine, n: int): (r: Engine)
    requires Usable(s) && Valid(s, e)
    ensures Valid(s, r)
    decreases n
  {
    if n <= 0 then e
    else
      var b := Best(s, e, n);
      BestReaches(s, e, n);
      StepKeepsValid(s, e, b);
      Run(s, Step(s, e, b), n - b)
  }

  /** The samples put out meanwhile. */
  function Samples(s: Setting, e: Engine, n: int): seq<Sample>
    requires Usable(s) && Valid(s, e)
    decreases n
  {
    if n <= 0 then []
    else
      var b := Best(s, e, n);
      BestReaches(s, e, n);
      StepKeepsValid(s, e, b);
      StepSamples(s, e, b) + Samples(s, Step(s, e, b), n - b)
  }

  /** The state machine calls made meanwhile. */
  function Ticks(s: Setting, e: Engine, n: int): seq<Tick>
    requires Usable(s) && Valid(s, e)
    decreases n
  {
    if n <= 0 then []
    else
      var b := Best(s, e, n);
      BestReaches(s, e, n);
      StepKeepsValid(s, e, b);
      StepTicks(e, b) + Ticks(s, Step(s, e, b), n - b)
  }

  lemma FourChannels(s: Setting, e: Engine)
    requires Valid(s, e)
    ensures |e.paula.channels| == 4
  {
  }

  /** One unfolding of a run. */
  lemma RunStep(s: Setting, e: Engine, n: int)
    requires Usable(s) && Valid(s, e) && 0 < n
    ensures var b := Best(s, e, n);
      && 1 <= b <= n && Reaches(s, e, b) && Valid(s, Step(s, e, b))
      && Run(s, e, n) == Run(s, Step(s, e, b), n - b)
      && Samples(s, e, n) == StepSamples(s, e, b) + Samples(s, Step(s, e, b), n - b)
      && Ticks(s, e, n) == StepTicks(e, b) + Ticks(s, Step(s, e, b), n - b)
  {
    hide Usable, Best, Step, StepSamples, StepTicks, Reaches, Valid;
    FourChannels(s, e);
    BestReaches(s, e, n);
    StepKeepsValid(s, e, Best(s, e, n));
  }

  lemma RunNothing(s: Setting, e: Engine)
    requires Usable(s) && Valid(s, e)
    ensures Run(s, e, 0) == e && Samples(s, e, 0) == [] && Ticks(s, e, 0) == []
  {
    hide Valid, Usable;
  }

  /** The steps add up to the cycles asked for. */
  lemma {:induction false} RunTakesAll(s: Setting, e: Engine, n: nat)
    requires Usable(s) && Valid(s, e)
    ensures Run(s, e, n).now == e.now + n
    decreases n
  {
    hide Usable, Valid, Best, Reaches, Run, Step;
    FourChannels(s, e);
    if n == 0 {
      RunNothing(s, e);
    } else {
      RunStep(s, e, n);
      RunTakesAll(s, Step(s, e, Best(s, e, n)), n - Best(s, e, n));
    }
  }

  // ----- Every channel is advanced exactly when due -----

  /** When channel i is first called. */
  function FirstTick(ticks: seq<Tick>, i: nat): Option<int> {
    if ticks == [] then None
    else if ticks[0].nr == i then Some(ticks[0].at)
    else FirstTick(ticks[1..], i)
  }

  lemma {:induction false} FirstTickOfSum(a: seq<Tick>, b: seq<Tick>, i: nat)
    ensures FirstTick(a + b, i) == if FirstTick(a, i).Some? then FirstTick(a, i) else FirstTick(b, i)
    decreases |a|
  {
    if a == [] {
      assert a + b == b;
    } else {
      assert (a + b)[1..] == a[1..] + b;
      FirstTickOfSum(a[1..], b, i);
    }
  }

  lemma TickOfFirst(p: Paula, at: int, k: nat, i: nat)
    requires |p.channels| == 4 && k < 4
    ensures FirstTick(TickOf(p, at, k), i) == if k == i && p.channels[k].evtime == 0 then Some(at) else None
  {
    if p.channels[k].evtime == 0 {
      assert TickOf(p, at, k)[1..] == [];
    }
  }

  lemma StepTickOf(e: Engine, b: int, i: nat)
    requires |e.paula.channels| == 4 && i < 4
    ensures var c := e.paula.channels[i];
            FirstTick(StepTicks(e, b), i) == if c.evtime != MAX_EV && c.evtime == b then Some(e.now + b) else None
  {
    var p, at := Passed(e.paula, b), e.now + b;
    PassedIs(e.paula, b, i);
    hide Passed;
    var t0, t1, t2, t3 := TickOf(p, at, 0), TickOf(p, at, 1), TickOf(p, at, 2), TickOf(p, at, 3);
    TickOfFirst(p, at, 0, i);
    TickOfFirst(p, at, 1, i);
    TickOfFirst(p, at, 2, i);
    TickOfFirst(p, at, 3, i);
    hide TickOf, FirstTick;
    FirstTickOfSum(t0 + t1 + t2, t3, i);
    FirstTickOfSum(t0 + t1, t2, i);
    FirstTickOfSum(t0, t1, i);
  }

  lemma ReadyCountdown(s: Setting, e: Engine, i: nat)
    requires Valid(s, e) && i < 4
    ensures |e.paula.channels| == 4 && 1 <= e.paula.channels[i].evtime <= MAX_EV
  {
    hide Running;
  }

  /** In any stretch of time a channel is first advanced at exactly its due cycle, if that
      falls inside, and not at all if not; then its countdown has just run on. */
  lemma {:induction false} AdvancedWhenDue(s: Setting, e: Engine, n: nat, i: nat)
    requires Usable(s) && Valid(s, e) && i < 4
    ensures var c, d := e.paula.channels[i], Run(s, e, n).paula.channels[i];
      if c.evtime != MAX_EV && c.evtime <= n then FirstTick(Ticks(s, e, n), i) == Some(e.now + c.evtime)
      else FirstTick(Ticks(s, e, n), i) == None && d.evtime == if c.evtime == MAX_EV then MAX_EV else c.evtime - n
    decreases n
  {
    hide Usable, Valid, Best, Reaches, StepTicks, Ready, Step, Run, Ticks, FirstTick;
    ReadyCountdown(s, e, i);
    if n == 0 {
      RunNothing(s, e);
      NoFirstTick(i);
    } else {
      RunStep(s, e, n);
      var b := Best(s, e, n);
      StepTickOf(e, b, i);
      StepCountdown(s, e, b, i);
      FirstTickOfSum(StepTicks(e, b), Ticks(s, Step(s, e, b), n - b), i);
      if e.paula.channels[i].evtime == b && b != MAX_EV {
      } else {
        AdvancedWhenDue(s, Step(s, e, b), n - b, i);
      }
    }
  }

  lemma NoFirstTick(i: nat)
    ensures FirstTick([], i) == None
  {
  }

  // ----- Samples come out at the rounded multiples of the interval -----

  function Multiple(x: real, k: nat): real {
    if k == 0 then 0.0 else Multiple(x, k - 1) + x
  }

  lemma {:induction false} MultipleIs(x: real, k: nat)
    ensures Multiple(x, k) == x * k as real
  {
    if k > 0 {
      MultipleIs(x, k - 1);
    }
  }

  /** k samples are out since cycle zero, and the next is due in time. */
  predicate Phase(s: Setting, e: Engine, k: nat) {
    e.next == Multiple(s.interval, k + 1) - e.now as real
  }

  lemma StepPhase(s: Setting, e: Engine, b: int, k: nat)
    requires s.sampling && |e.paula.channels| == 4 && Usable(s) && Phase(s, e, k) && b <= Rounded(e.next)
    ensures var due := Rounded(Multiple(s.interval, k + 1));
            if e.now + b == due
            then |StepSamples(s, e, b)| == 1 && StepSamples(s, e, b)[0].at == due && Phase(s, Step(s, e, b), k + 1)
            else e.now + b < due && StepSamples(s, e, b) == [] && Phase(s, Step(s, e, b), k)
  {
    RoundedShift(Multiple(s.interval, k + 1), e.now);
    hide Rounded, TickAll, Passed;
  }

  /** From k samples on, the j-th sample comes out at the rounded (k+1+j)-th multiple of
      the interval, and by the end none is missing, whatever the channels do. */
  lemma {:induction false} SamplesOnTime(s: Setting, e: Engine, n: nat, k: nat)
    requires Usable(s) && Valid(s, e) && s.sampling && Phase(s, e, k)
    ensures var out := Samples(s, e, n);
      && (forall j :: 0 <= j < |out| ==> out[j].at == Rounded(Multiple(s.interval, k + 1 + j)))
      && Phase(s, Run(s, e, n), k + |out|)
      && e.now + n < Rounded(Multiple(s.interval, k + |out| + 1))
    decreases n
  {
    hide Usable, Valid, Best, StepSamples, Rounded, Step, Multiple, Phase, Reaches, Run, Samples;
    FourChannels(s, e);
    if n == 0 {
      RunNothing(s, e);
      NextSampleAhead(s, e, k);
    } else {
      RunStep(s, e, n);
      var b := Best(s, e, n);
      var f := Step(s, e, b);
      ReachesSample(s, e, b);
      StepPhase(s, e, b, k);
      var now := StepSamples(s, e, b);
      SamplesOnTime(s, f, n - b, k + |now|);
      var later := Samples(s, f, n - b);
      var out := Samples(s, e, n);
      forall j | 0 <= j < |out| ensures out[j].at == Rounded(Multiple(s.interval, k + 1 + j)) {
        if j >= |now| {
          assert out[j] == later[j - |now|];
          assert k + |now| + 1 + (j - |now|) == k + 1 + j;
        }
      }
    }
  }

  lemma ReachesSample(s: Setting, e: Engine, b: int)
    requires |e.paula.channels| == 4 && Reaches(s, e, b) && s.sampling
    ensures b <= Rounded(e.next)
  {
  }

  lemma NextSampleAhead(s: Setting, e: Engine, k: nat)
    requires Valid(s, e) && s.sampling && Phase(s, e, k)
    ensures e.now < Rounded(Multiple(s.interval, k + 1))
  {
    hide Ready;
    RoundedShift(Multiple(s.interval, k + 1), e.now);
    NextAhead(e.next);
  }

  lemma NextAhead(x: real)
    requires x >= 0.5
    ensures Rounded(x) >= 1
  {
  }

  /** No drift: every sample is within half a cycle of its multiple of the interval. */
  lemma NoDrift(s: Setting, e: Engine, n: nat, j: nat)
    requires Usable(s) && Valid(s, e) && s.sampling && Phase(s, e, 0) && j < |Samples(s, e, n)|
    ensures -0.5 <= s.interval * (j + 1) as real - Samples(s, e, n)[j].at as real < 0.5
  {
    hide Usable, Valid, Samples, Multiple, Rounded;
    SamplesOnTime(s, e, n, 0);
    MultipleIs(s.interval, j + 1);
    RoundedBounds(Multiple(s.interval, j + 1));
  }

  // ----- How elapsed time is cut does not matter -----

  /** The step stops short of every event. */
  predicate Quiet(s: Setting, e: Engine, b: int)
    requires |e.paula.channels| == 4
  {
    && (forall i :: 0 <= i < 4 ==> e.paula.channels[i].evtime == MAX_EV || b < e.paula.channels[i].evtime)
    && (s.sampling ==> b < Rounded(e.next))
  }

  /** A step that does nothing but count. */
  function Counted(e: Engine, b: int): Engine
    requires |e.paula.channels| == 4
  {
    Engine(Passed(e.paula, b), e.now + b, e.next - b as real)
  }

  lemma QuietStep(s: Setting, e: Engine, b: int)
    requires Usable(s) && |e.paula.channels| == 4 && Quiet(s, e, b)
    ensures Step(s, e, b) == Counted(e, b) && StepSamples(s, e, b) == [] && StepTicks(e, b) == []
  {
    hide Ticked, Rounded;
  }

  lemma CountsAddUp(p: Paula, a: int, b: int)
    requires |p.channels| == 4 && 0 <= a
    requires forall i :: 0 <= i < 4 ==> p.channels[i].evtime == MAX_EV || a < p.channels[i].evtime <= 65536 * CYCLE_UNIT
    ensures Passed(Passed(p, a), b) == Passed(p, a + b)
  {
  }

  /** The two parts of a step cut before its end are together the step. */
  lemma StepsAddUp(s: Setting, e: Engine, a: int, b: int)
    requires Usable(s) && Valid(s, e) && 0 <= a && Quiet(s, e, a)
    ensures Step(s, Counted(e, a), b) == Step(s, e, a + b)
    ensures StepSamples(s, Counted(e, a), b) == StepSamples(s, e, a + b)
    ensures StepTicks(Counted(e, a), b) == StepTicks(e, a + b)
  {
    CountsAddUp(e.paula, a, b);
    RoundedShift(e.next, a);
    hide Rounded, TickAll, Passed, Ready;
  }

  lemma ReachesLater(s: Setting, e: Engine, a: int, b: int)
    requires Valid(s, e) && 0 <= a && Quiet(s, e, a)
    ensures Reaches(s, Counted(e, a), b) <==> Reaches(s, e, a + b)
  {
    RoundedShift(e.next, a);
    forall i | 0 <= i < 4 ensures Counted(e, a).paula.channels[i] == CountedDown(e.paula.channels[i], a) {
      PassedIs(e.paula, a, i);
    }
    hide Rounded, Passed, Running;
  }

  /** The step chosen when less is asked for: the same step, if it fits. */
  lemma ShorterBest(s: Setting, e: Engine, a: int, b: int)
    requires Usable(s) && Valid(s, e) && 0 < a && 0 < b
    ensures Best(s, e, a + b) <= a ==> Best(s, e, a) == Best(s, e, a + b)
    ensures Best(s, e, a + b) > a ==>
      && Best(s, e, a) == a && Quiet(s, e, a) && Valid(s, Counted(e, a))
      && Best(s, Counted(e, a), b) == Best(s, e, a + b) - a
  {
    hide Usable, Valid, Best, Reaches, Quiet, Step, Counted;
    FourChannels(s, e);
    BestReaches(s, e, a);
    BestReaches(s, e, a + b);
    var long := Best(s, e, a + b);
    if long > a {
      QuietBefore(s, e, a, long);
      QuietStep(s, e, a);
      StepKeepsValid(s, e, a);
      BestReaches(s, Counted(e, a), b);
      ReachesLater(s, e, a, Best(s, Counted(e, a), b));
      ReachesLater(s, e, a, long - a);
    }
  }

  lemma QuietBefore(s: Setting, e: Engine, a: int, b: int)
    requires |e.paula.channels| == 4 && a < b && Reaches(s, e, b)
    ensures Quiet(s, e, a) && Reaches(s, e, a)
  {
  }

  lemma Regroup<T>(a: seq<T>, b: seq<T>, c: seq<T>)
    ensures a + b + c == a + (b + c)
  {
  }

  /** The cut falls inside the first step. */
  lemma CutInside(s: Setting, e: Engine, n1: nat, n2: nat)
    requires Usable(s) && Valid(s, e) && 0 < n1 && 0 < n2 && Best(s, e, n1 + n2) > n1
    ensures Run(s, e, n1 + n2) == Run(s, Run(s, e, n1), n2)
    ensures Samples(s, e, n1 + n2) == Samples(s, e, n1) + Samples(s, Run(s, e, n1), n2)
    ensures Ticks(s, e, n1 + n2) == Ticks(s, e, n1) + Ticks(s, Run(s, e, n1), n2)
  {
    hide Usable, Valid, Best, StepSamples, StepTicks, Step, Reaches, Quiet, Run, Samples, Ticks, Counted;
    FourChannels(s, e);
    ShorterBest(s, e, n1, n2);
    var long, g := Best(s, e, n1 + n2), Counted(e, n1);
    QuietStep(s, e, n1);
    RunStep(s, e, n1);
    RunNothing(s, g);
    RunStep(s, g, n2);
    RunStep(s, e, n1 + n2);
    StepsAddUp(s, e, n1, long - n1);
  }

  /** Letting n1 and then n2 cycles pass is letting n1 + n2 pass: the same channels, the
      same samples, the same calls of the state machine. */
  lemma {:induction false} CutAnywhere(s: Setting, e: Engine, n1: nat, n2: nat)
    requires Usable(s) && Valid(s, e)
    ensures Run(s, e, n1 + n2) == Run(s, Run(s, e, n1), n2)
    ensures Samples(s, e, n1 + n2) == Samples(s, e, n1) + Samples(s, Run(s, e, n1), n2)
    ensures Ticks(s, e, n1 + n2) == Ticks(s, e, n1) + Ticks(s, Run(s, e, n1), n2)
    decreases n1
  {
    hide Usable, Valid, Best, StepSamples, StepTicks, Step, Reaches, Quiet, Run, Samples, Ticks;
    FourChannels(s, e);
    RunNothing(s, e);
    RunNothing(s, Run(s, e, n1));
    if n1 == 0 {
    } else if n2 == 0 {
    } else if Best(s, e, n1 + n2) > n1 {
      CutInside(s, e, n1, n2);
    } else {
      var b := Best(s, e, n1 + n2);
      var f := Step(s, e, b);
      ShorterBest(s, e, n1, n2);
      RunStep(s, e, n1);
      RunStep(s, e, n1 + n2);
      CutAnywhere(s, f, n1 - b, n2);
      Regroup(StepSamples(s, e, b), Samples(s, f, n1 - b), Samples(s, Run(s, e, n1), n2));
      Regroup(StepTicks(e, b), Ticks(s, f, n1 - b), Ticks(s, Run(s, e, n1), n2));
    }
  }
}
