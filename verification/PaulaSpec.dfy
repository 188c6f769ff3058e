/** The Paula sound channels: the state machine of one channel, and time passing over
    all of them in steps to the next event. */
module PaulaSpec {
  const CYCLE_UNIT := 512
  const MAX_EV := 0xFFFF_FFFF

  /** One channel. evtime counts down to its next event, or is MAX_EV for none. */
  datatype Channel = Channel(state: int, evtime: int, per: int, irqcheck: int, dat: int, dat2: int,
                             datWritten: bool, pbufldl: bool, feed: Feed, sound: Sound)

  /** Length and remaining words of the sample, and the requests for data. */
  datatype Feed = Feed(len: int, wlen: int, dr: bool, dsr: bool, intreq2: bool, dmaStore: bool)

  /** The sample byte played and the one before, and the volume set and in use. */
  datatype Sound = Sound(current: int, last: int, vol: int, mixvol: int)

  /** The channels, and the interrupts they have asked for, oldest first. */
  datatype Paula = Paula(channels: seq<Channel>, raised: seq<nat>)

  /** What the channels read from other chips, and whether the processor is cycle-exact; fixed
      while time passes. */
  datatype Lines = Lines(master: bool, dma: seq<bool>, attachVol: seq<bool>, attachPer: seq<bool>, irq: seq<bool>,
                         exact: bool)

  predicate Wired(l: Lines) {
    |l.dma| == 4 && |l.attachVol| == 4 && |l.attachPer| == 4 && |l.irq| == 4
  }

  // ----- Pieces of a state change -----

  /** Rest; beside a cycle-exact processor a waiting interrupt stays. */
  function Zeroed(l: Lines, c: Channel): Channel {
    c.(state := 0, irqcheck := 0, evtime := MAX_EV,
       feed := c.feed.(intreq2 := l.exact && c.feed.intreq2, dmaStore := false))
  }

  /** A request for data; at the end of the sample it asks for the start again. */
  function Requested(l: Lines, f: Feed, startup: bool): Feed {
    if !l.master then f
    else if !startup && f.wlen == 1 then f.(dsr := true)
    else f.(dr := true)
  }

  function Sampled(c: Channel, sample: int): Channel {
    c.(sound := c.sound.(last := c.sound.current, current := sample))
  }

  function Reloaded(c: Channel): Channel {
    c.(evtime := c.per, sound := c.sound.(mixvol := c.sound.vol))
  }

  /** The countdown of a manually fed low sample: the interrupt is looked at one cycle
      before the period ends. */
  function ReloadedEarly(c: Channel, irq: bool): Channel {
    if c.per == CYCLE_UNIT then c.(evtime := CYCLE_UNIT, irqcheck := if irq then 1 else -1)
    else if c.per > CYCLE_UNIT then c.(evtime := c.per - CYCLE_UNIT, state := c.state + 0x10)
    else c.(evtime := 65536 * CYCLE_UNIT, state := c.state + 0x10)
  }

  function ModulatedPeriod(dat: int): int {
    if dat == 0 then 65536 * CYCLE_UNIT else if dat > 1 then dat * CYCLE_UNIT else CYCLE_UNIT
  }

  /** A seven-bit register, loudest at 64. */
  function Volume(v: int): int {
    if v % 128 > 64 then 64 else v % 128
  }

  function Put(p: Paula, nr: nat, c: Channel): Paula
    requires nr < |p.channels|
  {
    p.(channels := p.channels[nr := c])
  }

  /** The data word goes to the channel itself, or, attached, to the next channel's
      period or volume. */
  function DataLoaded(l: Lines, p: Paula, nr: nat, modper: bool): (r: Paula)
    requires Wired(l) && |p.channels| == 4 && nr < 4
    ensures |r.channels| == 4
  {
    var c := p.channels[nr];
    if l.attachVol[nr] || (modper && l.attachPer[nr]) then
      if nr >= 3 then p
      else if modper && l.attachPer[nr] then
        Put(p, nr + 1, p.channels[nr + 1].(per := ModulatedPeriod(c.dat)))
      else Put(p, nr + 1, p.channels[nr + 1].(sound := p.channels[nr + 1].sound.(vol := Volume(c.dat))))
    else Put(p, nr, c.(dat2 := c.dat))
  }

  function Raised(p: Paula, nr: nat): Paula {
    p.(raised := p.raised + [nr])
  }

  // ----- The state machine -----

  /** A new high sample byte, when one is waiting. */
  function PlayHigh(p: Paula, nr: nat): (r: Paula)
    requires |p.channels| == 4 && nr < 4
    ensures |r.channels| == 4
  {
    var c := p.channels[nr];
    if c.pbufldl then Put(p, nr, Reloaded(Sampled(c, c.dat2 / 0x100 % 0x100)).(pbufldl := false)) else p
  }

  /** A new low sample byte. */
  function PlayLow(l: Lines, p: Paula, nr: nat): (r: Paula)
    requires Wired(l) && |p.channels| == 4 && nr < 4
    ensures |r.channels| == 4
  {
    var c := p.channels[nr];
    if !c.pbufldl then p
    else
      var s := Sampled(c, c.dat2 % 0x100);
      var t := if l.master && l.dma[nr] then Reloaded(s) else ReloadedEarly(s, l.irq[nr]);
      Put(p, nr, t.(pbufldl := false))
  }

  /** Asks for data and passes a waiting end-of-sample interrupt on. */
  function Continue(l: Lines, p: Paula, nr: nat): (r: Paula)
    requires |p.channels| == 4 && nr < 4
    ensures |r.channels| == 4
  {
    var c := p.channels[nr];
    var f := Requested(l, c.feed, false);
    if f.intreq2 then Raised(Put(p, nr, c.(feed := f.(intreq2 := false))), nr) else Put(p, nr, c.(feed := f))
  }

  /** From the high byte to the low byte. */
  function EndHigh(l: Lines, p: Paula, nr: nat): (r: Paula)
    requires Wired(l) && |p.channels| == 4 && nr < 4
    ensures |r.channels| == 4
  {
    var a := l.attachPer[nr];
    var q := if a then DataLoaded(l, p, nr, true) else p;
    var t := if !a then q else if l.master && l.dma[nr] then Continue(l, q, nr) else Raised(q, nr);
    PlayLow(l, Put(t, nr, t.channels[nr].(pbufldl := true, irqcheck := 0, state := 3)), nr)
  }

  /** From the low byte to the next word, or to rest. */
  function EndLow(l: Lines, p: Paula, nr: nat): (r: Paula)
    requires Wired(l) && |p.channels| == 4 && nr < 4
    ensures |r.channels| == 4
  {
    var own := l.attachVol[nr] || !l.attachPer[nr];
    if l.master && l.dma[nr] then
      var q := DataLoaded(l, p, nr, false);
      NextWord(if own then Continue(l, q, nr) else q, nr)
    else
      var c := p.channels[nr];
      var check := if c.irqcheck == 0 && l.irq[nr] then 1 else c.irqcheck;
      var q := Put(p, nr, c.(irqcheck := check));
      var t := if own then Raised(q, nr) else q;
      if check > 0 then Put(t, nr, Zeroed(l, t.channels[nr]))
      else NextWord(DataLoaded(l, t, nr, false), nr)
  }

  function NextWord(p: Paula, nr: nat): (r: Paula)
    requires |p.channels| == 4 && nr < 4
    ensures |r.channels| == 4
  {
    PlayHigh(Put(p, nr, p.channels[nr].(pbufldl := true, state := 2)), nr)
  }

  /** The channel leaves state 5 with its first word. */
  function FirstWord(l: Lines, p: Paula, nr: nat): (r: Paula)
    requires Wired(l) && |p.channels| == 4 && nr < 4
    ensures |r.channels| == 4
  {
    var own := l.attachVol[nr] || !l.attachPer[nr];
    var q := DataLoaded(l, p, nr, false);
    var c := q.channels[nr];
    var f := if own then Requested(l, c.feed, false) else c.feed;
    PlayHigh(Put(q, nr, Reloaded(c.(state := 2)).(pbufldl := true, feed := f.(intreq2 := false))), nr)
  }

  function FromRest(l: Lines, p: Paula, nr: nat): (r: Paula)
    requires Wired(l) && |p.channels| == 4 && nr < 4
    ensures |r.channels| == 4
  {
    var c := p.channels[nr];
    if l.master && l.dma[nr] then
      Put(p, nr, c.(evtime := MAX_EV, state := 1,
                    feed := Requested(l, c.feed, true).(wlen := c.feed.len, dsr := true)))
    else if c.datWritten && !l.irq[nr] then
      var q := DataLoaded(l, Raised(Put(p, nr, c.(state := 2)), nr), nr, false);
      PlayHigh(Put(q, nr, q.channels[nr].(pbufldl := true)), nr)
    else Put(p, nr, Zeroed(l, c))
  }

  /** Waiting for data with DMA on: state 1 for the first word, 5 for the second. */
  function Waited(l: Lines, p: Paula, nr: nat): (r: Paula)
    requires Wired(l) && |p.channels| == 4 && nr < 4
    ensures |r.channels| == 4
  {
    var w := p.channels[nr].(evtime := MAX_EV);
    if !(l.master && l.dma[nr]) then Put(p, nr, Zeroed(l, w))
    else if !w.datWritten then Put(p, nr, w)
    else if w.state == 5 then FirstWord(l, Put(p, nr, w), nr)
    else
      var f := Requested(l, w.feed, false);
      var left := if f.wlen != 1 then (f.wlen - 1) % 0x10000 else 1;
      Raised(Put(p, nr, w.(state := 5, feed := f.(wlen := left))), nr)
  }

  /** The last cycle of a manually fed low sample. */
  function LastCycle(l: Lines, p: Paula, nr: nat): (r: Paula)
    requires Wired(l) && |p.channels| == 4 && nr < 4
    ensures |r.channels| == 4
  {
    var check := if !(l.master && l.dma[nr]) && l.irq[nr] then 1 else -1;
    Put(p, nr, p.channels[nr].(state := 3, evtime := CYCLE_UNIT, irqcheck := check))
  }

  /** One call of the state machine of channel nr; perfin says its countdown ran out. */
  function Advanced(l: Lines, before: Paula, nr: nat, perfin: bool): (r: Paula)
    requires Wired(l) && |before.channels| == 4 && nr < 4
    ensures |r.channels| == 4
  {
    var c := before.channels[nr];
    var p := Put(before, nr, c.(feed := c.feed.(dmaStore := l.master && l.dma[nr])));
    if c.state == 0 then FromRest(l, p, nr)
    else if c.state == 1 || c.state == 5 then Waited(l, p, nr)
    else if c.state == 2 then
      var q := PlayHigh(p, nr);
      if perfin then EndHigh(l, q, nr) else q
    else if c.state == 3 then
      var q := PlayLow(l, p, nr);
      if perfin then EndLow(l, q, nr) else q
    else if c.state == 0x13 && perfin then LastCycle(l, p, nr)
    else p
  }

  /** A call when the countdown has run out; the data-written flag drops, except in the
      extra cycle of a manually fed sample. */
  function Ticked(l: Lines, p: Paula, nr: nat): (r: Paula)
    requires Wired(l) && |p.channels| == 4 && nr < 4
    ensures |r.channels| == 4
  {
    var q := Advanced(l, p, nr, true);
    if p.channels[nr].state == 0x13 then q else Put(q, nr, q.channels[nr].(datWritten := false))
  }

  /** A call for another reason than the countdown; it uses the data word up. */
  function Called(l: Lines, p: Paula, nr: nat): (r: Paula)
    requires Wired(l) && |p.channels| == 4 && nr < 4
    ensures |r.channels| == 4
  {
    var q := Advanced(l, p, nr, false);
    Put(q, nr, q.channels[nr].(datWritten := false))
  }

  predicate Sounding(c: Channel) {
    c.state % 0x10 == 2 || c.state % 0x10 == 3
  }

  /** A data word in a channel that sounds waits for its turn. From DMA it counts: behind the
      last word the length starts anew, and an interrupt waits. */
  function Queued(l: Lines, c: Channel, nr: nat, v: int): Channel
    requires Wired(l) && nr < 4
  {
    var f :=
      if !(l.master && l.dma[nr]) then c.feed
      else if c.feed.wlen == 1 then c.feed.(wlen := c.feed.len, intreq2 := true)
      else c.feed.(wlen := (c.feed.wlen - 1) % 0x10000);
    c.(dat := v, datWritten := false, feed := f)
  }

  /** The data register is written, by DMA or by the processor. */
  function Written(l: Lines, p: Paula, nr: nat, v: int): (r: Paula)
    requires Wired(l) && |p.channels| == 4 && nr < 4
    ensures |r.channels| == 4
  {
    var c := p.channels[nr];
    if Sounding(c) then Put(p, nr, Queued(l, c, nr, v))
    else Called(l, Put(p, nr, c.(dat := v, datWritten := true)), nr)
  }

  // ----- What every call keeps -----

  predicate Running(c: Channel) {
    && (c.state == 0 || c.state == 1 || c.state == 2 || c.state == 3 || c.state == 5 || c.state == 0x13)
    && CYCLE_UNIT <= c.per <= 65536 * CYCLE_UNIT && 0 <= c.dat < 0x10000
  }

  /** The state machine of channel nr has led from p to q: every channel still runs, and
      only its own countdown has changed. */
  predicate Steady(p: Paula, q: Paula, nr: nat) {
    && |p.channels| == |q.channels| == 4
    && (forall i :: 0 <= i < 4 ==> Running(q.channels[i]))
    && (forall i :: 0 <= i < 4 && i != nr ==> q.channels[i].evtime == p.channels[i].evtime)
  }

  /** The countdown of the channel has been set again. */
  predicate Rearmed(q: Paula, nr: nat)
    requires |q.channels| == 4 && nr < 4
  {
    var e := q.channels[nr].evtime;
    e == MAX_EV || 1 <= e <= 65536 * CYCLE_UNIT
  }

  lemma PutSteady(o: Paula, p: Paula, nr: nat, c: Channel)
    requires nr < 4 && Steady(o, p, nr) && Running(c)
    ensures Steady(o, Put(p, nr, c), nr)
  {
    hide Running;
  }

  lemma RaisedSteady(o: Paula, p: Paula, nr: nat)
    requires nr < 4 && Steady(o, p, nr)
    ensures Steady(o, Raised(p, nr), nr)
  {
  }

  lemma DataLoadedSteady(l: Lines, o: Paula, p: Paula, nr: nat, modper: bool)
    requires Wired(l) && nr < 4 && Steady(o, p, nr)
    ensures Steady(o, DataLoaded(l, p, nr, modper), nr)
    ensures var c, d := p.channels[nr], DataLoaded(l, p, nr, modper).channels[nr]; d == c || d == c.(dat2 := c.dat)
  {
  }

  lemma PlayHighSteady(o: Paula, p: Paula, nr: nat)
    requires nr < 4 && Steady(o, p, nr) && p.channels[nr].state == 2
    ensures Steady(o, PlayHigh(p, nr), nr)
    ensures p.channels[nr].pbufldl ==> Rearmed(PlayHigh(p, nr), nr)
  {
  }

  lemma PlayLowSteady(l: Lines, o: Paula, p: Paula, nr: nat)
    requires Wired(l) && nr < 4 && Steady(o, p, nr) && p.channels[nr].state == 3
    ensures Steady(o, PlayLow(l, p, nr), nr)
    ensures p.channels[nr].pbufldl ==> Rearmed(PlayLow(l, p, nr), nr)
  {
    var c := p.channels[nr];
    var s := Sampled(c, c.dat2 % 0x100);
    ReloadedEarlyRuns(s, l.irq[nr]);
    hide ReloadedEarly;
    PutSteady(o, p, nr, ReloadedEarly(s, l.irq[nr]).(pbufldl := false));
    PutSteady(o, p, nr, Reloaded(s).(pbufldl := false));
    hide Steady;
  }

  lemma ReloadedEarlyRuns(c: Channel, irq: bool)
    requires Running(c) && c.state == 3
    ensures Running(ReloadedEarly(c, irq).(pbufldl := false))
    ensures 1 <= ReloadedEarly(c, irq).evtime <= 65536 * CYCLE_UNIT
  {
  }

  lemma ContinueSteady(l: Lines, o: Paula, p: Paula, nr: nat)
    requires nr < 4 && Steady(o, p, nr)
    ensures Steady(o, Continue(l, p, nr), nr)
    ensures Continue(l, p, nr).channels[nr].state == p.channels[nr].state
  {
  }

  lemma NextWordSteady(o: Paula, p: Paula, nr: nat)
    requires nr < 4 && Steady(o, p, nr)
    ensures Steady(o, NextWord(p, nr), nr) && Rearmed(NextWord(p, nr), nr)
  {
    hide PlayHigh, Rearmed;
    var q := Put(p, nr, p.channels[nr].(pbufldl := true, state := 2));
    PutSteady(o, p, nr, p.channels[nr].(pbufldl := true, state := 2));
    PlayHighSteady(o, q, nr);
  }

  lemma EndHighSteady(l: Lines, o: Paula, p: Paula, nr: nat)
    requires Wired(l) && nr < 4 && Steady(o, p, nr)
    ensures Steady(o, EndHigh(l, p, nr), nr) && Rearmed(EndHigh(l, p, nr), nr)
  {
    hide DataLoaded, Continue, PlayLow, Rearmed, Steady;
    RunsOn(o, p, nr);
    var a := l.attachPer[nr];
    var q := if a then DataLoaded(l, p, nr, true) else p;
    DataLoadedSteady(l, o, p, nr, true);
    ContinueSteady(l, o, q, nr);
    RaisedSteady(o, q, nr);
    var t := if !a then q else if l.master && l.dma[nr] then Continue(l, q, nr) else Raised(q, nr);
    assert Steady(o, t, nr);
    RunsOn(o, t, nr);
    PutSteady(o, t, nr, t.channels[nr].(pbufldl := true, irqcheck := 0, state := 3));
    PlayLowSteady(l, o, Put(t, nr, t.channels[nr].(pbufldl := true, irqcheck := 0, state := 3)), nr);
  }

  lemma RunsOn(o: Paula, p: Paula, nr: nat)
    requires nr < 4 && Steady(o, p, nr)
    ensures |p.channels| == 4 && Running(p.channels[nr])
  {
  }

  lemma EndLowSteady(l: Lines, o: Paula, p: Paula, nr: nat)
    requires Wired(l) && nr < 4 && Steady(o, p, nr)
    ensures Steady(o, EndLow(l, p, nr), nr) && Rearmed(EndLow(l, p, nr), nr)
  {
    hide DataLoaded, Continue, NextWord, Rearmed, Steady;
    RunsOn(o, p, nr);
    if l.master && l.dma[nr] {
      DataLoadedSteady(l, o, p, nr, false);
      var q := DataLoaded(l, p, nr, false);
      ContinueSteady(l, o, q, nr);
      NextWordSteady(o, q, nr);
      NextWordSteady(o, Continue(l, q, nr), nr);
    } else {
      var c := p.channels[nr];
      var check := if c.irqcheck == 0 && l.irq[nr] then 1 else c.irqcheck;
      var q := Put(p, nr, c.(irqcheck := check));
      PutSteady(o, p, nr, c.(irqcheck := check));
      RaisedSteady(o, q, nr);
      var t := if l.attachVol[nr] || !l.attachPer[nr] then Raised(q, nr) else q;
      RunsOn(o, t, nr);
      PutSteady(o, t, nr, Zeroed(l, t.channels[nr]));
      ZeroedRests(l, t, nr);
      DataLoadedSteady(l, o, t, nr, false);
      NextWordSteady(o, DataLoaded(l, t, nr, false), nr);
    }
  }

  lemma ZeroedRests(l: Lines, p: Paula, nr: nat)
    requires nr < 4 && |p.channels| == 4
    ensures Rearmed(Put(p, nr, Zeroed(l, p.channels[nr])), nr)
  {
  }

  lemma FirstWordSteady(l: Lines, o: Paula, p: Paula, nr: nat)
    requires Wired(l) && nr < 4 && Steady(o, p, nr)
    ensures Steady(o, FirstWord(l, p, nr), nr) && Rearmed(FirstWord(l, p, nr), nr)
  {
    hide DataLoaded, PlayHigh, Rearmed, Steady;
    RunsOn(o, p, nr);
    var q := DataLoaded(l, p, nr, false);
    DataLoadedSteady(l, o, p, nr, false);
    RunsOn(o, q, nr);
    var c := q.channels[nr];
    var f := if l.attachVol[nr] || !l.attachPer[nr] then Requested(l, c.feed, false) else c.feed;
    var d := Reloaded(c.(state := 2)).(pbufldl := true, feed := f.(intreq2 := false));
    PutSteady(o, q, nr, d);
    PlayHighSteady(o, Put(q, nr, d), nr);
  }

  lemma FromRestSteady(l: Lines, o: Paula, p: Paula, nr: nat)
    requires Wired(l) && nr < 4 && Steady(o, p, nr)
    ensures Steady(o, FromRest(l, p, nr), nr) && Rearmed(FromRest(l, p, nr), nr)
  {
    hide DataLoaded, PlayHigh, Steady;
    RunsOn(o, p, nr);
    var c := p.channels[nr];
    PutSteady(o, p, nr, c.(evtime := MAX_EV, state := 1,
                           feed := Requested(l, c.feed, true).(wlen := c.feed.len, dsr := true)));
    PutSteady(o, p, nr, Zeroed(l, c));
    PutSteady(o, p, nr, c.(state := 2));
    var w := Put(p, nr, c.(state := 2));
    RaisedSteady(o, w, nr);
    DataLoadedSteady(l, o, Raised(w, nr), nr, false);
    var q := DataLoaded(l, Raised(w, nr), nr, false);
    RunsOn(o, q, nr);
    PutSteady(o, q, nr, q.channels[nr].(pbufldl := true));
    PlayHighSteady(o, Put(q, nr, q.channels[nr].(pbufldl := true)), nr);
  }

  lemma WaitedSteady(l: Lines, o: Paula, p: Paula, nr: nat)
    requires Wired(l) && nr < 4 && Steady(o, p, nr)
    ensures Steady(o, Waited(l, p, nr), nr) && Rearmed(Waited(l, p, nr), nr)
  {
    hide FirstWord, Steady, Requested;
    RunsOn(o, p, nr);
    var w := p.channels[nr].(evtime := MAX_EV);
    PutSteady(o, p, nr, w);
    PutSteady(o, p, nr, Zeroed(l, w));
    FirstWordSteady(l, o, Put(p, nr, w), nr);
    var f := Requested(l, w.feed, false);
    var left := if f.wlen != 1 then (f.wlen - 1) % 0x10000 else 1;
    PutSteady(o, p, nr, w.(state := 5, feed := f.(wlen := left)));
    RaisedSteady(o, Put(p, nr, w.(state := 5, feed := f.(wlen := left))), nr);
  }

  /** The state machine keeps every channel running and touches no other countdown. */
  lemma AdvancedSteady(l: Lines, p: Paula, nr: nat, perfin: bool)
    requires Wired(l) && nr < 4 && Steady(p, p, nr)
    ensures Steady(p, Advanced(l, p, nr, perfin), nr)
    ensures perfin ==> Rearmed(Advanced(l, p, nr, perfin), nr)
  {
    hide FromRest, Waited, PlayHigh, PlayLow, EndHigh, EndLow, Steady;
    RunsOn(p, p, nr);
    var c := p.channels[nr].(feed := p.channels[nr].feed.(dmaStore := l.master && l.dma[nr]));
    var q := Put(p, nr, c);
    PutSteady(p, p, nr, c);
    FromRestSteady(l, p, q, nr);
    WaitedSteady(l, p, q, nr);
    if c.state == 2 {
      PlayHighSteady(p, q, nr);
      EndHighSteady(l, p, PlayHigh(q, nr), nr);
    } else if c.state == 3 {
      PlayLowSteady(l, p, q, nr);
      EndLowSteady(l, p, PlayLow(l, q, nr), nr);
    }
    PutSteady(p, q, nr, q.channels[nr].(state := 3, evtime := CYCLE_UNIT,
                                        irqcheck := if !(l.master && l.dma[nr]) && l.irq[nr] then 1 else -1));
  }

  /** After a countdown has run out it is set again, never to zero. */
  lemma TickedSteady(l: Lines, p: Paula, nr: nat)
    requires Wired(l) && nr < 4 && Steady(p, p, nr)
    ensures Steady(p, Ticked(l, p, nr), nr) && Rearmed(Ticked(l, p, nr), nr)
  {
    RunsOn(p, p, nr);
    hide Advanced, Steady;
    AdvancedSteady(l, p, nr, true);
    var q := Advanced(l, p, nr, true);
    RunsOn(p, q, nr);
    PutSteady(p, q, nr, q.channels[nr].(datWritten := false));
  }

  /** The period a write to the period register leaves. */
  function ProgrammedPeriod(v: int, dmaOn: bool, exact: bool): (per: int)
    requires 0 <= v < 0x10000
    ensures CYCLE_UNIT <= per <= 65536 * CYCLE_UNIT
  {
    var per := (if v != 0 then v else 65536) * CYCLE_UNIT;
    if per < CYCLE_UNIT then CYCLE_UNIT
    else if per < 60 * CYCLE_UNIT && !exact && dmaOn then 60 * CYCLE_UNIT
    else per
  }
}
