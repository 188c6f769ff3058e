/** The sound channels as the emulator runs them: records in an array, changed in place
    by the state machine and by the loop that lets time pass. */
module PaulaSound {
  import opened PaulaSpec
  import opened PaulaTime

  lemma DataLoadedKeepsFeed(l: Lines, p: Paula, nr: nat, modper: bool)
    requires Wired(l) && |p.channels| == 4 && nr < 4
    ensures DataLoaded(l, p, nr, modper).channels[nr].feed == p.channels[nr].feed
    ensures DataLoaded(l, p, nr, modper).channels[nr].state == p.channels[nr].state
  {
  }

  lemma ContinueKeepsStore(l: Lines, p: Paula, nr: nat)
    requires |p.channels| == 4 && nr < 4
    ensures Continue(l, p, nr).channels[nr].feed.dmaStore == p.channels[nr].feed.dmaStore
    ensures Requested(l, p.channels[nr].feed, false).dmaStore == p.channels[nr].feed.dmaStore
  {
  }

  /** A second call in state 2 or 3 only plays the waiting byte. */
  lemma CalledAgain(l: Lines, p: Paula, nr: nat)
    requires Wired(l) && |p.channels| == 4 && nr < 4 && p.channels[nr].feed.dmaStore == (l.master && l.dma[nr])
    ensures p.channels[nr].state == 2 ==> Advanced(l, p, nr, false) == PlayHigh(p, nr)
    ensures p.channels[nr].state == 3 ==> Advanced(l, p, nr, false) == PlayLow(l, p, nr)
  {
    hide PlayHigh, PlayLow;
    var c := p.channels[nr];
    assert c.(feed := c.feed.(dmaStore := l.master && l.dma[nr])) == c;
    assert p.channels[nr := c] == p.channels;
  }

  class Sound {
    const channel: array<Channel>
    var raised: seq<nat>
    var nextSample: real
    var cycles: int
    var played: seq<Sample>

    constructor (channel: array<Channel>, interval: real)
      requires channel.Length == 4
      ensures this.channel == channel && raised == [] && nextSample == interval && cycles == 0 && played == []
    {
      this.channel := channel;
      raised, nextSample, cycles, played := [], interval, 0, [];
    }

    function State(): Paula
      reads this`raised, channel
    {
      Paula(channel[..], raised)
    }

    function Now(): Engine
      reads this`raised, this`cycles, this`nextSample, channel
    {
      Engine(State(), cycles, nextSample)
    }

    method Store(nr: nat, c: Channel)
      requires channel.Length == 4 && nr < 4
      modifies channel
      ensures State() == Put(old(State()), nr, c)
    {
      channel[nr] := c;
    }

    /** A write to the period register, after catching up with the clock. */
    method WritePeriod(s: Setting, clock: int, nr: nat, v: int)
      requires Usable(s) && channel.Length == 4 && Valid(s, Now()) && cycles <= clock && nr < 4 && 0 <= v < 0x10000
      modifies this`raised, this`nextSample, this`cycles, this`played, channel
      ensures var now := Run(s, old(Now()), clock - old(cycles));
              State() == Put(now.paula, nr, PeriodWritten(now.paula.channels[nr], v, s.lines.exact))
      ensures Valid(s, Now()) && cycles == clock
    {
      hide Run, Usable, ProgrammedPeriod, Ready;
      UpdateAudio(s, clock);
      assert Valid(s, Now());
      PeriodMakesReady(channel[nr], v, s.lines.exact);
      channel[nr] := PeriodWritten(channel[nr], v, s.lines.exact);
    }

    /** A write to the data register. A channel that sounds keeps the word for later; another
        catches up with the clock and takes it at once. */
    method WriteData(s: Setting, clock: int, nr: nat, v: int)
      requires Usable(s) && channel.Length == 4 && Valid(s, Now()) && cycles <= clock && nr < 4 && 0 <= v < 0x10000
      modifies this`raised, this`nextSample, this`cycles, this`played, channel
      ensures Sounding(old(channel[nr])) ==> Now() == old(Now()).(paula := Written(s.lines, old(State()), nr, v))
      ensures !Sounding(old(channel[nr])) ==>
        var latched := Put(old(State()), nr, old(channel[nr]).(dat := v, datWritten := true));
        var now := Run(s, old(Now()).(paula := latched), clock - old(cycles));
        Now() == now.(paula := Called(s.lines, now.paula, nr))
      ensures Valid(s, Now())
    {
      hide Run, Called, Running, Sounding;
      if Sounding(channel[nr]) {
        QueuedStaysReady(s.lines, channel[nr], nr, v);
        Store(nr, Queued(s.lines, channel[nr], nr, v));
      } else {
        WordStaysReady(channel[nr], v);
        Store(nr, channel[nr].(dat := v, datWritten := true));
        UpdateAudio(s, clock);
        CallChannel(s, nr);
      }
    }

    /** A call of the state machine that no countdown has asked for. */
    method CallChannel(s: Setting, nr: nat)
      requires Usable(s) && channel.Length == 4 && Valid(s, Now()) && nr < 4
      modifies this`raised, channel
      ensures State() == Called(s.lines, old(State()), nr) && Valid(s, Now())
    {
      hide Advanced, Ready;
      ValidIsReady(s, Now());
      CalledReady(s.lines, State(), nr);
      var used := StateChannel(s.lines, nr, false);
      if used {
        Store(nr, channel[nr].(datWritten := false));
      }
    }

    /** All channels look at their lines again, as after a change of DMA. */
    method StateMachine(s: Setting, clock: int)
      requires Usable(s) && channel.Length == 4 && Valid(s, Now()) && cycles <= clock
      modifies this`raised, this`nextSample, this`cycles, this`played, channel
      ensures var now := Run(s, old(Now()), clock - old(cycles));
        var q := Called(s.lines, Called(s.lines, now.paula, 0), 1);
        Now() == now.(paula := Called(s.lines, Called(s.lines, q, 2), 3))
      ensures Valid(s, Now())
    {
      hide Run, Called, Valid;
      UpdateAudio(s, clock);
      ghost var now := Now();
      CallChannel(s, 0);
      CallChannel(s, 1);
      CallChannel(s, 2);
      CallChannel(s, 3);
    }

    /** The data word of channel nr, to where the attach bits send it. */
    method LoadDat(l: Lines, nr: nat, modper: bool)
      requires channel.Length == 4 && Wired(l) && nr < 4
      modifies channel
      ensures State() == DataLoaded(l, old(State()), nr, modper)
    {
      hide Volume, ModulatedPeriod;
      var c := channel[nr];
      if l.attachVol[nr] || (modper && l.attachPer[nr]) {
        if nr >= 3 {
          return;
        }
        if modper && l.attachPer[nr] {
          Store(nr + 1, channel[nr + 1].(per := ModulatedPeriod(c.dat)));
        } else {
          Store(nr + 1, channel[nr + 1].(sound := channel[nr + 1].sound.(vol := Volume(c.dat))));
        }
      } else {
        Store(nr, c.(dat2 := c.dat));
      }
    }

    method SetDr(l: Lines, nr: nat, startup: bool)
      requires channel.Length == 4 && nr < 4
      modifies channel
      ensures var p := old(State());
              State() == Put(p, nr, p.channels[nr].(feed := Requested(l, p.channels[nr].feed, startup)))
    {
      var c := channel[nr];
      if l.master {
        if !startup && c.feed.wlen == 1 {
          c := c.(feed := c.feed.(dsr := true));
        } else {
          c := c.(feed := c.feed.(dr := true));
        }
      }
      Store(nr, c);
    }

    method SetIrq(nr: nat)
      modifies this`raised
      ensures State() == Raised(old(State()), nr)
    {
      raised := raised + [nr];
    }

    /** The request and the waiting interrupt of a running sample. */
    method AskOn(l: Lines, nr: nat)
      requires channel.Length == 4 && nr < 4
      modifies this`raised, channel
      ensures State() == Continue(l, old(State()), nr)
    {
      hide Requested;
      SetDr(l, nr, false);
      if channel[nr].feed.intreq2 {
        SetIrq(nr);
        Store(nr, channel[nr].(feed := channel[nr].feed.(intreq2 := false)));
      }
    }

    /** The waiting high byte goes out. */
    method HighByte(nr: nat)
      requires channel.Length == 4 && nr < 4
      modifies channel
      ensures State() == PlayHigh(old(State()), nr)
    {
      hide Sampled, Reloaded;
      var c := channel[nr];
      if c.pbufldl {
        Store(nr, Reloaded(Sampled(c, c.dat2 / 0x100 % 0x100)).(pbufldl := false));
      }
    }

    /** The waiting low byte goes out. */
    method LowByte(l: Lines, nr: nat)
      requires channel.Length == 4 && Wired(l) && nr < 4
      modifies channel
      ensures State() == PlayLow(l, old(State()), nr)
    {
      hide Sampled, Reloaded, ReloadedEarly;
      var c := channel[nr];
      if c.pbufldl {
        c := Sampled(c, c.dat2 % 0x100);
        if l.master && l.dma[nr] {
          c := Reloaded(c);
        } else {
          c := ReloadedEarly(c, l.irq[nr]);
        }
        Store(nr, c.(pbufldl := false));
      }
    }

    /** The end of state 2. */
    method HighByteEnds(l: Lines, nr: nat)
      requires channel.Length == 4 && Wired(l) && nr < 4
      requires channel[nr].feed.dmaStore == (l.master && l.dma[nr])
      modifies this`raised, channel
      ensures State() == EndHigh(l, old(State()), nr)
      decreases 2, 0
    {
      hide DataLoaded, Continue, PlayLow, Advanced;
      if l.attachPer[nr] {
        DataLoadedKeepsFeed(l, State(), nr, true);
        LoadDat(l, nr, true);
        if l.master && l.dma[nr] {
          ContinueKeepsStore(l, State(), nr);
          AskOn(l, nr);
        } else {
          SetIrq(nr);
        }
      }
      Store(nr, channel[nr].(pbufldl := true, irqcheck := 0, state := 3));
      CalledAgain(l, State(), nr);
      var used := StateChannel(l, nr, false);
    }

    /** On to the next word, in state 2. */
    method OnToNextWord(l: Lines, nr: nat)
      requires channel.Length == 4 && Wired(l) && nr < 4
      requires channel[nr].feed.dmaStore == (l.master && l.dma[nr])
      modifies this`raised, channel
      ensures State() == NextWord(old(State()), nr)
      decreases 2, 0
    {
      hide PlayHigh, Advanced;
      Store(nr, channel[nr].(pbufldl := true, state := 2));
      CalledAgain(l, State(), nr);
      var used := StateChannel(l, nr, false);
    }

    /** The end of state 3. */
    method LowByteEnds(l: Lines, nr: nat)
      requires channel.Length == 4 && Wired(l) && nr < 4
      requires channel[nr].feed.dmaStore == (l.master && l.dma[nr])
      modifies this`raised, channel
      ensures State() == EndLow(l, old(State()), nr)
      decreases 2, 1
    {
      hide DataLoaded, Continue, NextWord, Zeroed;
      var own := l.attachVol[nr] || !l.attachPer[nr];
      if l.master && l.dma[nr] {
        DataLoadedKeepsFeed(l, State(), nr, false);
        LoadDat(l, nr, false);
        if own {
          ContinueKeepsStore(l, State(), nr);
          AskOn(l, nr);
        }
      } else {
        var check := channel[nr].irqcheck;
        if check == 0 && l.irq[nr] {
          check := 1;
        }
        Store(nr, channel[nr].(irqcheck := check));
        if own {
          SetIrq(nr);
        }
        if check > 0 {
          Store(nr, Zeroed(l, channel[nr]));
          return;
        }
        DataLoadedKeepsFeed(l, State(), nr, false);
        LoadDat(l, nr, false);
      }
      OnToNextWord(l, nr);
    }

    /** The first word after DMA has started: state 5 to state 2. */
    method TakeFirstWord(l: Lines, nr: nat)
      requires channel.Length == 4 && Wired(l) && nr < 4
      requires channel[nr].feed.dmaStore == (l.master && l.dma[nr])
      modifies this`raised, channel
      ensures State() == FirstWord(l, old(State()), nr)
      decreases 1, 0
    {
      hide DataLoaded, PlayHigh, Requested, Advanced;
      DataLoadedKeepsFeed(l, State(), nr, false);
      LoadDat(l, nr, false);
      ghost var q := State();
      if l.attachVol[nr] || !l.attachPer[nr] {
        ContinueKeepsStore(l, State(), nr);
        SetDr(l, nr, false);
      }
      var c := channel[nr];
      c := Reloaded(c.(state := 2)).(pbufldl := true, feed := c.feed.(intreq2 := false));
      Store(nr, c);
      assert State() == Put(q, nr, c);
      CalledAgain(l, State(), nr);
      var used := StateChannel(l, nr, false);
    }

    /** States 1 and 5. */
    method WaitForData(l: Lines, nr: nat)
      requires channel.Length == 4 && Wired(l) && nr < 4
      requires channel[nr].feed.dmaStore == (l.master && l.dma[nr])
      modifies this`raised, channel
      ensures State() == Waited(l, old(State()), nr)
      decreases 1, 1
    {
      hide Zeroed, Requested, FirstWord;
      Store(nr, channel[nr].(evtime := MAX_EV));
      if !(l.master && l.dma[nr]) {
        Store(nr, Zeroed(l, channel[nr]));
      } else if channel[nr].datWritten {
        if channel[nr].state == 5 {
          TakeFirstWord(l, nr);
        } else {
          SetIrq(nr);
          SetDr(l, nr, false);
          var f := channel[nr].feed;
          if f.wlen != 1 {
            f := f.(wlen := (f.wlen - 1) % 0x10000);
          }
          Store(nr, channel[nr].(state := 5, feed := f));
        }
      }
    }

    /** State 0. */
    method Rest(l: Lines, nr: nat)
      requires channel.Length == 4 && Wired(l) && nr < 4
      requires channel[nr].feed.dmaStore == (l.master && l.dma[nr])
      modifies this`raised, channel
      ensures State() == FromRest(l, old(State()), nr)
      decreases 1, 1
    {
      hide Zeroed, Requested, DataLoaded, PlayHigh, Advanced;
      if l.master && l.dma[nr] {
        ghost var p := State();
        Store(nr, channel[nr].(evtime := MAX_EV, state := 1));
        SetDr(l, nr, true);
        var f := channel[nr].feed;
        Store(nr, channel[nr].(feed := f.(wlen := f.len, dsr := true)));
        RequestKeepsLength(l, p.channels[nr].feed, true);
      } else if channel[nr].datWritten && !l.irq[nr] {
        Store(nr, channel[nr].(state := 2));
        SetIrq(nr);
        DataLoadedKeepsFeed(l, State(), nr, false);
        LoadDat(l, nr, false);
        Store(nr, channel[nr].(pbufldl := true));
        CalledAgain(l, State(), nr);
        var used := StateChannel(l, nr, false);
      } else {
        Store(nr, Zeroed(l, channel[nr]));
      }
    }

    /** The state machine of one channel. The result says whether the data register has
        been used. */
    method StateChannel(l: Lines, nr: nat, perfin: bool) returns (used: bool)
      requires channel.Length == 4 && Wired(l) && nr < 4
      modifies this`raised, channel
      ensures State() == Advanced(l, old(State()), nr, perfin)
      ensures used == !(old(channel[nr].state) == 0x13 && perfin)
      decreases if perfin then 2 else if channel[nr].state in {0, 1, 5} then 1 else 0, 2
    {
      hide FromRest, Waited, PlayHigh, PlayLow, EndHigh, EndLow, Zeroed;
      used := true;
      Store(nr, channel[nr].(feed := channel[nr].feed.(dmaStore := l.master && l.dma[nr])));
      var state := channel[nr].state;
      if state == 0 {
        Rest(l, nr);
      } else if state == 1 || state == 5 {
        WaitForData(l, nr);
      } else if state == 2 {
        PlayingKeepsStore(l, State(), nr);
        HighByte(nr);
        if perfin {
          HighByteEnds(l, nr);
        }
      } else if state == 3 {
        PlayingKeepsStore(l, State(), nr);
        LowByte(l, nr);
        if perfin {
          LowByteEnds(l, nr);
        }
      } else if state == 0x13 && perfin {
        var check := -1;
        if !(l.master && l.dma[nr]) && l.irq[nr] {
          check := 1;
        }
        Store(nr, channel[nr].(state := 3, evtime := CYCLE_UNIT, irqcheck := check));
        used := false;
      }
    }

    /** A state machine call for a countdown that has run out. */
    method TickChannel(l: Lines, nr: nat)
      requires channel.Length == 4 && Wired(l) && nr < 4
      modifies this`raised, channel
      ensures State() == TickDue(l, old(State()), nr)
    {
      hide Advanced;
      if channel[nr].evtime == 0 {
        var used := StateChannel(l, nr, true);
        if used {
          Store(nr, channel[nr].(datWritten := false));
        }
      }
    }

    /** The earliest of n cycles and the channel countdowns. */
    method SoonestEvent(n: int) returns (best: int)
      requires channel.Length == 4
      ensures best == SoonestChannel(State(), n)
    {
      best := n;
      for i := 0 to 4
        invariant i == 0 ==> best == n
        invariant i == 1 ==> best == Sooner(n, channel[0].evtime)
        invariant i == 2 ==> best == Sooner(Sooner(n, channel[0].evtime), channel[1].evtime)
        invariant i == 3 ==> best == Sooner(Sooner(Sooner(n, channel[0].evtime), channel[1].evtime), channel[2].evtime)
        invariant i == 4 ==> best == SoonestChannel(State(), n)
      {
        if channel[i].evtime != MAX_EV && best > channel[i].evtime {
          best := channel[i].evtime;
        }
      }
    }

    /** All countdowns run on. */
    method CountDown(b: int)
      requires channel.Length == 4
      modifies channel
      ensures State() == Passed(old(State()), b)
    {
      for i := 0 to 4
        invariant forall k :: 0 <= k < 4 ==> channel[k] == old(if k < i then CountedDown(channel[k], b) else channel[k])
      {
        if channel[i].evtime != MAX_EV {
          channel[i] := channel[i].(evtime := channel[i].evtime - b);
        }
      }
    }

    /** One pass of the event loop, over at most n cycles. */
    method PassTime(s: Setting, n: int) returns (best: int)
      requires Usable(s) && channel.Length == 4 && 0 < n
      modifies this`raised, this`nextSample, this`cycles, this`played, channel
      ensures best == Best(s, old(Now()), n)
      ensures Now() == Step(s, old(Now()), best)
      ensures played == old(played) + StepSamples(s, old(Now()), best)
    {
      hide Passed, TickDue, SoonestChannel, Sounds;
      best := SoonestEvent(n + 1);
      var rounded := nextSample.Floor;
      if nextSample - rounded as real >= 0.5 {
        rounded := rounded + 1;
      }
      if s.sampling && best > rounded {
        best := rounded;
      }
      if best > n {
        best := n;
      }
      nextSample := nextSample - best as real;
      CountDown(best);
      cycles := cycles + best;
      if s.sampling && rounded == best {
        nextSample := nextSample + s.interval;
        played := played + [Sample(cycles, Sounds(State()))];
      }
      TickChannel(s.lines, 0);
      TickChannel(s.lines, 1);
      TickChannel(s.lines, 2);
      TickChannel(s.lines, 3);
    }

    /** Catches up with the clock. */
    method UpdateAudio(s: Setting, clock: int)
      requires Usable(s) && channel.Length == 4 && Valid(s, Now()) && cycles <= clock
      modifies this`raised, this`nextSample, this`cycles, this`played, channel
      ensures Now() == Run(s, old(Now()), clock - old(cycles)) && cycles == clock
      ensures played == old(played) + Samples(s, old(Now()), clock - old(cycles))
    {
      hide Usable, Valid, Best, Step, StepSamples, Run, Samples, Reaches;
      ghost var start, n := Now(), clock - cycles;
      var nCycles := clock - cycles;
      while nCycles > 0
        invariant nCycles >= 0 && cycles + nCycles == clock && Valid(s, Now())
        invariant Run(s, Now(), nCycles) == Run(s, start, n)
        invariant played + Samples(s, Now(), nCycles) == old(played) + Samples(s, start, n)
        decreases nCycles
      {
        ghost var e, out := Now(), played;
        RunStep(s, e, nCycles);
        FourChannels(s, e);
        var best := PassTime(s, nCycles);
        Regroup(out, StepSamples(s, e, best), Samples(s, Now(), nCycles - best));
        nCycles := nCycles - best;
      }
      RunNothing(s, Now());
    }
  }

  lemma ValidIsReady(s: Setting, e: Engine)
    requires Valid(s, e)
    ensures forall i :: 0 <= i < 4 ==> Ready(e.paula.channels[i])
  {
    hide Ready;
  }

  lemma QueuedStaysReady(l: Lines, c: Channel, nr: nat, v: int)
    requires Wired(l) && nr < 4 && 0 <= v < 0x10000
    ensures Running(c) ==> Running(Queued(l, c, nr, v))
    ensures Queued(l, c, nr, v).evtime == c.evtime
  {
  }

  lemma WordStaysReady(c: Channel, v: int)
    requires 0 <= v < 0x10000
    ensures Running(c) ==> Running(c.(dat := v, datWritten := true))
  {
  }

  lemma RequestKeepsLength(l: Lines, f: Feed, startup: bool)
    ensures Requested(l, f, startup).len == f.len && Requested(l, f, startup).wlen == f.wlen
  {
  }

  lemma PlayingKeepsStore(l: Lines, p: Paula, nr: nat)
    requires Wired(l) && |p.channels| == 4 && nr < 4
    ensures PlayHigh(p, nr).channels[nr].feed == p.channels[nr].feed
    ensures PlayLow(l, p, nr).channels[nr].feed == p.channels[nr].feed
  {
  }
}
