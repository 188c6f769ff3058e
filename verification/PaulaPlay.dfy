/** What a channel plays, from its start on, fed by DMA or by the processor. */
module PaulaPlay {
  import Counting
  import opened PaulaSpec

  /** The channel has DMA and modulates no other. */
  predicate Plain(l: Lines, nr: nat) {
    Wired(l) && nr < 4 && l.master && l.dma[nr] && !l.attachVol[nr] && !l.attachPer[nr]
  }

  function HighOf(word: int): int {
    word / 0x100 % 0x100
  }

  function LowOf(word: int): int {
    word % 0x100
  }

  /** Within the high or the low byte of the word in the output latch, with the volume that
      was set when the byte began. */
  predicate Playing(c: Channel, word: int, high: bool) {
    && c.dat2 == word && !c.pbufldl && c.feed.dmaStore
    && if high then c.state == 2 && c.sound.current == HighOf(word) else c.state == 3 && c.sound.current == LowOf(word)
  }

  /** A byte has just begun: it lasts one period, at the volume set. */
  predicate Begins(c: Channel) {
    c.evtime == c.per && c.sound.mixvol == c.sound.vol
  }

  /** The settings of the processor stay. */
  predicate SameSettings(c: Channel, d: Channel) {
    d.per == c.per && d.sound.vol == c.sound.vol && d.feed.len == c.feed.len
  }

  /** One word has been asked for: the next one, or the first of the sample again. */
  predicate AskedOne(f: Feed, g: Feed) {
    if f.wlen == 1 then g.dsr && g.dr == f.dr else g.dr && g.dsr == f.dsr
  }

  // ----- The start of a sample -----

  /** A resting channel whose DMA is switched on asks for the first word. */
  lemma DmaAwakens(l: Lines, p: Paula, nr: nat)
    requires Plain(l, nr) && |p.channels| == 4 && p.channels[nr].state == 0
    ensures var c, d := p.channels[nr], Called(l, p, nr).channels[nr];
            && d.state == 1 && d.evtime == MAX_EV && d.feed.dmaStore && SameSettings(c, d)
            && d.feed.wlen == c.feed.len && d.feed.dr && d.feed.dsr
            && Called(l, p, nr).raised == p.raised
  {
  }

  /** The word that comes first only counts: with it the channel raises its interrupt and asks
      for another. */
  lemma FirstFetch(l: Lines, p: Paula, nr: nat, word: int)
    requires Plain(l, nr) && |p.channels| == 4 && p.channels[nr].state == 1
    ensures var c, d := p.channels[nr], Written(l, p, nr, word).channels[nr];
            && d.state == 5 && d.evtime == MAX_EV && d.feed.dmaStore && SameSettings(c, d)
            && d.feed.wlen == (if c.feed.wlen == 1 then 1 else (c.feed.wlen - 1) % 0x10000)
            && AskedOne(c.feed, d.feed) && d.sound == c.sound
            && Written(l, p, nr, word).raised == p.raised + [nr]
  {
  }

  /** The word after it is heard at once, high byte first, and one more is asked for. */
  lemma SecondFetch(l: Lines, p: Paula, nr: nat, word: int)
    requires Plain(l, nr) && |p.channels| == 4 && p.channels[nr].state == 5
    ensures var c, d := p.channels[nr], Written(l, p, nr, word).channels[nr];
            && Playing(d, word, true) && Begins(d) && SameSettings(c, d) && d.sound.last == c.sound.current
            && d.feed.wlen == c.feed.wlen && !d.feed.intreq2 && AskedOne(c.feed, d.feed)
            && Written(l, p, nr, word).raised == p.raised
  {
  }

  /** From the moment DMA is switched on to the first byte. */
  function Started(l: Lines, p: Paula, nr: nat, first: int, second: int): (q: Paula)
    requires Wired(l) && nr < 4 && |p.channels| == 4
    ensures |q.channels| == 4
  {
    Written(l, Written(l, Called(l, p, nr), nr, first), nr, second)
  }

  /** Words still to come after the first two of a sample. */
  function WordsAhead(len: int): int {
    if len == 1 then 1 else (len - 1) % 0x10000
  }

  lemma StartPlays(l: Lines, p: Paula, nr: nat, first: int, second: int)
    requires Plain(l, nr) && |p.channels| == 4 && p.channels[nr].state == 0
    ensures var c, d := p.channels[nr], Started(l, p, nr, first, second).channels[nr];
            && Playing(d, second, true) && Begins(d) && SameSettings(c, d)
            && d.feed.wlen == WordsAhead(c.feed.len) && !d.feed.intreq2
            && Started(l, p, nr, first, second).raised == p.raised + [nr]
  {
    hide Called, Written, Playing, Begins;
    DmaAwakens(l, p, nr);
    FirstFetch(l, Called(l, p, nr), nr, first);
    SecondFetch(l, Written(l, Called(l, p, nr), nr, first), nr, second);
  }

  /** A channel that still waits for data when its DMA is switched off rests, and forgets a
      waiting interrupt unless the processor is cycle-exact. */
  lemma DmaOffRests(l: Lines, p: Paula, nr: nat)
    requires Wired(l) && nr < 4 && |p.channels| == 4 && !(l.master && l.dma[nr])
    requires p.channels[nr].state == 1 || p.channels[nr].state == 5
    ensures var c, d := p.channels[nr], Called(l, p, nr).channels[nr];
            && d.state == 0 && d.evtime == MAX_EV && d.sound == c.sound && !d.feed.dmaStore
            && d.feed.intreq2 == (l.exact && c.feed.intreq2) && Called(l, p, nr).raised == p.raised
  {
  }

  // ----- Byte by byte -----

  /** The high byte gives way to the low byte of the same word, for one period. */
  lemma HighThenLow(l: Lines, p: Paula, nr: nat, word: int)
    requires Plain(l, nr) && |p.channels| == 4 && Playing(p.channels[nr], word, true)
    ensures var c, d := p.channels[nr], Ticked(l, p, nr).channels[nr];
            && Playing(d, word, false) && Begins(d) && SameSettings(c, d) && d.sound.last == c.sound.current
            && d.feed == c.feed
            && Ticked(l, p, nr).raised == p.raised
  {
    assert p.channels[nr].(feed := p.channels[nr].feed.(dmaStore := true)) == p.channels[nr];
  }

  /** A word written meanwhile waits and counts. */
  lemma WordWaits(l: Lines, p: Paula, nr: nat, word: int, next: int)
    requires Plain(l, nr) && |p.channels| == 4 && Playing(p.channels[nr], word, false)
    ensures var c, d := p.channels[nr], Written(l, p, nr, next).channels[nr];
            && Playing(d, word, false) && SameSettings(c, d) && d.dat == next
            && d.feed.wlen == (if c.feed.wlen == 1 then c.feed.len else (c.feed.wlen - 1) % 0x10000)
            && d.feed.intreq2 == (c.feed.intreq2 || c.feed.wlen == 1)
            && Written(l, p, nr, next).raised == p.raised
  {
  }

  /** The low byte gives way to the high byte of the word loaded meanwhile, for one period,
      and one more word is asked for: the next one, or the first of the sample again. A
      waiting interrupt is raised. */
  lemma LowThenHigh(l: Lines, p: Paula, nr: nat, word: int)
    requires Plain(l, nr) && |p.channels| == 4 && Playing(p.channels[nr], word, false)
    ensures var c, d := p.channels[nr], Ticked(l, p, nr).channels[nr];
            && Playing(d, c.dat, true) && Begins(d) && SameSettings(c, d) && d.sound.last == c.sound.current
            && AskedOne(c.feed, d.feed) && d.feed.wlen == c.feed.wlen && !d.feed.intreq2
            && Ticked(l, p, nr).raised == if c.feed.intreq2 then p.raised + [nr] else p.raised
  {
  }

  // ----- Word by word -----

  /** From the high byte of one word to the high byte of the next. */
  function NextHeard(l: Lines, p: Paula, nr: nat, word: int): (q: Paula)
    requires Wired(l) && nr < 4 && |p.channels| == 4
    ensures |q.channels| == 4
  {
    Ticked(l, Written(l, Ticked(l, p, nr), nr, word), nr)
  }

  function AfterWords(l: Lines, p: Paula, nr: nat, words: seq<int>): (q: Paula)
    requires Wired(l) && nr < 4 && |p.channels| == 4
    ensures |q.channels| == 4
  {
    if words == [] then p
    else NextHeard(l, AfterWords(l, p, nr, words[..|words| - 1]), nr, words[|words| - 1])
  }

  /** The sample bytes heard on the way, period by period. */
  function Heard(l: Lines, p: Paula, nr: nat, words: seq<int>): seq<int>
    requires Wired(l) && nr < 4 && |p.channels| == 4
  {
    if words == [] then []
    else
      var before := AfterWords(l, p, nr, words[..|words| - 1]);
      Heard(l, p, nr, words[..|words| - 1])
        + [Ticked(l, before, nr).channels[nr].sound.current, AfterWords(l, p, nr, words).channels[nr].sound.current]
  }

  /** The bytes of words, high byte first. */
  function Bytes(words: seq<int>): seq<int> {
    if words == [] then [] else Bytes(words[..|words| - 1]) + [HighOf(words[|words| - 1]), LowOf(words[|words| - 1])]
  }

  lemma NextWordHeard(l: Lines, p: Paula, nr: nat, word: int, next: int)
    requires Plain(l, nr) && |p.channels| == 4 && Playing(p.channels[nr], word, true) && !p.channels[nr].feed.intreq2
    ensures var c, d := p.channels[nr], NextHeard(l, p, nr, next).channels[nr];
            && Playing(Ticked(l, p, nr).channels[nr], word, false) && Begins(Ticked(l, p, nr).channels[nr])
            && Playing(d, next, true) && Begins(d) && SameSettings(c, d) && !d.feed.intreq2
            && d.feed.wlen == (if c.feed.wlen == 1 then c.feed.len else (c.feed.wlen - 1) % 0x10000)
            && NextHeard(l, p, nr, next).raised == if c.feed.wlen == 1 then p.raised + [nr] else p.raised
  {
    hide Ticked, Written, Playing, AskedOne;
    HighThenLow(l, p, nr, word);
    WordWaits(l, Ticked(l, p, nr), nr, word, next);
    LowThenHigh(l, Written(l, Ticked(l, p, nr), nr, next), nr, word);
  }

  /** A channel fed by DMA plays every word it is given, high byte first, each byte for one
      period, in order and without a gap. */
  lemma {:induction false} PlaysWords(l: Lines, p: Paula, nr: nat, word: int, words: seq<int>)
    requires Plain(l, nr) && |p.channels| == 4 && Playing(p.channels[nr], word, true) && !p.channels[nr].feed.intreq2
    ensures var last := if words == [] then word else words[|words| - 1];
      && Playing(AfterWords(l, p, nr, words).channels[nr], last, true)
      && SameSettings(p.channels[nr], AfterWords(l, p, nr, words).channels[nr])
      && !AfterWords(l, p, nr, words).channels[nr].feed.intreq2
      && [HighOf(word)] + Heard(l, p, nr, words) + [LowOf(last)] == Bytes([word] + words)
  {
    hide Ticked, NextHeard, HighOf, LowOf;
    if words == [] {
      assert [word][..0] == [] && [word] + words == [word];
    } else {
      var shorter, next := words[..|words| - 1], words[|words| - 1];
      PlaysWords(l, p, nr, word, shorter);
      var before := AfterWords(l, p, nr, shorter);
      NextWordHeard(l, before, nr, before.channels[nr].dat2, next);
      assert ([word] + words)[..|words|] == [word] + shorter;
      assert ([word] + words)[|words|] == next;
    }
  }

  /** So from the moment its DMA is switched on a channel plays every word but the first it
      is given. */
  lemma PlaysFromStart(l: Lines, p: Paula, nr: nat, first: int, second: int, words: seq<int>)
    requires Plain(l, nr) && |p.channels| == 4 && p.channels[nr].state == 0
    ensures var q := Started(l, p, nr, first, second);
      var last := if words == [] then second else words[|words| - 1];
      [q.channels[nr].sound.current] + Heard(l, q, nr, words) + [LowOf(last)] == Bytes([second] + words)
  {
    hide Started, Heard, Bytes, HighOf, LowOf, Begins, SameSettings;
    StartPlays(l, p, nr, first, second);
    PlaysWords(l, Started(l, p, nr, first, second), nr, second, words);
  }

  // ----- The end of the sample -----

  /** A length register counts zero as 65536. */
  function Count(w: int): int {
    if w == 0 then 0x10000 else w
  }

  /** Words left after k more, and how often the sample has come to its last word meanwhile. */
  function LeftAfter(len: int, left: int, k: nat): int
    requires len > 0
  {
    if k < left then left - k else len - (k - left) % len
  }

  function LoopsAfter(len: int, left: int, k: nat): (n: int)
    requires len > 0
    ensures k >= left ==> n >= 1
    ensures n >= 0
  {
    if k < left then 0 else 1 + (k - left) / len
  }

  lemma OneMoreWord(len: int, left: int, k: nat)
    requires 1 <= len && 1 <= left
    ensures LeftAfter(len, left, k) >= 1
    ensures LeftAfter(len, left, k) == 1 ==>
      LeftAfter(len, left, k + 1) == len && LoopsAfter(len, left, k + 1) == LoopsAfter(len, left, k) + 1
    ensures LeftAfter(len, left, k) != 1 ==>
      LeftAfter(len, left, k + 1) == LeftAfter(len, left, k) - 1
      && LoopsAfter(len, left, k + 1) == LoopsAfter(len, left, k)
  {
    if k >= left {
      Counting.NextWord(k - left, len);
    }
  }

  function Rings(nr: nat, n: nat): (s: seq<nat>)
    ensures |s| == n
  {
    if n == 0 then [] else Rings(nr, n - 1) + [nr]
  }

  /** A running sample raises one interrupt each time its last word begins, and starts over. */
  lemma {:induction false} InterruptPerLoop(l: Lines, p: Paula, nr: nat, word: int, words: seq<int>)
    requires Plain(l, nr) && |p.channels| == 4 && Playing(p.channels[nr], word, true) && !p.channels[nr].feed.intreq2
    requires 0 <= p.channels[nr].feed.wlen < 0x10000 && 0 <= p.channels[nr].feed.len < 0x10000
    ensures var f, g := p.channels[nr].feed, AfterWords(l, p, nr, words).channels[nr].feed;
      && 0 <= g.wlen < 0x10000 && Count(g.wlen) == LeftAfter(Count(f.len), Count(f.wlen), |words|)
      && AfterWords(l, p, nr, words).raised == p.raised + Rings(nr, LoopsAfter(Count(f.len), Count(f.wlen), |words|))
  {
    hide NextHeard, LeftAfter, LoopsAfter, Playing;
    var f := p.channels[nr].feed;
    if words == [] {
      NothingHeard(Count(f.len), Count(f.wlen));
    } else {
      var shorter, next := words[..|words| - 1], words[|words| - 1];
      InterruptPerLoop(l, p, nr, word, shorter);
      PlaysWords(l, p, nr, word, shorter);
      var before := AfterWords(l, p, nr, shorter);
      NextWordHeard(l, before, nr, if shorter == [] then word else shorter[|shorter| - 1], next);
      OneMoreWord(Count(f.len), Count(f.wlen), |shorter|);
    }
  }

  lemma NothingHeard(len: int, left: int)
    requires 1 <= len && 1 <= left
    ensures LeftAfter(len, left, 0) == left && LoopsAfter(len, left, 0) == 0
  {
  }

  // ----- Fed by the processor -----

  /** The channel has no DMA and modulates no other. */
  predicate ByHand(l: Lines, nr: nat) {
    Wired(l) && nr < 4 && !(l.master && l.dma[nr]) && !l.attachVol[nr] && !l.attachPer[nr]
  }

  predicate HandPlaying(c: Channel, word: int, high: bool) {
    && c.dat2 == word && !c.pbufldl && !c.feed.dmaStore
    && if high then c.state == 2 && c.sound.current == HighOf(word)
       else (c.state == 3 || c.state == 0x13) && c.sound.current == LowOf(word)
  }

  /** A word written into a resting channel is heard at once, and the channel asks for the
      next by an interrupt; but not while an interrupt is pending. */
  lemma HandStarts(l: Lines, p: Paula, nr: nat, word: int)
    requires ByHand(l, nr) && |p.channels| == 4 && p.channels[nr].state == 0
    ensures var c, q := p.channels[nr], Written(l, p, nr, word);
      if l.irq[nr] then q.channels[nr].state == 0 && q.channels[nr].evtime == MAX_EV
                        && q.channels[nr].sound == c.sound && q.raised == p.raised
      else && HandPlaying(q.channels[nr], word, true) && Begins(q.channels[nr]) && SameSettings(c, q.channels[nr])
           && q.raised == p.raised + [nr]
  {
  }

  /** Its low byte follows after one period, at the same volume; one cycle before the end of
      the low byte the channel looks whether the interrupt is still pending. */
  lemma HandHighThenLow(l: Lines, p: Paula, nr: nat, word: int)
    requires ByHand(l, nr) && |p.channels| == 4 && HandPlaying(p.channels[nr], word, true)
    requires p.channels[nr].per > CYCLE_UNIT
    ensures var c, d := p.channels[nr], Ticked(l, p, nr).channels[nr];
            && HandPlaying(d, word, false) && d.state == 0x13 && d.evtime == d.per - CYCLE_UNIT && SameSettings(c, d)
            && d.sound.mixvol == c.sound.mixvol && d.sound.last == c.sound.current && d.dat == c.dat
            && Ticked(l, p, nr).raised == p.raised
  {
  }

  /** With the shortest period it looks at once. */
  lemma HandHighThenShortLow(l: Lines, p: Paula, nr: nat, word: int)
    requires ByHand(l, nr) && |p.channels| == 4 && HandPlaying(p.channels[nr], word, true)
    requires p.channels[nr].per == CYCLE_UNIT
    ensures var d := Ticked(l, p, nr).channels[nr];
            && HandPlaying(d, word, false) && d.state == 3 && d.evtime == CYCLE_UNIT
            && d.irqcheck == if l.irq[nr] then 1 else -1
  {
  }

  lemma HandWaits(l: Lines, p: Paula, nr: nat, word: int, next: int)
    requires ByHand(l, nr) && |p.channels| == 4 && HandPlaying(p.channels[nr], word, false)
    ensures Written(l, p, nr, next) == Put(p, nr, p.channels[nr].(dat := next, datWritten := false))
  {
  }

  lemma HandLooks(l: Lines, p: Paula, nr: nat, word: int)
    requires ByHand(l, nr) && |p.channels| == 4 && HandPlaying(p.channels[nr], word, false)
    requires p.channels[nr].state == 0x13
    ensures var c, d := p.channels[nr], Ticked(l, p, nr).channels[nr];
            && HandPlaying(d, word, false) && d.state == 3 && d.evtime == CYCLE_UNIT && SameSettings(c, d)
            && d.irqcheck == (if l.irq[nr] then 1 else -1) && d.dat == c.dat && d.sound == c.sound
            && Ticked(l, p, nr).raised == p.raised
  {
  }

  lemma HandEnds(l: Lines, p: Paula, nr: nat, word: int)
    requires ByHand(l, nr) && |p.channels| == 4 && HandPlaying(p.channels[nr], word, false)
    requires p.channels[nr].state == 3 && p.channels[nr].irqcheck != 0
    ensures var c, d := p.channels[nr], Ticked(l, p, nr).channels[nr];
            && Ticked(l, p, nr).raised == p.raised + [nr]
            && if c.irqcheck > 0 then && d.state == 0 && d.evtime == MAX_EV && d.sound == c.sound && d.irqcheck == 0
                                      && d.feed.intreq2 == (l.exact && c.feed.intreq2)
               else HandPlaying(d, c.dat, true) && Begins(d) && SameSettings(c, d)
  {
  }

  /** So a channel fed by the processor plays a word, high byte first, each byte for one
      period, and goes on with the word written meanwhile if the interrupt has been answered
      one cycle before the end, and rests otherwise. Either way it raises one interrupt. */
  lemma HandPlaysWord(l: Lines, late: Lines, p: Paula, nr: nat, word: int, next: int)
    requires ByHand(l, nr) && ByHand(late, nr) && |p.channels| == 4
    requires HandPlaying(p.channels[nr], word, true) && p.channels[nr].per > CYCLE_UNIT
    ensures
      var low := Ticked(l, p, nr);
      var fed := Written(l, low, nr, next);
      var last := Ticked(late, fed, nr);
      var end := Ticked(late, last, nr);
      && HandPlaying(low.channels[nr], word, false)
      && fed.channels[nr].evtime + last.channels[nr].evtime == p.channels[nr].per
      && end.raised == p.raised + [nr]
      && if late.irq[nr] then end.channels[nr].state == 0 && end.channels[nr].sound.current == LowOf(word)
         else HandPlaying(end.channels[nr], next, true) && Begins(end.channels[nr])
  {
    hide Ticked, Written;
    HandHighThenLow(l, p, nr, word);
    var low := Ticked(l, p, nr);
    HandWaits(l, low, nr, word, next);
    var fed := Written(l, low, nr, next);
    HandLooks(late, fed, nr, word);
    HandEnds(late, Ticked(late, fed, nr), nr, word);
  }

  // ----- Attached channels -----

  /** Where a low byte ends, a channel attached for volume sets that of the next channel, 64 at
      most, and is silent itself. */
  lemma SetsVolume(l: Lines, p: Paula, nr: nat)
    requires Wired(l) && nr < 3 && l.attachVol[nr] && l.master && l.dma[nr] && |p.channels| == 4
    requires p.channels[nr].state == 3 && !p.channels[nr].pbufldl
    ensures var c, q := p.channels[nr], Ticked(l, p, nr);
      && q.channels[nr + 1].sound.vol == (if c.dat % 128 < 64 then c.dat % 128 else 64)
      && q.channels[nr + 1].per == p.channels[nr + 1].per && q.channels[nr].dat2 == c.dat2
  {
  }

  /** Where a high byte ends, one attached for period sets that of the next. */
  lemma SetsPeriod(l: Lines, p: Paula, nr: nat)
    requires Wired(l) && nr < 3 && l.attachPer[nr] && |p.channels| == 4
    requires p.channels[nr].state == 2 && !p.channels[nr].pbufldl && 0 <= p.channels[nr].dat < 0x10000
    ensures var c, q := p.channels[nr], Ticked(l, p, nr);
      && q.channels[nr + 1].per == Count(c.dat) * CYCLE_UNIT
      && q.channels[nr + 1].sound == p.channels[nr + 1].sound && q.channels[nr].dat2 == c.dat2
  {
  }

  // ----- The period -----

  /** The period register counts in cycle units; below 60 of them a channel with DMA is slowed
      down, unless the processor is cycle-exact. */
  lemma PeriodCounts(v: int, dmaOn: bool, exact: bool)
    requires 0 <= v < 0x10000
    ensures ProgrammedPeriod(v, dmaOn, exact) % CYCLE_UNIT == 0
    ensures ProgrammedPeriod(v, dmaOn, exact) / CYCLE_UNIT
         == if dmaOn && !exact && Count(v) < 60 then 60 else Count(v)
  {
  }
}
