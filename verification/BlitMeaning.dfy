/** What a blit leaves in memory, bit by bit, from the words that memory holds when it
    starts: where every bit of A, B and C goes, which bits of A the masks let through, and
    where the result is stored. */
module BlitMeaning {
  import opened ChipMemory
  import opened Counting
  import opened DataPath
  import opened Bits
  import opened LogicUnit
  import opened ShifterProof
  import opened BlitSpec
  import opened CycleEngine
  import opened FadingSpec
  import opened FastLoop
  import opened FillProof
  import opened FillTheorems
  import FillOverlap
  import CycleProof
  import CycleTheorems
  import BlitTheorems

  // ----- The words of a channel -----

  /** Where word k of a channel lies, by its row and column. */
  function PlaceOf(job: Job, ch: Channel, k: nat): int
    requires job.Valid()
  {
    WordIndex(job.span, Wrap(BlitTheorems.Address(job, ch, k / job.h, k % job.h)))
  }

  /** What lies there when the blit starts. */
  function Given(job: Job, ch: Channel, s: Serial, k: nat): Word
    requires job.Valid()
  {
    Get(s.memory, job.span, Wrap(BlitTheorems.Address(job, ch, k / job.h, k % job.h)))
  }

  /** Bit i of word k of A behind the masks: the first mask acts on the first column of a
      row, the last one on the last. Before word 0 comes what an earlier blit left. */
  predicate StreamA(job: Job, s: Serial, k: int, i: bv32)
    requires job.Valid() && -1 <= k && i < 16
  {
    if k < 0 then WordBit(s.regs.aold, i)
    else
      && WordBit(if job.useA then Given(job, A, s, k) else s.regs.adat, i)
      && (k % job.h == 0 ==> WordBit(job.afwm, i))
      && (k % job.h == job.h - 1 ==> WordBit(job.alwm, i))
  }

  predicate StreamB(job: Job, s: Serial, k: int, i: bv32)
    requires job.Valid() && -1 <= k && i < 16
  {
    if k < 0 then WordBit(s.regs.bold, i) else WordBit(Given(job, B, s, k), i)
  }

  /** Which bit the shifter moves to place i: one of the same word, or of the word before.
      Ascending, bits move towards the low end by the shift count, descending towards the
      high end. */
  function From(descending: bool, shift: Shift, i: bv32): (r: (bool, bv32))
    requires i < 16
    ensures r.1 < 16
  {
    Places(i, shift);
    if descending then
      if i >= shift then (true, i - shift) else (false, i + 16 - shift)
    else
      if i + shift < 16 then (true, i + shift) else (false, i + shift - 16)
  }

  /** The three bits that meet in bit i of destination word k. */
  predicate InputA(job: Job, s: Serial, k: nat, i: bv32)
    requires job.Valid() && i < 16
  {
    var (own, n) := From(job.descending, job.ashift, i);
    StreamA(job, s, if own then k else k - 1, n)
  }

  predicate InputB(job: Job, s: Serial, k: nat, i: bv32)
    requires job.Valid() && i < 16
  {
    if job.useB then
      var (own, n) := From(job.descending, job.bshift, i);
      StreamB(job, s, if own then k else k - 1, n)
    else WordBit(s.regs.bhold, i)
  }

  predicate InputC(job: Job, s: Serial, k: nat, i: bv32)
    requires job.Valid() && i < 16
  {
    WordBit(if job.useC then Given(job, C, s, k) else s.regs.cdat, i)
  }

  /** Bit i of word k as the minterm byte asks for it. */
  predicate Meant(job: Job, s: Serial, k: nat, i: bv32)
    requires job.Valid() && i < 16
  {
    Entry(job.minterm, InputA(job, s, k, i), InputB(job, s, k, i), InputC(job, s, k, i))
  }

  /** No source word is fetched after the blit has stored over it. A word is stored after
      the next one has been fetched. */
  ghost predicate Undisturbed(job: Job)
    requires job.Valid()
  {
    job.useD ==> forall ch: Channel, k: nat, m: nat {:trigger PlaceOf(job, ch, k), PlaceOf(job, D, m)} ::
      ch != D && job.Uses(ch) && m + 1 < k < job.Words() ==> PlaceOf(job, ch, k) != PlaceOf(job, D, m)
  }

  // ----- The masks -----

  lemma MaskedBit(w: Word, m: Word, i: bv32)
    requires i < 16
    ensures WordBit(Masked(w, m), i) == (WordBit(w, i) && WordBit(m, i))
  {
  }

  /** Which bits of A a column lets through. */
  lemma MaskABits(job: Job, column: int, data: Word, i: bv32)
    requires i < 16
    ensures WordBit(MaskA(job, column, data), i) <==>
      && WordBit(data, i)
      && (column == 0 ==> WordBit(job.afwm, i))
      && (column == job.h - 1 ==> WordBit(job.alwm, i))
  {
    hide WordBit, Masked;
    var first := if column == 0 then Masked(data, job.afwm) else data;
    MaskedBit(data, job.afwm, i);
    MaskedBit(first, job.alwm, i);
  }

  /** a is a word of A as its column lets it through: the first mask acts in the first
      column, the last mask in the last one. */
  ghost predicate LetThrough(job: Job, column: int, data: Word, a: Word) {
    forall i: bv32 :: i < 16 ==>
      (WordBit(a, i) <==>
        WordBit(data, i) && (column == 0 ==> WordBit(job.afwm, i)) && (column == job.h - 1 ==> WordBit(job.alwm, i)))
  }

  lemma MaskALetsThrough(job: Job, column: int, data: Word)
    ensures LetThrough(job, column, data, MaskA(job, column, data))
  {
    hide WordBit, MaskA;
    forall i: bv32 | i < 16
      ensures WordBit(MaskA(job, column, data), i) <==>
        WordBit(data, i) && (column == 0 ==> WordBit(job.afwm, i)) && (column == job.h - 1 ==> WordBit(job.alwm, i))
    {
      MaskABits(job, column, data, i);
    }
  }

  lemma ComputeLetsThrough(job: Job, r: Regs, column: int)
    ensures LetThrough(job, column, r.adat, Compute(job, r, column).0.aold)
  {
    hide LetThrough, MaskA, Low, Shifter, Minterm, FillWord;
    MaskALetsThrough(job, column, r.adat);
  }

  // ----- Words in place -----

  lemma PointerIsPlace(job: Job, ch: Channel, k: nat)
    requires job.Valid() && job.Uses(ch)
    ensures Pointer(job, ch, k) == Wrap(BlitTheorems.Address(job, ch, k / job.h, k % job.h))
  {
    hide Wrap, BlitTheorems.Address;
    assert k == k / job.h * job.h + k % job.h;
    BlitTheorems.PointerOfWord(job, ch, k / job.h, k % job.h);
  }

  /** After k words memory has changed at most where words before the last were stored. */
  lemma {:induction false} StillThere(job: Job, rowReset: bool, s: Serial, k: nat, p: nat)
    requires job.Valid() && p < |s.memory|
    requires job.useD ==> forall m: nat :: m + 1 < k ==> PlaceOf(job, D, m) != p
    ensures var now := Serially(job, rowReset, s, k).memory; |now| == |s.memory| && now[p] == s.memory[p]
  {
    hide Compute, Fetch, Pointer, PlaceOf;
    if k > 0 {
      StillThere(job, rowReset, s, k - 1, p);
      if job.useD && k > 1 {
        DestinationOf(job, k - 2);
      }
    }
  }

  lemma DestinationOf(job: Job, k: nat)
    requires job.Valid() && job.useD
    ensures WordIndex(job.span, Pointer(job, D, k)) == PlaceOf(job, D, k)
  {
    PointerIsPlace(job, D, k);
  }

  /** So every source word is fetched as memory held it at the start. */
  lemma FetchesGiven(job: Job, rowReset: bool, s: Serial, k: nat, ch: Channel)
    requires job.Valid() && Undisturbed(job) && job.Uses(ch) && ch != D && k < job.Words()
    ensures Get(Serially(job, rowReset, s, k).memory, job.span, Pointer(job, ch, k)) == Given(job, ch, s, k)
  {
    hide Serially, Pointer, Wrap, BlitTheorems.Address;
    PointerIsPlace(job, ch, k);
    var p := PlaceOf(job, ch, k);
    if 0 <= p < |s.memory| {
      StillThere(job, rowReset, s, k, p);
    } else {
      SizeStays(job, rowReset, s, k);
    }
  }

  lemma {:induction false} SizeStays(job: Job, rowReset: bool, s: Serial, k: nat)
    requires job.Valid()
    ensures |Serially(job, rowReset, s, k).memory| == |s.memory|
  {
    hide Compute, Fetch, Pointer, Put;
    if k > 0 {
      SizeStays(job, rowReset, s, k - 1);
    }
  }

  // ----- The registers before word k -----

  ghost predicate HoldsA(job: Job, s: Serial, w: Word, k: int)
    requires job.Valid() && -1 <= k
  {
    forall i: bv32 :: i < 16 ==> WordBit(w, i) == StreamA(job, s, k, i)
  }

  ghost predicate HoldsB(job: Job, s: Serial, w: Word, k: int)
    requires job.Valid() && -1 <= k
  {
    forall i: bv32 :: i < 16 ==> WordBit(w, i) == StreamB(job, s, k, i)
  }

  /** What the registers hold when word k begins. */
  ghost predicate Loaded(job: Job, s: Serial, r: Regs, k: nat)
    requires job.Valid()
  {
    && HoldsA(job, s, r.aold, k - 1)
    && (job.useB ==> HoldsB(job, s, r.bold, k - 1))
    && (!job.useA ==> r.adat == s.regs.adat)
    && (!job.useB ==> r.bhold == s.regs.bhold)
    && (!job.useC ==> r.cdat == s.regs.cdat)
  }

  /** The fetches of word k, as the words that were there at the start. */
  function GivenFetch(job: Job, s: Serial, r: Regs, k: nat): Regs
    requires job.Valid()
  {
    var r := if job.useA then FetchA(r, Given(job, A, s, k)) else r;
    var r := if job.useB then FetchB(job, r, Given(job, B, s, k)) else r;
    if job.useC then FetchC(r, Given(job, C, s, k)) else r
  }

  lemma FetchIsGiven(job: Job, rowReset: bool, s: Serial, k: nat)
    requires job.Valid() && Undisturbed(job) && k < job.Words()
    ensures var now := Serially(job, rowReset, s, k);
            Fetch(job, job.useA, job.useB, job.useC, now.regs, now.memory, k) == GivenFetch(job, s, now.regs, k)
  {
    hide Serially, Pointer, Get, Low, Shifter, Given;
    forall ch: Channel | ch != D && job.Uses(ch)
      ensures Get(Serially(job, rowReset, s, k).memory, job.span, Pointer(job, ch, k)) == Given(job, ch, s, k)
    {
      FetchesGiven(job, rowReset, s, k, ch);
    }
    assert job.Uses(A) <==> job.useA;
    assert job.Uses(B) <==> job.useB;
    assert job.Uses(C) <==> job.useC;
  }

  lemma LoadedNext(job: Job, s: Serial, r: Regs, next: Regs, k: nat)
    requires job.Valid() && Loaded(job, s, r, k)
    requires var f := GivenFetch(job, s, r, k);
             next == f.(aold := MaskA(job, k % job.h, f.adat), fc := next.fc, zero := next.zero)
    ensures Loaded(job, s, next, k + 1)
  {
    hide HoldsA, HoldsB, MaskA, Given, Low, Shifter;
    MaskedHolds(job, s, GivenFetch(job, s, r, k).adat, k);
    GivenHolds(job, s, k);
  }

  lemma MaskedHolds(job: Job, s: Serial, data: Word, k: nat)
    requires job.Valid() && data == if job.useA then Given(job, A, s, k) else s.regs.adat
    ensures HoldsA(job, s, MaskA(job, k % job.h, data), k)
  {
    hide WordBit, MaskA, Given;
    forall i: bv32 | i < 16 ensures WordBit(MaskA(job, k % job.h, data), i) == StreamA(job, s, k, i) {
      MaskABits(job, k % job.h, data, i);
    }
  }

  lemma GivenHolds(job: Job, s: Serial, k: nat)
    requires job.Valid()
    ensures HoldsB(job, s, Given(job, B, s, k), k)
  {
    hide WordBit, Given;
  }

  lemma StepLoads(job: Job, rowReset: bool, s: Serial, k: nat)
    requires job.Valid() && Undisturbed(job) && k < job.Words()
    ensures var r := Serially(job, rowReset, s, k).regs;
            var next := Serially(job, rowReset, s, k + 1).regs;
            var f := GivenFetch(job, s, r, k);
            next == f.(aold := MaskA(job, k % job.h, f.adat), fc := next.fc, zero := next.zero)
  {
    hide MaskA, Minterm, Low, Shifter, FillWord, Fetch, GivenFetch, Store, Undisturbed;
    FetchIsGiven(job, rowReset, s, k);
    assert Serially(job, rowReset, s, k + 1) == WordStep(job, rowReset, Serially(job, rowReset, s, k), k);
  }

  lemma {:induction false} RegistersLoaded(job: Job, rowReset: bool, s: Serial, k: nat)
    requires job.Valid() && Undisturbed(job) && k <= job.Words()
    ensures Loaded(job, s, Serially(job, rowReset, s, k).regs, k)
  {
    hide Loaded, GivenFetch, WordStep, Undisturbed;
    if k == 0 {
      LoadedAtStart(job, s);
      assert Serially(job, rowReset, s, 0) == s;
    } else {
      RegistersLoaded(job, rowReset, s, k - 1);
      StepLoads(job, rowReset, s, k - 1);
      LoadedNext(job, s, Serially(job, rowReset, s, k - 1).regs, Serially(job, rowReset, s, k).regs, k - 1);
    }
  }

  lemma LoadedAtStart(job: Job, s: Serial)
    requires job.Valid()
    ensures Loaded(job, s, s.regs, 0)
  {
    hide WordBit, Given;
  }

  // ----- The bits of word k -----

  lemma ShiftedBit(descending: bool, shift: Shift, previous: Word, current: Word, i: bv32)
    requires i < 16
    ensures var (own, n) := From(descending, shift, i);
            WordBit(Low(Shifter(descending, shift, previous, current)), i)
            == WordBit(if own then current else previous, n)
  {
    hide WordBit, Low, Shifter;
    if descending {
      DescendingBit(shift, previous, current, i);
    } else {
      AscendingBit(shift, previous, current, i);
    }
  }

  lemma ShiftedA(job: Job, s: Serial, previous: Word, current: Word, k: nat, i: bv32)
    requires job.Valid() && HoldsA(job, s, previous, k - 1) && HoldsA(job, s, current, k) && i < 16
    ensures WordBit(Low(Shifter(job.descending, job.ashift, previous, current)), i) == InputA(job, s, k, i)
  {
    hide WordBit, Low, Shifter, StreamA, From;
    ShiftedBit(job.descending, job.ashift, previous, current, i);
  }

  lemma ShiftedB(job: Job, s: Serial, previous: Word, current: Word, k: nat, i: bv32)
    requires job.Valid() && job.useB && i < 16
    requires HoldsB(job, s, previous, k - 1) && HoldsB(job, s, current, k)
    ensures WordBit(Low(Shifter(job.descending, job.bshift, previous, current)), i) == InputB(job, s, k, i)
  {
    hide WordBit, Low, Shifter, StreamB, From;
    ShiftedBit(job.descending, job.bshift, previous, current, i);
  }

  lemma BitsOfInputs(job: Job, s: Serial, r: Regs, k: nat, i: bv32)
    requires job.Valid() && Loaded(job, s, r, k) && i < 16
    ensures var f := GivenFetch(job, s, r, k);
      && WordBit(Low(Shifter(job.descending, job.ashift, f.aold, MaskA(job, k % job.h, f.adat))), i)
         == InputA(job, s, k, i)
      && WordBit(f.bhold, i) == InputB(job, s, k, i)
      && WordBit(f.cdat, i) == InputC(job, s, k, i)
  {
    hide HoldsA, HoldsB, WordBit, Low, Shifter, MaskA, Given, StreamA, StreamB, InputA, From;
    var f := GivenFetch(job, s, r, k);
    MaskedHolds(job, s, f.adat, k);
    ShiftedA(job, s, f.aold, MaskA(job, k % job.h, f.adat), k, i);
    if job.useB {
      GivenHolds(job, s, k);
      ShiftedB(job, s, r.bold, Given(job, B, s, k), k, i);
    }
  }

  /** Before it is filled, every word is what the bits of the sources and the minterm say. */
  lemma RawMeans(job: Job, rowReset: bool, s: Serial, k: nat, i: bv32)
    requires job.Valid() && Undisturbed(job) && k < job.Words() && i < 16
    ensures WordBit(RawWord(job, rowReset, s, k), i) == Meant(job, s, k, i)
  {
    hide WordBit, Low, Shifter, MaskA, GivenFetch, Fetch, Minterm, Entry, Serially, Loaded, Undisturbed,
         InputA, InputB, InputC;
    var r := Serially(job, rowReset, s, k).regs;
    RegistersLoaded(job, rowReset, s, k);
    FetchIsGiven(job, rowReset, s, k);
    BitsOfInputs(job, s, r, k, i);
    var f := GivenFetch(job, s, r, k);
    MintermBits(job.minterm, Low(Shifter(job.descending, job.ashift, f.aold, MaskA(job, k % job.h, f.adat))),
      f.bhold, f.cdat, i);
  }

  // ----- Memory -----

  lemma NotFilled(job: Job, rowReset: bool, s: Serial, k: nat)
    requires job.Valid() && !job.fill
    ensures OutWord(job, rowReset, s, k) == RawWord(job, rowReset, s, k)
  {
    hide FillWord, Minterm, Low, Shifter, MaskA, Fetch, Store;
    assert Serially(job, rowReset, s, k + 1) == WordStep(job, rowReset, Serially(job, rowReset, s, k), k);
  }

  lemma StoredAt(job: Job, rowReset: bool, s: Serial, k: nat)
    requires job.Valid() && job.useD && OwnWords(job, |s.memory|) && k < job.Words()
    ensures 0 <= PlaceOf(job, D, k) < |s.memory| == |Blit(job, rowReset, s).memory|
    ensures Blit(job, rowReset, s).memory[PlaceOf(job, D, k)] == OutWord(job, rowReset, s, k)
  {
    hide OutWord, PlaceOf, Blit, OwnWords, After;
    DestinationOf(job, k);
    FillOverlap.MemoryAfter(job, rowReset, s);
    StoredInOwnPlace(job, rowReset, s, job.Words(), k);
  }

  /** Memory keeps what no word of the blit is stored over. */
  lemma OthersStay(job: Job, rowReset: bool, s: Serial, p: nat)
    requires job.Valid() && p < |s.memory|
    requires job.useD ==> forall k: nat :: k < job.Words() ==> PlaceOf(job, D, k) != p
    ensures var m := Blit(job, rowReset, s).memory; |m| == |s.memory| && m[p] == s.memory[p]
  {
    hide Serially, Pointer, PlaceOf, WordIndex;
    var n := job.Words();
    StillThere(job, rowReset, s, n, p);
    if job.useD && n > 0 {
      DestinationOf(job, n - 1);
    }
  }

  /** Without fill, word k of the destination holds bit for bit what the minterm makes of
      the masked and shifted sources. */
  lemma MemoryMeans(job: Job, rowReset: bool, s: Serial, k: nat, i: bv32)
    requires job.Valid() && job.useD && !job.fill && OwnWords(job, |s.memory|) && Undisturbed(job)
    requires k < job.Words() && i < 16
    ensures 0 <= PlaceOf(job, D, k) < |Blit(job, rowReset, s).memory|
    ensures WordBit(Blit(job, rowReset, s).memory[PlaceOf(job, D, k)], i) == Meant(job, s, k, i)
  {
    hide WordBit, Meant, Blit, OutWord, RawWord, OwnWords, Undisturbed, PlaceOf;
    StoredAt(job, rowReset, s, k);
    NotFilled(job, rowReset, s, k);
    RawMeans(job, rowReset, s, k, i);
  }

  /** Where column i of row j of the destination lies. */
  function PlaceInRow(job: Job, j: nat, i: nat): int
    requires job.Valid()
  {
    WordIndex(job.span, Wrap(BlitTheorems.Address(job, D, j, i)))
  }

  lemma PlacesInRow(job: Job, j: nat, i: nat)
    requires job.Valid() && i < job.h
    ensures PlaceInRow(job, j, i) == PlaceOf(job, D, j * job.h + i)
  {
    QuotientIsUnique(j * job.h + i, job.h, j, i);
  }

  /** Row j of the destination in memory. */
  function RowOf(job: Job, memory: seq<Word>, j: nat): (row: seq<Word>)
    requires job.Valid() && forall i: nat :: i < job.h ==> 0 <= PlaceInRow(job, j, i) < |memory|
    ensures |row| == job.h
  {
    seq(job.h, i requires 0 <= i < job.h => memory[PlaceInRow(job, j, i)])
  }

  lemma RowStored(job: Job, s: Serial, j: nat)
    requires job.Valid() && job.useD && OwnWords(job, |s.memory|) && j < job.v
    ensures var memory := Blit(job, true, s).memory;
      && (forall i: nat :: i < job.h ==> 0 <= PlaceInRow(job, j, i) < |memory|)
      && RowOf(job, memory, j) == OutRow(job, s, j)
  {
    hide OutWord, PlaceOf, PlaceInRow, Blit, OwnWords;
    forall i: nat | i < job.h
      ensures 0 <= PlaceInRow(job, j, i) < |Blit(job, true, s).memory|
      ensures Blit(job, true, s).memory[PlaceInRow(job, j, i)] == OutWord(job, true, s, j * job.h + i)
    {
      InRows(job, j, i);
      PlacesInRow(job, j, i);
      StoredAt(job, true, s, j * job.h + i);
    }
  }

  /** The words of row j as minterm, shifters and masks make them. */
  ghost predicate RowMeant(job: Job, s: Serial, j: nat, raw: seq<Word>)
    requires job.Valid()
  {
    && |raw| == job.h
    && forall i: nat, n: bv32 :: i < job.h && n < 16 ==> WordBit(raw[i], n) == Meant(job, s, j * job.h + i, n)
  }

  lemma RawRowMeant(job: Job, s: Serial, j: nat, raw: seq<Word>)
    requires job.Valid() && Undisturbed(job) && j < job.v && RowMeant(job, s, j, raw)
    ensures raw == RawRow(job, s, j)
  {
    hide WordBit, Meant, RawWord, Undisturbed;
    forall i: nat | i < job.h ensures raw[i] == RawWord(job, true, s, j * job.h + i) {
      InRows(job, j, i);
      forall n: bv32 | n < 16 ensures WordBit(raw[i], n) == WordBit(RawWord(job, true, s, j * job.h + i), n) {
        RawMeans(job, true, s, j * job.h + i, n);
      }
      SameBits(raw[i], RawWord(job, true, s, j * job.h + i));
    }
  }

  /** With fill, every row of the destination holds the bit-serial fill of such words. */
  lemma FilledMemoryMeans(job: Job, s: Serial, j: nat, raw: seq<Word>)
    requires job.Valid() && job.useD && job.fill && OwnWords(job, |s.memory|) && Undisturbed(job)
    requires s.regs.fc == job.carryIn && j < job.v && RowMeant(job, s, j, raw)
    ensures forall i: nat :: i < job.h ==> 0 <= PlaceInRow(job, j, i) < |Blit(job, true, s).memory|
    ensures RowBits(RowOf(job, Blit(job, true, s).memory, j)) == FillBits(job.inclusive, job.carryIn, RowBits(raw)).0
  {
    hide Blit, PlaceInRow, OwnWords, Undisturbed, RowMeant, RowBits, FillBits, OutRow, RawRow, RowOf;
    RowStored(job, s, j);
    RawRowMeant(job, s, j, raw);
    RowIsFilled(job, s, j);
  }

  // ----- Both engines -----

  /** So both engines leave in every destination word what the sources mean. */
  lemma EnginesMean(job: Job, s: Serial, e: Engine, grants: seq<Grant>, bdat: Word, k: nat, i: bv32)
    requires CycleProof.Begun(job, PlanOf(job), s, e) && job.useD && !job.fill
    requires !Run(job, PlanOf(job), e, grants).clock.running
    requires s.regs.fc == job.carryIn && NoNullPointer(job)
    requires OwnWords(job, |s.memory|) && Undisturbed(job) && k < job.Words() && i < 16
    ensures var memory := FastBlit(job, s, bdat).memory;
      && Run(job, PlanOf(job), e, grants).memory == memory
      && 0 <= PlaceOf(job, D, k) < |memory| && WordBit(memory[PlaceOf(job, D, k)], i) == Meant(job, s, k, i)
  {
    hide Run, Blit, FastBlit, PlanOf, OwnWords, Undisturbed, PlaceOf, Meant, WordBit, Pointer,
         FillTheorems.CarryComesBack;
    BlitTheorems.EnginesAgree(job, s, e, grants, bdat);
    BlitTheorems.FastOutcome(job, s, bdat);
    MemoryMeans(job, true, s, k, i);
  }

  // ----- Copying -----

  function Through(w: Word, first: Word, last: Word): Word {
    w & first & last
  }

  /** A word behind the masks of its column. */
  function Edged(job: Job, column: int, w: Word): Word {
    Through(w, if column == 0 then job.afwm else 0xFFFF, if column == job.h - 1 then job.alwm else 0xFFFF)
  }

  lemma ThroughBit(w: Word, x: Word, y: Word, i: bv32)
    requires i < 16
    ensures WordBit(Through(w, x, y), i) == (WordBit(w, i) && WordBit(x, i) && WordBit(y, i))
  {
  }

  lemma OnesBit(i: bv32)
    requires i < 16
    ensures WordBit(0xFFFF, i)
  {
  }

  lemma EdgedBits(job: Job, column: int, w: Word, i: bv32)
    requires i < 16
    ensures WordBit(Edged(job, column, w), i) <==>
      && WordBit(w, i)
      && (column == 0 ==> WordBit(job.afwm, i))
      && (column == job.h - 1 ==> WordBit(job.alwm, i))
  {
    hide WordBit, Through;
    OnesBit(i);
    ThroughBit(w, if column == 0 then job.afwm else 0xFFFF, if column == job.h - 1 then job.alwm else 0xFFFF, i);
  }

  lemma Unmoved(descending: bool, i: bv32)
    requires i < 16
    ensures From(descending, 0, i) == (true, i)
  {
  }

  lemma EntryOfA(a: bool, b: bool, c: bool)
    ensures Entry(0xF0, a, b, c) == a
  {
  }

  /** A copy of A without shift leaves the source words: the first of a row under the first
      mask, the last under the last, a single one under both, all others whole. */
  lemma CopyIsMasked(job: Job, rowReset: bool, s: Serial, k: nat)
    requires job.Valid() && job.useA && job.useD && !job.fill && job.minterm == 0xF0 && job.ashift == 0
    requires OwnWords(job, |s.memory|) && Undisturbed(job) && k < job.Words()
    ensures 0 <= PlaceOf(job, D, k) < |Blit(job, rowReset, s).memory|
    ensures Blit(job, rowReset, s).memory[PlaceOf(job, D, k)] == Edged(job, k % job.h, Given(job, A, s, k))
  {
    hide WordBit, Blit, OwnWords, Undisturbed, PlaceOf, Given, Edged, Entry, InputB, InputC, From;
    StoredAt(job, rowReset, s, k);
    var w := Blit(job, rowReset, s).memory[PlaceOf(job, D, k)];
    forall i: bv32 | i < 16 ensures WordBit(w, i) == WordBit(Edged(job, k % job.h, Given(job, A, s, k)), i) {
      MemoryMeans(job, rowReset, s, k, i);
      EdgedBits(job, k % job.h, Given(job, A, s, k), i);
      Unmoved(job.descending, i);
      EntryOfA(InputA(job, s, k, i), InputB(job, s, k, i), InputC(job, s, k, i));
    }
    SameBits(w, Edged(job, k % job.h, Given(job, A, s, k)));
  }
}
