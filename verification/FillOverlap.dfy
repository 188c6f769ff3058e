/** Fills without sources whose words may share places or miss memory: only the word stored
    last at a place is seen there, and the zero flag sees them all. */
module FillOverlap {
  import opened ChipMemory
  import opened Counting
  import opened DataPath
  import opened BlitSpec
  import opened FillTheorems

  /** The place in memory of word k, if it is below the memory's size. */
  function Place(job: Job, k: nat): (i: int)
    requires job.Valid()
  {
    WordIndex(job.span, Pointer(job, D, k))
  }

  lemma PlaceIsNatural(job: Job, k: nat)
    requires job.Valid()
    ensures 0 <= Place(job, k)
  {
  }

  /** The last of the first k words that is stored at place p, or -1. */
  function LastStore(job: Job, k: nat, p: int): (m: int)
    requires job.Valid()
    ensures -1 <= m < k
    ensures m >= 0 ==> Place(job, m) == p
    ensures forall j: nat :: m < j < k ==> Place(job, j) != p
  {
    if k == 0 then -1 else if Place(job, k - 1) == p then k - 1 else LastStore(job, k - 1, p)
  }

  /** Word k is in memory when the blit is over. */
  ghost predicate Lasting(job: Job, size: nat, k: nat)
    requires job.Valid()
  {
    Place(job, k) < size && forall m: nat :: k < m < job.Words() ==> Place(job, m) != Place(job, k)
  }

  /** What memory holds at a place: the word stored last, or what was there. */
  lemma {:induction false} AfterAt(job: Job, rowReset: bool, s: Serial, k: nat, p: nat)
    requires job.Valid() && job.useD && p < |s.memory|
    ensures |After(job, rowReset, s, k)| == |s.memory|
    ensures After(job, rowReset, s, k)[p] ==
      var m := LastStore(job, k, p); if m < 0 then s.memory[p] else OutWord(job, rowReset, s, m)
  {
    hide After, OutWord, Pointer, WordIndex;
    AfterSize(job, rowReset, s, k);
    AfterNext(job, rowReset, s, 0);
    if k > 0 {
      AfterSize(job, rowReset, s, k - 1);
      AfterAt(job, rowReset, s, k - 1, p);
      AfterNext(job, rowReset, s, k - 1);
    }
  }

  lemma MemoryAfter(job: Job, rowReset: bool, s: Serial)
    requires job.Valid()
    ensures Blit(job, rowReset, s).memory == After(job, rowReset, s, job.Words())
  {
    hide Serially, Store, Pointer;
  }

  /** The two machines leave the same memory exactly if every lasting word is the same. */
  lemma LastingWordsShow(job: Job, s: Serial)
    requires job.Valid() && job.useD
    ensures Blit(job, false, s).memory == Blit(job, true, s).memory <==>
      forall k: nat :: k < job.Words() && Lasting(job, |s.memory|, k) ==> SameAt(job, s, k)
  {
    hide Blit, After, OutWord, Place, Serially;
    var n, size := job.Words(), |s.memory|;
    MemoryAfter(job, false, s);
    MemoryAfter(job, true, s);
    var x, y := After(job, false, s, n), After(job, true, s, n);
    AfterSize(job, false, s, n);
    AfterSize(job, true, s, n);
    forall k: nat | x == y && k < n && Lasting(job, size, k) ensures SameAt(job, s, k) {
      PlaceIsNatural(job, k);
      AfterAt(job, false, s, n, Place(job, k));
      AfterAt(job, true, s, n, Place(job, k));
    }
    if forall k: nat :: k < n && Lasting(job, size, k) ==> SameAt(job, s, k) {
      forall p | 0 <= p < size ensures x[p] == y[p] {
        AfterAt(job, false, s, n, p);
        AfterAt(job, true, s, n, p);
        var m := LastStore(job, n, p);
        assert m >= 0 ==> Lasting(job, size, m) && SameAt(job, s, m);
      }
      assert x == y;
    }
  }

  /** The carry with which the row of word k starts is right without a reset, or, filled
      inclusively, the word has only ones. */
  predicate CarryHidden(job: Job, r: Regs, k: nat)
    requires job.h > 0
  {
    !OddAbove(job, r, k / job.h) || (job.inclusive && PlainWord(job, r, k) == 0xFFFF)
  }

  /** Nothing of the carry can be seen in memory. */
  ghost predicate HiddenWhereLasting(job: Job, r: Regs, size: nat)
    requires job.Valid()
  {
    forall k: nat :: k < job.Words() && Lasting(job, size, k) ==> CarryHidden(job, r, k)
  }

  /** Nothing of the carry can be seen in the zero flag. */
  ghost predicate HiddenInFlag(job: Job, r: Regs)
    requires job.Valid()
  {
    r.zero ==> (BlitSetsNothing(job, false, r) <==> BlitSetsNothing(job, true, r))
  }

  lemma SameIfHidden(job: Job, s: Serial, k: nat)
    requires job.Valid() && job.fill && job.Sources() == 0 && s.regs.fc == job.carryIn
    ensures SameAt(job, s, k) <==> CarryHidden(job, s.regs, k)
  {
    hide SameAt, OddAbove, PlainWord;
    assert k == k / job.h * job.h + k % job.h;
    WordComparison(job, s, k / job.h, k % job.h);
  }

  lemma FlagStaysClear(job: Job, rowReset: bool, s: Serial)
    requires job.Valid() && !s.regs.zero
    ensures !Blit(job, rowReset, s).zero
  {
    hide Serially, OutWord, Store, Pointer;
    ZeroSoFar(job, rowReset, s, job.Words());
  }

  lemma FlagShows(job: Job, s: Serial)
    requires job.Valid() && job.Sources() == 0 && s.regs.fc == job.carryIn
    ensures Blit(job, false, s).zero == Blit(job, true, s).zero <==> HiddenInFlag(job, s.regs)
  {
    hide Blit, BlitSetsNothing;
    if s.regs.zero {
      ZeroByRegisters(job, false, s);
      ZeroByRegisters(job, true, s);
    } else {
      FlagStaysClear(job, false, s);
      FlagStaysClear(job, true, s);
    }
  }

  lemma SamePointersAnyway(job: Job, s: Serial)
    requires job.Valid()
    ensures var x, y := Blit(job, false, s), Blit(job, true, s);
            x == y <==> x.memory == y.memory && x.zero == y.zero
  {
    hide Serially, Store, Pointer;
  }

  /** The exact condition for any fill without sources, wherever its words fall: the missing
      reset shows in no word that lasts, and not in the zero flag. */
  lemma ResetShowsAnywhere(job: Job, s: Serial)
    requires job.Valid() && job.fill && job.Sources() == 0 && job.useD && s.regs.fc == job.carryIn
    ensures Blit(job, false, s).memory == Blit(job, true, s).memory
            <==> HiddenWhereLasting(job, s.regs, |s.memory|)
    ensures Blit(job, false, s) == Blit(job, true, s)
            <==> HiddenWhereLasting(job, s.regs, |s.memory|) && HiddenInFlag(job, s.regs)
  {
    hide Blit, SameAt, CarryHidden, Lasting, HiddenInFlag;
    forall k: nat ensures SameAt(job, s, k) <==> CarryHidden(job, s.regs, k) {
      SameIfHidden(job, s, k);
    }
    LastingWordsShow(job, s);
    FlagShows(job, s);
    SamePointersAnyway(job, s);
  }
}
