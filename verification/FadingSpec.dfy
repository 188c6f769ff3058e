/** The word-serial machine as the immediate blitter runs it: to its loops a pointer of zero
    is a channel that is off, so a channel whose pointer reaches zero fades for good. */
module FadingSpec {
  import opened ChipMemory
  import opened DataPath
  import opened BlitSpec

  /** A channel is live at word k if it is used and its pointer has not been zero at any word
      so far, nor between the last word of a row and the modulo. */
  predicate Live(job: Job, ch: Channel, k: nat)
    requires job.h > 0
  {
    if k == 0 then job.Uses(ch) && job.Start(ch) != 0
    else Live(job, ch, k - 1) && Bump(job, Pointer(job, ch, k - 1)) != 0 && Pointer(job, ch, k) != 0
  }

  /** Where word k is stored: once D has faded, where the last word before went. */
  function Target(job: Job, k: nat): (p: int)
    requires job.h > 0
    ensures Live(job, D, 0) ==> p != 0
  {
    if k == 0 || Live(job, D, k) then Pointer(job, D, k) else Target(job, k - 1)
  }

  function FadingStore(job: Job, s: Serial, k: nat): seq<Word>
    requires job.Valid()
  {
    if Live(job, D, 0) && k > 0 then Put(s.memory, job.span, Target(job, k - 1), s.out) else s.memory
  }

  /** The fetches of word k through the channels that are live. */
  function FadingFetch(job: Job, s: Serial, k: nat): Regs
    requires job.Valid()
  {
    Fetch(job, Live(job, A, k), Live(job, B, k), Live(job, C, k), s.regs, s.memory, k)
  }

  function FadingStep(job: Job, s: Serial, k: nat): Serial
    requires job.Valid()
  {
    var (r, out) := Compute(job, FadingFetch(job, s, k), k % job.h);
    Serial(FadingStore(job, s, k), EndColumn(job, r, k % job.h), out)
  }

  function Fading(job: Job, s: Serial, k: nat): Serial
    requires job.Valid()
  {
    if k == 0 then s else FadingStep(job, Fading(job, s, k - 1), k - 1)
  }

  function FadingBlit(job: Job, s: Serial): Outcome
    requires job.Valid()
  {
    var n := job.Words();
    var last := Fading(job, s, n);
    Outcome(FadingStore(job, last, n),
      Pointer(job, A, n), Pointer(job, B, n), Pointer(job, C, n), Pointer(job, D, n), last.regs.zero)
  }

  // ----- A channel that fades stays off -----

  lemma {:induction false} FadesForGood(job: Job, ch: Channel, n: nat, k: nat)
    requires job.h > 0 && n <= k && Live(job, ch, k)
    ensures Live(job, ch, n) && Pointer(job, ch, n) != 0 && job.Uses(ch)
  {
    if n < k {
      FadesForGood(job, ch, n, k - 1);
    } else if k > 0 {
      FadesForGood(job, ch, k - 1, k - 1);
    }
  }

  lemma {:induction false} TargetSticks(job: Job, n: nat, k: nat)
    requires job.h > 0 && n <= k && Live(job, D, n) && !Live(job, D, n + 1)
    ensures Target(job, k) == Pointer(job, D, n)
  {
    if n < k {
      TargetSticks(job, n, k - 1);
      if Live(job, D, k) {
        FadesForGood(job, D, n + 1, k);
      }
    }
  }

  lemma PutTwice(memory: seq<Word>, span: nat, p: int, v: Word, w: Word)
    requires span > 0
    ensures Put(Put(memory, span, p, v), span, p, w) == Put(memory, span, p, w)
  {
  }

  /** If D fades after word n, that word and all later ones are stored on one place, so of
      them only the last word computed is left there, and nothing else has changed since. */
  lemma {:induction false} LaterWordsPileUp(job: Job, s: Serial, n: nat, k: nat)
    requires job.Valid() && n < k && Live(job, D, n) && !Live(job, D, n + 1)
    ensures FadingStore(job, Fading(job, s, k), k)
         == Put(FadingStore(job, Fading(job, s, n), n), job.span, Pointer(job, D, n), Fading(job, s, k).out)
  {
    hide FadingFetch, Compute, Put, Pointer;
    FadesForGood(job, D, 0, n);
    TargetSticks(job, n, k - 1);
    assert Fading(job, s, k) == FadingStep(job, Fading(job, s, k - 1), k - 1);
    if n + 1 < k {
      LaterWordsPileUp(job, s, n, k - 1);
      PutTwice(FadingStore(job, Fading(job, s, n), n), job.span, Pointer(job, D, n),
        Fading(job, s, k - 1).out, Fading(job, s, k).out);
    }
  }

  // ----- If nothing fades -----

  /** No pointer of an enabled channel is zero when the loops look at it: neither
      at a word nor at the end of a row that is not the last. */
  ghost predicate NoNullPointer(job: Job) {
    job.Valid()
    && forall ch: Channel, k: nat {:trigger Pointer(job, ch, k)} :: job.Uses(ch) && k < job.Words() ==>
      Pointer(job, ch, k) != 0 && (k + 1 < job.Words() ==> Bump(job, Pointer(job, ch, k)) != 0)
  }

  /** The channels the immediate blitter starts with: those whose pointer is not zero. */
  function Effective(job: Job): Job {
    job.(useA := job.useA && job.apt != 0, useB := job.useB && job.bpt != 0,
         useC := job.useC && job.cpt != 0, useD := job.useD && job.dpt != 0)
  }

  lemma StepsAgree(job: Job, ch: Channel, p: int)
    ensures Bump(Effective(job), p) == Bump(job, p) && Skip(Effective(job), ch, p) == Skip(job, ch, p)
    ensures Effective(job).Uses(ch) ==> job.Uses(ch)
  {
  }

  lemma {:induction false} SamePointer(job: Job, ch: Channel, k: nat)
    requires job.h > 0 && Effective(job).Uses(ch)
    ensures Pointer(Effective(job), ch, k) == Pointer(job, ch, k)
  {
    hide Bump, Skip;
    forall p ensures Bump(Effective(job), p) == Bump(job, p) && Skip(Effective(job), ch, p) == Skip(job, ch, p) {
      StepsAgree(job, ch, p);
    }
    StepsAgree(job, ch, 0);
    if k > 0 {
      SamePointer(job, ch, k - 1);
    }
  }

  lemma {:induction false} LiveIsUsed(job: Job, ch: Channel, k: nat)
    requires NoNullPointer(Effective(job)) && k < job.Words()
    ensures Live(job, ch, k) <==> Effective(job).Uses(ch)
  {
    if k > 0 {
      hide Bump;
      LiveIsUsed(job, ch, k - 1);
      if Effective(job).Uses(ch) {
        SamePointer(job, ch, k - 1);
        SamePointer(job, ch, k);
      }
    }
  }

  lemma SameTarget(job: Job, k: nat)
    requires job.Valid() && NoNullPointer(Effective(job)) && k < job.Words() && Effective(job).useD
    ensures Target(job, k) == Pointer(Effective(job), D, k)
  {
    LiveIsUsed(job, D, k);
    SamePointer(job, D, k);
  }

  lemma SameFetch(job: Job, s: Serial, k: nat)
    requires job.Valid() && NoNullPointer(Effective(job)) && k < job.Words()
    ensures var e := Effective(job); FadingFetch(job, s, k) == Fetch(e, e.useA, e.useB, e.useC, s.regs, s.memory, k)
  {
    hide Pointer, Live, Get, Low, Shifter, NoNullPointer;
    forall ch: Channel ensures Live(job, ch, k) <==> Effective(job).Uses(ch) {
      LiveIsUsed(job, ch, k);
    }
    forall ch: Channel | Effective(job).Uses(ch) ensures Pointer(Effective(job), ch, k) == Pointer(job, ch, k) {
      SamePointer(job, ch, k);
    }
    assert Live(job, A, k) <==> Effective(job).useA;
    assert Live(job, B, k) <==> Effective(job).useB;
    assert Live(job, C, k) <==> Effective(job).useC;
  }

  lemma SameStore(job: Job, s: Serial, k: nat)
    requires job.Valid() && NoNullPointer(Effective(job)) && k <= job.Words()
    ensures FadingStore(job, s, k) == Store(Effective(job), s, k)
  {
    hide Pointer, Put, Target, NoNullPointer;
    if k > 0 {
      LiveIsUsed(job, D, 0);
      if Effective(job).useD {
        SameTarget(job, k - 1);
      }
    }
  }

  lemma SameStep(job: Job, s: Serial, k: nat)
    requires job.Valid() && NoNullPointer(Effective(job)) && k < job.Words()
    ensures FadingStep(job, s, k) == WordStep(Effective(job), true, s, k)
  {
    hide FadingFetch, Fetch, FadingStore, Store, MaskA, Minterm, Low, Shifter, FillWord, NoNullPointer;
    SameFetch(job, s, k);
    SameStore(job, s, k);
    MasksAgree(job, k % job.h, FadingFetch(job, s, k).adat);
  }

  lemma MasksAgree(job: Job, column: int, data: Word)
    ensures MaskA(Effective(job), column, data) == MaskA(job, column, data)
  {
  }

  lemma {:induction false} NothingFades(job: Job, s: Serial, k: nat)
    requires job.Valid() && NoNullPointer(Effective(job)) && k <= job.Words()
    ensures Fading(job, s, k) == Serially(Effective(job), true, s, k)
  {
    hide FadingStep, WordStep, NoNullPointer;
    if k > 0 {
      NothingFades(job, s, k - 1);
      SameStep(job, Fading(job, s, k - 1), k - 1);
    }
  }

  /** If no pointer becomes zero on the way, the machine is the word-serial one, with the
      channels off that start at zero. */
  lemma FadingIsEffective(job: Job, s: Serial)
    requires job.Valid() && NoNullPointer(Effective(job))
    ensures FadingBlit(job, s).memory == Blit(Effective(job), true, s).memory
    ensures FadingBlit(job, s).zero == Blit(Effective(job), true, s).zero
  {
    hide NoNullPointer, Serially, Fading, FadingStore, Store, Pointer;
    NothingFades(job, s, job.Words());
    SameStore(job, Fading(job, s, job.Words()), job.Words());
  }

  lemma StartsNotNull(job: Job, ch: Channel)
    requires NoNullPointer(job) && job.Uses(ch)
    ensures job.Start(ch) != 0
  {
    assert 0 < job.h * job.v;
    assert Pointer(job, ch, 0) != 0;
  }

  lemma NoneNullNoneOff(job: Job)
    requires NoNullPointer(job)
    ensures Effective(job) == job && job.Valid()
  {
    forall ch: Channel | job.Uses(ch) ensures job.Start(ch) != 0 {
      StartsNotNull(job, ch);
    }
    assert job.Uses(A) <==> job.useA;
    assert job.Uses(B) <==> job.useB;
    assert job.Uses(C) <==> job.useC;
    assert job.Uses(D) <==> job.useD;
  }

  /** If no pointer is ever zero, it is the word-serial machine. */
  lemma NoneFade(job: Job, s: Serial)
    requires NoNullPointer(job)
    ensures FadingBlit(job, s) == Blit(job, true, s)
  {
    hide NoNullPointer, Serially, Fading, FadingStore, Store, Pointer;
    NoneNullNoneOff(job);
    FadingIsEffective(job, s);
  }
}
