/** The specialised loops against the generic loop, whatever the pointers are. */
module SpecialProof {
  import opened ChipMemory
  import opened DataPath
  import opened LogicUnit
  import opened BlitSpec
  import opened FastLoop

  /** f in the specialised loop and g in the generic loop agree on all that the
      minterm looks at, and on the destination side. */
  ghost predicate Alike(mt: bv8, f: Fast, g: Fast) {
    && f.memory == g.memory && f.ptr.qd == g.ptr.qd
    && (ReadsA(mt) ==> f.inp.adat == g.inp.adat && f.inp.aold == g.inp.aold && f.ptr.qa == g.ptr.qa)
    && (ReadsB(mt) ==> f.inp.bold == g.inp.bold && f.inp.bhold == g.inp.bhold && f.ptr.qb == g.ptr.qb)
    && (ReadsC(mt) ==> f.inp.cdat == g.inp.cdat && f.ptr.qc == g.ptr.qc)
    && SameOut(f.out, g.out)
  }

  /** A word waits exactly if its address is not zero. */
  ghost predicate SameOut(o: Output, p: Output) {
    o == p.(fc := o.fc) && (p.pending <==> p.target != 0)
  }

  lemma SpecialMeans(job: Job)
    requires Special(job)
    ensures Dispatched(job.minterm) && !job.fill
  {
  }

  /** The destination word depends only on the sources the loop reads. */
  lemma SameLogic(mt: bv8, a: bv32, b: bv32, c: Word, a': bv32, b': bv32, c': Word)
    requires Dispatched(mt)
    requires (ReadsA(mt) ==> a == a') && (ReadsB(mt) ==> b == b') && (ReadsC(mt) ==> c == c')
    ensures Logic(mt, a, b, c) == Logic(mt, a', b', c')
  {
    hide Logic, Minterm, Low, Dispatched, ReadsA, ReadsB, ReadsC;
    LogicIsMinterm(mt, a, b, c);
    LogicIsMinterm(mt, a', b', c');
    UnreadSourcesDoNotMatter(mt, Low(a), Low(b), c, Low(a'), Low(b'), c');
  }

  lemma ReadsAlike(job: Job, f: Fast, g: Fast, i: int)
    requires job.span > 0 && Alike(job.minterm, f, g)
    ensures var (a, f1) := SpecialReads(job, f, i); var (a', g1) := GenericReads(job, g, i);
            Alike(job.minterm, f1, g1) && (ReadsA(job.minterm) ==> a == a')
  {
    hide ReadsA, ReadsB, ReadsC, Shifter, MaskA, Get, Bump, SameOut;
  }

  lemma EmitAlike(job: Job, f: Fast, g: Fast, d: Word)
    requires job.span > 0 && !job.fill && Alike(job.minterm, f, g)
    ensures Alike(job.minterm, Emit(job, true, f, d), Emit(job, false, g, d))
  {
    hide ReadsA, ReadsB, ReadsC, Put, Gather, Bump;
  }

  lemma ColumnAlike(job: Job, f: Fast, g: Fast, i: int)
    requires job.span > 0 && Special(job) && Alike(job.minterm, f, g)
    ensures Alike(job.minterm, Column(job, true, f, i), Column(job, false, g, i))
  {
    hide Special, Dispatched, ReadsA, ReadsB, ReadsC, SpecialReads, GenericReads, Emit, Logic, SameOut;
    SpecialMeans(job);
    ReadsAlike(job, f, g, i);
    var (a, f1) := SpecialReads(job, f, i);
    var (a', g1) := GenericReads(job, g, i);
    SameLogic(job.minterm, a, f1.inp.bhold, f1.inp.cdat, a', g1.inp.bhold, g1.inp.cdat);
    EmitAlike(job, f1, g1, Logic(job.minterm, a, f1.inp.bhold, f1.inp.cdat));
  }

  lemma StartAlike(mt: bv8, f: Fast, g: Fast, carry: bool)
    requires Alike(mt, f, g)
    ensures Alike(mt, f.(out := f.out.(fc := carry)), g.(out := g.out.(fc := carry)))
  {
    hide ReadsA, ReadsB, ReadsC;
  }

  lemma {:induction false} ColumnsAlike(job: Job, f: Fast, g: Fast, i: nat)
    requires job.span > 0 && Special(job) && Alike(job.minterm, f, g)
    ensures Alike(job.minterm, Columns(job, true, f, i), Columns(job, false, g, i))
  {
    hide Special, Alike, Column;
    if i == 0 {
      StartAlike(job.minterm, f, g, job.carryIn);
    } else {
      ColumnsAlike(job, f, g, i - 1);
      ColumnAlike(job, Columns(job, true, f, i - 1), Columns(job, false, g, i - 1), i - 1);
    }
  }

  lemma TurnAlike(job: Job, f: Fast, g: Fast)
    requires Alike(job.minterm, f, g)
    ensures Alike(job.minterm, EndRow(job, f), EndRow(job, g))
  {
    hide ReadsA, ReadsB, ReadsC, SameOut, Skip;
  }

  lemma {:induction false} RowsAlike(job: Job, f: Fast, g: Fast, j: nat)
    requires job.span > 0 && Special(job) && Alike(job.minterm, f, g)
    ensures Alike(job.minterm, Rows(job, true, f, j), Rows(job, false, g, j))
  {
    hide Special, Alike, Columns, EndRow;
    if j > 0 {
      RowsAlike(job, f, g, j - 1);
      ColumnsAlike(job, Rows(job, true, f, j - 1), Rows(job, false, g, j - 1), job.h);
      TurnAlike(job, Columns(job, true, Rows(job, true, f, j - 1), job.h),
        Columns(job, false, Rows(job, false, g, j - 1), job.h));
    }
  }

  lemma EnterAlike(job: Job, s: Serial, bdat: Word)
    ensures Alike(job.minterm, Enter(job, s, bdat), Enter(job, s, bdat))
  {
    hide ReadsA, ReadsB, ReadsC, Widen;
  }

  lemma StoreAlike(job: Job, f: Fast, g: Fast)
    requires job.span > 0 && Alike(job.minterm, f, g)
    ensures StoreLast(job, true, f) == StoreLast(job, false, g) && f.out.seen == g.out.seen
  {
    hide ReadsA, ReadsB, ReadsC, Put;
  }

  /** For every minterm in the dispatch tables and every blit that is not a fill, with
      any channels, in either direction, the specialised loop leaves the memory, the
      pointers and the zero flag of the generic loop. */
  lemma SpecialLoopIsGeneric(job: Job, s: Serial, bdat: Word)
    requires job.span > 0 && Special(job)
    ensures LoopBlit(job, true, s, bdat) == LoopBlit(job, false, s, bdat)
  {
    hide Special, Alike, Rows, Enter, StoreLast, FinalPointer;
    EnterAlike(job, s, bdat);
    RowsAlike(job, Enter(job, s, bdat), Enter(job, s, bdat), job.v);
    StoreAlike(job, Rows(job, true, Enter(job, s, bdat), job.v), Rows(job, false, Enter(job, s, bdat), job.v));
  }
}
