/** The picture a line leaves in memory, bit by bit. */
module LineMemory {
  import opened ChipMemory
  import opened Bits
  import opened DataPath
  import opened CycleEngine
  import opened LogicUnit
  import opened LineSpec
  import opened LineProof

  // ----- Words as pixels -----

  /** The bit number of the pixel d places from the left edge of a word. */
  function NumberAt(d: int): (n: bv32)
    ensures n < 16
  {
    match d
    case 0 => 15
    case 1 => 14
    case 2 => 13
    case 3 => 12
    case 4 => 11
    case 5 => 10
    case 6 => 9
    case 7 => 8
    case 8 => 7
    case 9 => 6
    case 10 => 5
    case 11 => 4
    case 12 => 3
    case 13 => 2
    case 14 => 1
    case _ => 0
  }

  predicate Pixel(w: Word, d: int) {
    WordBit(w, NumberAt(d))
  }

  /** What the pen does to a pixel. */
  lemma PenOnPixel(c: Word, m: Word, d: int)
    ensures Pixel(Marked(c, m), d) == (Pixel(c, d) || Pixel(m, d))
    ensures Pixel(Inverted(c, m), d) == (Pixel(c, d) != Pixel(m, d))
    ensures Pixel(Cleared(c, m), d) == (Pixel(c, d) && !Pixel(m, d))
  {
    hide WordBit, NumberAt, Marked, Inverted, Cleared;
    BitsOfPen(c, m, NumberAt(d));
  }

  lemma PenPixel(p: Pen, d: int)
    requires 0 <= p.shift < 16 && 0 <= d < 16
    ensures Pixel(PenBit(p), d) == (d == p.shift)
  {
  }

  lemma RotatedBit(w: Word, i: bv32)
    requires i < 16
    ensures WordBit(Rotate(w), i) == WordBit(w, if i == 0 then 15 else i - 1)
  {
  }

  lemma NumberToTheRight(d: int)
    requires 0 <= d < 15
    ensures NumberAt(d) != 0 && NumberAt(d + 1) == NumberAt(d) - 1
  {
  }

  lemma NumbersAtEnds()
    ensures NumberAt(0) == 15 && NumberAt(15) == 0
  {
  }

  /** A turn of the texture moves its pixels one place to the left. */
  lemma RotatedPixel(w: Word, d: int)
    requires 0 <= d < 16
    ensures Pixel(Rotate(w), d) == Pixel(w, (d + 1) % 16)
  {
    hide WordBit, NumberAt, Rotate;
    RotatedBit(w, NumberAt(d));
    if d < 15 {
      NumberToTheRight(d);
    } else {
      NumbersAtEnds();
    }
  }

  /** The texture is tested at its right end. */
  lemma TextureOn(texture: Word)
    ensures TextureBit(texture) != 0 <==> Pixel(texture, 15)
  {
  }

  // ----- The texture -----

  lemma StepTurnsTexture(job: LineJob, l: Line)
    requires Valid(job, l)
    ensures Step(job, l).texture == Rotate(l.texture)
  {
    hide Logic, PixelA, TextureBit, Rotate, Widen, Get, Put, NegativeWord, Minor, Major;
  }

  lemma {:induction false} TextureAfter(job: LineJob, l: Line, k: nat, d: int)
    requires Valid(job, l) && 0 <= d < 16
    ensures Pixel(Steps(job, l, k).texture, d) == Pixel(l.texture, (d + k) % 16)
  {
    hide Step, Pixel, Rotate;
    if k > 0 {
      StepTurnsTexture(job, Steps(job, l, k - 1));
      RotatedPixel(Steps(job, l, k - 1).texture, d);
      TextureAfter(job, l, k - 1, (d + 1) % 16);
    }
  }

  /** Whether the texture is set for step k: it is read from its right end on, then from
      its left end to the right, again and again. */
  predicate On(l: Line, k: nat) {
    Pixel(l.texture, (15 + k) % 16)
  }

  lemma TextureOfStep(job: LineJob, l: Line, k: nat)
    requires Valid(job, l)
    ensures TextureBit(Steps(job, l, k).texture) != 0 <==> On(l, k)
  {
    hide Steps, Pixel, TextureBit;
    TextureOn(Steps(job, l, k).texture);
    TextureAfter(job, l, k, 15);
  }

  // ----- One step -----

  /** Whether step k draws: in one-dot mode only the first and those on a new row. */
  predicate Dots(job: LineJob, l: Line, k: nat)
    requires Valid(job, l)
  {
    !job.single || if k == 0 then l.pen.onedot == 0 else LeavesRow(job, Steps(job, l, k - 1))
  }

  lemma {:induction false} DotsByCounter(job: LineJob, l: Line, k: nat)
    requires Valid(job, l)
    ensures Dots(job, l, k) <==> !job.single || Steps(job, l, k).pen.onedot == 0
  {
    hide Step, LeavesRow;
    if k > 0 {
      StepCountsDots(job, Steps(job, l, k - 1));
    }
  }

  /** Where a step stores: the first at the D pointer, all others at the C pointer, which is
      then under the pen. */
  function Aim(p: Pen): int {
    if p.started then p.cpt else p.dpt
  }

  /** A step stores one word, or none, and leaves all others alone. */
  lemma StepStores(job: LineJob, l: Line)
    requires Valid(job, l)
    ensures Step(job, l).pen.started
    ensures Step(job, l).memory
         == if job.useC && (!job.single || l.pen.onedot == 0)
            then Put(l.memory, job.span, Aim(l.pen), Draw(job, ReadC(job, l)).ddat) else l.memory
    ensures Step(job, l).zero
         == (l.zero && ((!job.single || l.pen.onedot == 0) ==> Draw(job, ReadC(job, l)).ddat == 0))
  {
    hide Logic, PixelA, TextureBit, Rotate, Widen, Get, Put, NegativeWord, Wrap, Minor, Major;
    var l1 := ReadC(job, l);
    var pen := l1.pen.(dpt := Aim(l1.pen), started := true);
    var drawn := Draw(job, l1.(pen := pen));
    MovesKeepAim(job, drawn.pen);
    MovesKeepAim(job, Minor(job, drawn.pen));
    hide Draw;
  }

  lemma MovesKeepAim(job: LineJob, p: Pen)
    ensures Minor(job, p).dpt == p.dpt && Major(job, p).dpt == p.dpt
    ensures Minor(job, p).pixel == p.pixel && Major(job, p).pixel == p.pixel
    ensures Minor(job, p).started == p.started && Major(job, p).started == p.started
  {
    hide Wrap;
  }

  /** A line in usual use: one-bit pen, set or invert, drawn through even addresses, with
      both pointers at its first word. */
  ghost predicate Usual(job: LineJob, l: Line) {
    && Valid(job, l) && job.useC && job.blinea == 0x8000 && job.afwm == 0xFFFF && job.minterm in {0xCA, 0x4A}
    && Aim(l.pen) == l.pen.cpt && Even(l.pen.cpt) && job.cmod % 2 == 0
  }

  predicate Even(address: int) {
    0 <= address < ADDRESS_SPACE && address % 2 == 0
  }

  /** What a drawn pixel becomes: cleared where the texture is not set, else set or, in the
      other minterm, inverted. */
  predicate Inked(job: LineJob, on: bool, before: bool) {
    on && (job.minterm == 0xCA || !before)
  }

  lemma DrawnPixel(job: LineJob, l: Line, d: int)
    requires Usual(job, l) && 0 <= d < 16
    ensures Pixel(Draw(job, l).ddat, d)
         == if d == l.pen.shift then Inked(job, TextureBit(l.texture) != 0, Pixel(l.cdat, d)) else Pixel(l.cdat, d)
  {
    hide Draw, Pixel, TextureBit, PenBit, Marked, Inverted, Cleared;
    PenChangesOneBit(job, l);
    PenOnPixel(l.cdat, PenBit(l.pen), d);
    PenPixel(l.pen, d);
  }

  /** A step changes the pixel under the pen and no other. */
  lemma StepPaints(job: LineJob, l: Line, p: nat, d: int)
    requires Usual(job, l) && p < |l.memory| && 0 <= d < 16
    ensures |Step(job, l).memory| == |l.memory|
    ensures Pixel(Step(job, l).memory[p], d) ==
      var before := Pixel(l.memory[p], d);
      if (!job.single || l.pen.onedot == 0) && WordIndex(job.span, l.pen.cpt) == p && d == l.pen.shift
      then Inked(job, TextureBit(l.texture) != 0, before) else before
  {
    hide Step, Draw, Pixel, TextureBit, WordIndex;
    StepStores(job, l);
    DrawnPixel(job, ReadC(job, l), d);
  }

  lemma EvenMoves(p: int, q: int)
    requires Even(p) && q % 2 == 0
    ensures Even(Wrap(p + q)) && Even(Wrap(p - q))
  {
  }

  lemma PenStaysEven(job: LineJob, p: Pen)
    requires Even(p.cpt) && job.cmod % 2 == 0
    ensures Even(Minor(job, p).cpt) && Even(Major(job, p).cpt)
  {
    hide Even, Wrap;
    EvenMoves(p.cpt, 2);
    EvenMoves(p.cpt, job.cmod);
  }

  lemma StepStaysEven(job: LineJob, l: Line)
    requires Valid(job, l) && Even(l.pen.cpt) && job.cmod % 2 == 0
    ensures Even(Step(job, l).pen.cpt)
  {
    hide Logic, PixelA, TextureBit, Rotate, Widen, Get, Put, NegativeWord, Wrap, Minor, Major, Even;
    var p := l.pen.(pixel := !job.single || l.pen.onedot == 0, onedot := l.pen.onedot + 1,
                    dpt := Aim(l.pen), started := true);
    PenStaysEven(job, p);
    PenStaysEven(job, if l.sign then p else Minor(job, p));
  }

  lemma {:induction false} StaysUsual(job: LineJob, l: Line, k: nat)
    requires Usual(job, l)
    ensures Usual(job, Steps(job, l, k))
  {
    hide Step, Even;
    if k > 0 {
      StaysUsual(job, l, k - 1);
      StepStores(job, Steps(job, l, k - 1));
      StepStaysEven(job, Steps(job, l, k - 1));
    }
  }

  // ----- The picture -----

  /** The pixel address of step k: from the start k always steps and the sometimes steps. */
  function Track(job: LineJob, l: Line, k: nat): int
    requires Valid(job, l)
  {
    Position(l.pen) + k * MajorMove(job) + MinorSteps(job, l, k) * MinorMove(job)
  }

  lemma PixelAddress(cpt: int, shift: int, x: int)
    requires Even(cpt) && 0 <= shift < 16 && Congruent(8 * cpt + shift, x)
    ensures Wrap(x / 16 * 2) == cpt && x % 16 == shift
  {
    var q := (8 * cpt + shift - x) / (8 * ADDRESS_SPACE);
    assert x == 16 * (cpt / 2 - q * (ADDRESS_SPACE / 2)) + shift;
    assert x / 16 == cpt / 2 - q * (ADDRESS_SPACE / 2);
    WrapShift(cpt, -q);
  }

  /** Step k draws the pixel d places from the left in word p of memory. */
  predicate Hits(job: LineJob, l: Line, k: nat, p: nat, d: int)
    requires Valid(job, l)
  {
    var x := Track(job, l, k);
    Dots(job, l, k) && WordIndex(job.span, Wrap(x / 16 * 2)) == p && x % 16 == d
  }

  /** A pixel of memory after n steps: what the last step that hit it made of it. */
  predicate Painted(job: LineJob, l: Line, n: nat, p: nat, d: int)
    requires Valid(job, l) && p < |l.memory|
  {
    if n == 0 then Pixel(l.memory[p], d)
    else
      var before := Painted(job, l, n - 1, p, d);
      if Hits(job, l, n - 1, p, d) then Inked(job, On(l, n - 1), before) else before
  }

  lemma HitsUnderPen(job: LineJob, l: Line, k: nat, p: nat, d: int)
    requires Usual(job, l)
    ensures var pen := Steps(job, l, k).pen;
      Hits(job, l, k, p, d) <==>
        (!job.single || pen.onedot == 0) && WordIndex(job.span, pen.cpt) == p && d == pen.shift
  {
    hide Steps, Dots, Track, WordIndex, Congruent;
    StaysUsual(job, l, k);
    DotsByCounter(job, l, k);
    TrackIsPosition(job, l, k);
    PixelAddress(Steps(job, l, k).pen.cpt, Steps(job, l, k).pen.shift, Track(job, l, k));
  }

  lemma TrackIsPosition(job: LineJob, l: Line, k: nat)
    requires Valid(job, l)
    ensures Congruent(Position(Steps(job, l, k).pen), Track(job, l, k))
  {
    hide Steps, Congruent, MinorMove, MajorMove, MinorSteps;
    PenPosition(job, l, k);
  }

  /** After any number of steps every pixel of memory is as the steps that hit it made it, at
      the places the always and sometimes steps give, and all others are unchanged. */
  lemma {:induction false} LineIsPainted(job: LineJob, l: Line, n: nat, p: nat, d: int)
    requires Usual(job, l) && p < |l.memory| && 0 <= d < 16
    ensures |Steps(job, l, n).memory| == |l.memory|
    ensures Pixel(Steps(job, l, n).memory[p], d) <==> Painted(job, l, n, p, d)
  {
    hide Step, Pixel, Hits, On, TextureBit, WordIndex;
    if n > 0 {
      LineIsPainted(job, l, n - 1, p, d);
      StaysUsual(job, l, n - 1);
      HitsUnderPen(job, l, n - 1, p, d);
      TextureOfStep(job, l, n - 1);
      StepPaints(job, Steps(job, l, n - 1), p, d);
    }
  }

  lemma WholeTexture(d: int)
    ensures Pixel(0xFFFF, d)
  {
    hide NumberAt;
    BitsOfWhole(NumberAt(d));
  }

  /** So a solid line sets exactly the pixels on its track. */
  lemma {:induction false} SolidLine(job: LineJob, l: Line, n: nat, p: nat, d: int)
    requires Usual(job, l) && job.minterm == 0xCA && l.texture == 0xFFFF && p < |l.memory| && 0 <= d < 16
    ensures Painted(job, l, n, p, d) <==>
      Pixel(l.memory[p], d) || exists k: nat :: k < n && Hits(job, l, k, p, d)
  {
    hide Pixel, Hits, Usual;
    if n > 0 {
      SolidLine(job, l, n - 1, p, d);
      WholeTexture((15 + (n - 1)) % 16);
    }
  }

  /** Both drawers leave that picture, the stepped one whatever the bus grants. */
  lemma DrawersPaint(job: LineJob, l: Line, e: LineEngine, grants: seq<Grant>, p: nat, d: int)
    requires LineBegun(job, l, e) && !LineRun(job, e, grants).clock.running
    requires Usual(job, l) && p < |l.memory| && 0 <= d < 16
    ensures LineRun(job, e, grants).line.memory == DrawLine(job, l, 2).memory
    ensures DrawLine(job, l, 2).pen.dpt == DrawLine(job, l, 2).pen.cpt
    ensures |DrawLine(job, l, 2).memory| == |l.memory|
    ensures Pixel(DrawLine(job, l, 2).memory[p], d) <==> Painted(job, l, l.left, p, d)
  {
    hide LineRun, Steps, Painted, Pixel, Usual;
    LineDrawersAgree(job, l, e, grants);
    LineIsPainted(job, l, l.left, p, d);
  }
}
