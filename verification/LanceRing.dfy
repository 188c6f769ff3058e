/** The receive descriptor ring of the network board: descriptors and buffers in board
    memory, and what a received frame leaves in them. */
module LanceRing {
  import opened Counting

  /** A memory cell; only its low eight bits are ever read. */
  type Cell = int

  const RAM_SIZE := 0x8000

  /** Ring base, number of descriptors, and whether the bus swaps bytes in words. */
  datatype Ring = Ring(base: nat, count: nat, swapped: bool)

  // ----- Descriptors -----

  predicate InRam(r: Ring, ram: seq<Cell>) {
    |ram| == RAM_SIZE && 0 < r.count && r.base + 8 * r.count <= RAM_SIZE
  }

  function Slot(r: Ring, k: nat): nat {
    r.base + 8 * k
  }

  function Word(high: Cell, low: Cell): (w: nat)
    ensures w < 0x10000
  {
    high % 0x100 * 0x100 + low % 0x100
  }

  predicate HasOwner(b: Cell) {
    b % 0x100 >= 0x80
  }

  predicate Owned(r: Ring, ram: seq<Cell>, k: nat)
    requires InRam(r, ram) && k < r.count
  {
    HasOwner(ram[Slot(r, k) + 2])
  }

  function Addr(r: Ring, ram: seq<Cell>, k: nat): nat
    requires InRam(r, ram) && k < r.count
  {
    Word(ram[Slot(r, k)] % 0x80, ram[Slot(r, k) + 1])
  }

  /** The buffer size is stored negated. */
  function Size(r: Ring, ram: seq<Cell>, k: nat): (n: nat)
    requires InRam(r, ram) && k < r.count
    ensures 1 <= n <= 0x10000
  {
    0x10000 - Word(ram[Slot(r, k) + 4], ram[Slot(r, k) + 5])
  }

  /** The bytes of memory the buffer occupies: whole words when bytes are swapped. */
  function Span(r: Ring, ram: seq<Cell>, k: nat): (n: nat)
    requires InRam(r, ram) && k < r.count
    ensures Size(r, ram, k) <= n
  {
    if r.swapped then (Size(r, ram, k) + 1) / 2 * 2 else Size(r, ram, k)
  }

  /** Offset i of a buffer as the bus sees it. */
  function Lane(r: Ring, i: nat): nat {
    if !r.swapped then i else if i % 2 == 0 then i + 1 else i - 1
  }

  /** Buffers lie in memory, off the ring, and apart. */
  predicate Layout(r: Ring, ram: seq<Cell>) {
    && InRam(r, ram)
    && (forall k :: 0 <= k < r.count ==> OffTheRing(r, Addr(r, ram, k), Span(r, ram, k)))
    && (forall k, m :: 0 <= k < r.count && 0 <= m < r.count && k != m ==>
          Apart(Addr(r, ram, k), Span(r, ram, k), Addr(r, ram, m), Span(r, ram, m)))
  }

  predicate OffTheRing(r: Ring, addr: nat, span: nat) {
    addr + span <= RAM_SIZE && (addr + span <= r.base || r.base + 8 * r.count <= addr)
  }

  predicate Apart(a: nat, m: nat, b: nat, n: nat) {
    a + m <= b || b + n <= a
  }

  // ----- What one descriptor and its buffer hold -----

  /** Cell with bit m set, m a power of two. */
  function WithBit(b: Cell, m: Cell): (r: Cell)
    requires m == 1 || m == 2 || m == 4 || m == 16
  {
    if b / m % 2 == 1 then b else b + m
  }

  /** The flag byte after a receive: ownership returned, start and end of packet marked. */
  function FinalFlags(b: Cell, first: bool, last: bool): Cell {
    var owned := b % 0x80;
    var started := if first then WithBit(owned, 2) else owned;
    if last then WithBit(started, 1) else started
  }

  predicate SlotHolds(r: Ring, was: seq<Cell>, now: seq<Cell>, k: nat, flags: Cell, high: Cell, low: Cell)
    requires InRam(r, was) && |now| == |was| && k < r.count
  {
    var s := Slot(r, k);
    && now[s..s + 2] == was[s..s + 2] && now[s + 2] == flags && now[s + 3..s + 6] == was[s + 3..s + 6]
    && now[s + 6] == high && now[s + 7] == low
  }

  predicate BufferHolds(r: Ring, was: seq<Cell>, now: seq<Cell>, k: nat, chunk: seq<Cell>)
    requires InRam(r, was) && |now| == |was| && k < r.count && Addr(r, was, k) + Span(r, was, k) <= RAM_SIZE
  {
    forall p :: Addr(r, was, k) <= p < Addr(r, was, k) + Span(r, was, k) ==>
      now[p] == var i := Lane(r, p - Addr(r, was, k)); if i < |chunk| then chunk[i] else was[p]
  }

  // ----- A frame over the ring -----

  /** The t-th descriptor from start. */
  function Index(r: Ring, start: nat, t: nat): (k: nat)
    requires 0 < r.count
    ensures k < r.count
  {
    (start + t) % r.count
  }

  /** Bytes the first t descriptors from start can take. */
  function Taken(r: Ring, ram: seq<Cell>, start: nat, t: nat): (n: nat)
    requires InRam(r, ram)
    ensures t <= n
  {
    if t == 0 then 0 else Taken(r, ram, start, t - 1) + Size(r, ram, Index(r, start, t - 1))
  }

  function Min(a: nat, b: nat): nat {
    if a < b then a else b
  }

  /** The part of the frame that goes into the t-th buffer. */
  function Chunk(r: Ring, ram: seq<Cell>, start: nat, t: nat, data: seq<Cell>): (c: seq<Cell>)
    requires InRam(r, ram)
    ensures |c| <= Size(r, ram, Index(r, start, t))
  {
    data[Min(Taken(r, ram, start, t), |data|)..Min(Taken(r, ram, start, t + 1), |data|)]
  }

  /** The t-th descriptor has been used for the frame. */
  predicate Used(r: Ring, was: seq<Cell>, now: seq<Cell>, start: nat, t: nat, data: seq<Cell>)
    requires Layout(r, was) && |now| == |was| && |data| < 0x10000
  {
    var k := Index(r, start, t);
    var last := Taken(r, was, start, t + 1) >= |data|;
    var flags := FinalFlags(was[Slot(r, k) + 2], t == 0, last);
    && BufferHolds(r, was, now, k, Chunk(r, was, start, t, data))
    && if last then SlotHolds(r, was, now, k, flags, |data| / 0x100, |data| % 0x100)
       else SlotHolds(r, was, now, k, flags, was[Slot(r, k) + 6], was[Slot(r, k) + 7])
  }

  predicate Untouched(r: Ring, was: seq<Cell>, now: seq<Cell>, k: nat)
    requires Layout(r, was) && |now| == |was| && k < r.count
  {
    && now[Slot(r, k)..Slot(r, k) + 8] == was[Slot(r, k)..Slot(r, k) + 8]
    && BufferHolds(r, was, now, k, [])
  }

  /** Neither a descriptor nor a buffer. */
  predicate Elsewhere(r: Ring, ram: seq<Cell>, p: int)
    requires InRam(r, ram)
  {
    && !(r.base <= p < r.base + 8 * r.count)
    && forall k :: 0 <= k < r.count ==> !(Addr(r, ram, k) <= p < Addr(r, ram, k) + Span(r, ram, k))
  }

  /** The first j descriptors from start have been used, nothing else has changed. */
  predicate Progress(r: Ring, was: seq<Cell>, now: seq<Cell>, start: nat, j: nat, data: seq<Cell>)
    requires Layout(r, was) && |data| < 0x10000
  {
    && |now| == |was| && j <= r.count
    && (forall t :: 0 <= t < j ==> Used(r, was, now, start, t, data))
    && (forall t :: j <= t < r.count ==> Untouched(r, was, now, Index(r, start, t)))
    && (forall p :: 0 <= p < |was| && Elsewhere(r, was, p) ==> now[p] == was[p])
  }

  // ----- Using one more descriptor -----

  predicate InCell(r: Ring, was: seq<Cell>, k: nat, p: int)
    requires InRam(r, was) && k < r.count
  {
    || Slot(r, k) <= p < Slot(r, k) + 8
    || Addr(r, was, k) <= p < Addr(r, was, k) + Span(r, was, k)
  }

  /** Nothing differs outside descriptor k and its buffer. */
  predicate OnlyCell(r: Ring, was: seq<Cell>, before: seq<Cell>, after: seq<Cell>, k: nat)
    requires Layout(r, was) && k < r.count
  {
    && |before| == |after| == |was|
    && forall p :: 0 <= p < |was| && !InCell(r, was, k, p) ==> after[p] == before[p]
  }

  lemma IndexesApart(r: Ring, start: nat, t: nat, u: nat)
    requires t < u < t + r.count
    ensures Index(r, start, t) != Index(r, start, u)
  {
    var n := r.count;
    var a, b := start + t, start + u;
    assert a == n * (a / n) + a % n && b == n * (b / n) + b % n;
    if a % n == b % n {
      assert u - t == (b / n - a / n) * n;
      SmallMultipleIsZero(b / n - a / n, n);
    }
  }

  lemma CellKept(r: Ring, was: seq<Cell>, before: seq<Cell>, after: seq<Cell>, k: nat, m: nat)
    requires Layout(r, was) && k < r.count && m < r.count && k != m && OnlyCell(r, was, before, after, k)
    ensures after[Slot(r, m)..Slot(r, m) + 8] == before[Slot(r, m)..Slot(r, m) + 8]
    ensures forall p :: InCell(r, was, m, p) ==> p < |was| && after[p] == before[p]
  {
    assert OffTheRing(r, Addr(r, was, k), Span(r, was, k)) && OffTheRing(r, Addr(r, was, m), Span(r, was, m));
    assert Apart(Addr(r, was, k), Span(r, was, k), Addr(r, was, m), Span(r, was, m));
    hide Addr, Span;
  }

  lemma PartsOfSlot(ram: seq<Cell>, s: nat)
    requires s + 8 <= |ram|
    ensures var slot := ram[s..s + 8];
      && ram[s..s + 2] == slot[..2] && ram[s + 3..s + 6] == slot[3..6]
      && ram[s + 2] == slot[2] && ram[s + 6] == slot[6] && ram[s + 7] == slot[7]
  {
    var slot := ram[s..s + 8];
    forall i | 0 <= i < 3 ensures ram[s + 3..s + 6][i] == slot[3..6][i] {
    }
    forall i | 0 <= i < 2 ensures ram[s..s + 2][i] == slot[..2][i] {
    }
  }

  lemma UsedKept(r: Ring, was: seq<Cell>, before: seq<Cell>, after: seq<Cell>, start: nat, k: nat, t: nat,
                 data: seq<Cell>)
    requires Layout(r, was) && |before| == |was| && |data| < 0x10000 && k < r.count && Index(r, start, t) != k
    requires OnlyCell(r, was, before, after, k) && Used(r, was, before, start, t, data)
    ensures Used(r, was, after, start, t, data)
  {
    hide Addr, Span, Size, Chunk, FinalFlags, Lane;
    var m := Index(r, start, t);
    CellKept(r, was, before, after, k, m);
    var s := Slot(r, m);
    PartsOfSlot(after, s);
    PartsOfSlot(before, s);
  }

  lemma UntouchedKept(r: Ring, was: seq<Cell>, before: seq<Cell>, after: seq<Cell>, k: nat, m: nat)
    requires Layout(r, was) && |before| == |was| && k < r.count && m < r.count && m != k
    requires OnlyCell(r, was, before, after, k) && Untouched(r, was, before, m)
    ensures Untouched(r, was, after, m)
  {
    CellKept(r, was, before, after, k, m);
    hide Addr, Span, Size, Lane;
  }

  lemma UsedSoFar(r: Ring, was: seq<Cell>, before: seq<Cell>, after: seq<Cell>, start: nat, j: nat, data: seq<Cell>)
    requires Layout(r, was) && |before| == |was| && |data| < 0x10000 && j < r.count
    requires forall t :: 0 <= t < j ==> Used(r, was, before, start, t, data)
    requires OnlyCell(r, was, before, after, Index(r, start, j)) && Used(r, was, after, start, j, data)
    ensures forall t :: 0 <= t < j + 1 ==> Used(r, was, after, start, t, data)
  {
    assert InRam(r, was) && |after| == |was|;
    hide Used, Layout, Index, OnlyCell;
    forall t | 0 <= t < j + 1 ensures Used(r, was, after, start, t, data) {
      if t < j {
        IndexesApart(r, start, t, j);
        UsedKept(r, was, before, after, start, Index(r, start, j), t, data);
      }
    }
  }

  lemma UntouchedAfter(r: Ring, was: seq<Cell>, before: seq<Cell>, after: seq<Cell>, start: nat, j: nat)
    requires Layout(r, was) && |before| == |was| && j < r.count
    requires forall t :: j <= t < r.count ==> Untouched(r, was, before, Index(r, start, t))
    requires OnlyCell(r, was, before, after, Index(r, start, j))
    ensures forall t :: j + 1 <= t < r.count ==> Untouched(r, was, after, Index(r, start, t))
  {
    assert InRam(r, was) && |after| == |was|;
    hide Untouched, Layout, Index, OnlyCell;
    forall t | j + 1 <= t < r.count ensures Untouched(r, was, after, Index(r, start, t)) {
      IndexesApart(r, start, j, t);
      UntouchedKept(r, was, before, after, Index(r, start, j), Index(r, start, t));
    }
  }

  /** Using descriptor j next to those used keeps Progress. */
  lemma OneMoreDescriptor(r: Ring, was: seq<Cell>, before: seq<Cell>, after: seq<Cell>, start: nat, j: nat,
                          data: seq<Cell>)
    requires Layout(r, was) && |data| < 0x10000 && j < r.count && Progress(r, was, before, start, j, data)
    requires OnlyCell(r, was, before, after, Index(r, start, j)) && Used(r, was, after, start, j, data)
    ensures Progress(r, was, after, start, j + 1, data)
  {
    UsedSoFar(r, was, before, after, start, j, data);
    UntouchedAfter(r, was, before, after, start, j);
    hide Used, Untouched, Index, Addr, Span;
  }

  // ----- Reading and filling -----

  lemma SlotBytes(r: Ring, was: seq<Cell>, now: seq<Cell>, k: nat)
    requires InRam(r, was) && |now| == |was| && k < r.count
    requires now[Slot(r, k)..Slot(r, k) + 8] == was[Slot(r, k)..Slot(r, k) + 8]
    ensures forall p :: Slot(r, k) <= p < Slot(r, k) + 8 ==> now[p] == was[p]
  {
    var s := Slot(r, k);
    forall p | s <= p < s + 8 ensures now[p] == was[p] {
      assert now[p] == now[s..s + 8][p - s] && was[p] == was[s..s + 8][p - s];
    }
  }

  /** One more byte of the frame in the buffer. */
  lemma BufferGrows(r: Ring, was: seq<Cell>, before: seq<Cell>, k: nat, chunk: seq<Cell>, b: Cell)
    requires Layout(r, was) && |before| == |was| && k < r.count && |chunk| < Size(r, was, k)
    requires BufferHolds(r, was, before, k, chunk)
    ensures Lane(r, |chunk|) < Span(r, was, k)
    ensures var p := Addr(r, was, k) + Lane(r, |chunk|);
            p < |before| && BufferHolds(r, was, before[p := b], k, chunk + [b])
  {
    assert OffTheRing(r, Addr(r, was, k), Span(r, was, k));
    var addr, end := Addr(r, was, k), Addr(r, was, k) + Span(r, was, k);
    assert Lane(r, |chunk|) < Span(r, was, k);
    hide Addr, Span;
    var at := addr + Lane(r, |chunk|);
    forall p | addr <= p < end
      ensures before[at := b][p] == var i := Lane(r, p - addr); if i < |chunk + [b]| then (chunk + [b])[i] else was[p]
    {
      LaneOnce(r, p - addr, |chunk|);
    }
  }

  lemma LaneOnce(r: Ring, i: nat, j: nat)
    ensures Lane(r, i) == j <==> i == Lane(r, j)
  {
  }


  // ----- Descriptors as drivers write them -----

  lemma HalvesOfWord(n: nat)
    requires n < 0x10000
    ensures Word(n / 0x100, n % 0x100) == n && n / 0x100 < 0x100
    ensures n < RAM_SIZE ==> n / 0x100 % 0x80 == n / 0x100
  {
    var h, l := n / 0x100, n % 0x100;
    assert n == 0x100 * h + l;
    QuotientIsUnique(h, 0x100, 0, h);
    QuotientIsUnique(l, 0x100, 0, l);
    if n < RAM_SIZE {
      QuotientIsUnique(h, 0x80, 0, h);
    }
  }

  /** A driver writes the address into the first word and the size, negated, into the third;
      the board reads both back. */
  lemma DescriptorReadsBack(r: Ring, ram: seq<Cell>, k: nat, address: nat, size: nat)
    requires InRam(r, ram) && k < r.count && address < RAM_SIZE && 1 <= size <= 0x10000
    requires ram[Slot(r, k)] == address / 0x100 && ram[Slot(r, k) + 1] == address % 0x100
    requires ram[Slot(r, k) + 4] == (0x10000 - size) / 0x100 && ram[Slot(r, k) + 5] == (0x10000 - size) % 0x100
    ensures Addr(r, ram, k) == address && Size(r, ram, k) == size
  {
    hide Word;
    HalvesOfWord(address);
    HalvesOfWord(0x10000 - size);
  }

  predicate Flag(b: Cell, m: Cell)
    requires m > 0
  {
    b / m % 2 == 1
  }

  lemma LowerFlag(b: Cell, m: Cell, n: Cell)
    requires m > 0 && n > 0 && m * (2 * n) == 0x80
    ensures Flag(b % 0x80, m) == Flag(b, m)
  {
    var q, r := b / 0x80, b % 0x80;
    assert b == m * (2 * n * q + r / m) + r % m by {
      assert m * (2 * n * q) == 0x80 * q;
    }
    QuotientIsUnique(b, m, 2 * n * q + r / m, r % m);
    EvenAdded(n * q, r / m);
    assert 2 * n * q == 2 * (n * q);
  }

  lemma EvenAdded(k: int, x: int)
    ensures (2 * k + x) % 2 == x % 2
  {
  }

  lemma LowerFlags(b: Cell)
    ensures SameHighFlags(b, b % 0x80) && Flag(b % 0x80, 1) == Flag(b, 1) && Flag(b % 0x80, 2) == Flag(b, 2)
    ensures !HasOwner(b % 0x80)
  {
    hide Flag;
    LowerFlag(b, 1, 0x40);
    LowerFlag(b, 2, 0x20);
    LowerFlag(b, 4, 0x10);
    LowerFlag(b, 8, 8);
    LowerFlag(b, 0x10, 4);
    LowerFlag(b, 0x20, 2);
    LowerFlag(b, 0x40, 1);
  }

  /** The flags that a frame does not touch. */
  predicate SameHighFlags(b: Cell, f: Cell) {
    && Flag(f, 4) == Flag(b, 4) && Flag(f, 8) == Flag(b, 8) && Flag(f, 0x10) == Flag(b, 0x10)
    && Flag(f, 0x20) == Flag(b, 0x20) && Flag(f, 0x40) == Flag(b, 0x40)
  }

  lemma HigherFlags(b: Cell, f: Cell)
    requires b / 4 == f / 4
    ensures SameHighFlags(b, f)
  {
    assert b / 8 == b / 4 / 2 && f / 8 == f / 4 / 2;
    assert b / 0x10 == b / 4 / 4 && f / 0x10 == f / 4 / 4;
    assert b / 0x20 == b / 4 / 8 && f / 0x20 == f / 4 / 8;
    assert b / 0x40 == b / 4 / 0x10 && f / 0x40 == f / 4 / 0x10;
  }

  lemma StartOrEndSet(b: Cell, m: Cell)
    requires 0 <= b < 0x80 && (m == 1 || m == 2)
    ensures var f := WithBit(b, m);
      && 0 <= f < 0x80 && f / 4 == b / 4
      && Flag(f, 1) == (Flag(b, 1) || m == 1) && Flag(f, 2) == (Flag(b, 2) || m == 2)
  {
    var q, high, low := b / 4, b / 2 % 2, b % 2;
    assert b == 4 * q + 2 * high + low && b / 2 == 2 * q + high;
    LowTwo(q, high, low);
    LowTwo(q, 1, low);
    LowTwo(q, high, 1);
  }

  lemma LowTwo(q: int, high: int, low: int)
    requires 0 <= high < 2 && 0 <= low < 2
    ensures var n := 4 * q + 2 * high + low;
            n / 4 == q && n / 2 == 2 * q + high && n / 2 % 2 == high && n / 1 % 2 == low
  {
  }

  /** A used descriptor is no longer the board's, marks the start and the end of the frame
      where they are, and keeps its other flags. */
  lemma FlagsOfUsed(b: Cell, first: bool, last: bool)
    ensures var f := FinalFlags(b, first, last);
      && !HasOwner(f) && Flag(f, 2) == (Flag(b, 2) || first) && Flag(f, 1) == (Flag(b, 1) || last)
      && SameHighFlags(b, f)
  {
    hide Flag, WithBit;
    LowerFlags(b);
    var owned := b % 0x80;
    StartOrEndSet(owned, 2);
    var started := if first then WithBit(owned, 2) else owned;
    StartOrEndSet(started, 1);
    HigherFlags(owned, FinalFlags(b, first, last));
  }

  /** Swapping lanes twice changes nothing, and bytes stay in their word. */
  lemma LanesPair(r: Ring, i: nat)
    ensures Lane(r, Lane(r, i)) == i && Lane(r, i) / 2 == i / 2
    ensures Lane(r, i) != i <==> r.swapped
  {
  }
}
