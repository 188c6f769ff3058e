/** The board's receive loop over its memory. */
module LanceReceiver {
  import opened Counting
  import ErrorDetection
  import FrameCheck
  import opened LanceRing

  /** The ring position of the receive offset. */
  function Position(r: Ring, offset: nat): (k: nat)
    requires 0 < r.count
    ensures k < r.count
  {
    offset % r.count
  }

  lemma PositionTwice(r: Ring, offset: nat)
    requires 0 < r.count
    ensures Position(r, Position(r, offset)) == Position(r, offset)
  {
  }

  class Lance {
    const ram: array<Cell>
    const ring: Ring
    var rdrOffset: nat
    var receiverOn: bool
    var missed: bool
    var received: bool

    constructor (ram: array<Cell>, ring: Ring)
      ensures this.ram == ram && this.ring == ring
    {
      this.ram, this.ring := ram, ring;
      rdrOffset, receiverOn, missed, received := 0, true, false, false;
    }

    /** Address and size of the buffer of descriptor k. */
    method ReadDescriptor(k: nat, ghost was: seq<Cell>) returns (addr: nat, size: nat)
      requires ram.Length == RAM_SIZE && Layout(ring, was) && k < ring.count
      requires ram[Slot(ring, k)..Slot(ring, k) + 8] == was[Slot(ring, k)..Slot(ring, k) + 8]
      ensures addr == Addr(ring, was, k) && size == Size(ring, was, k)
    {
      SlotBytes(ring, was, ram[..], k);
      var off := Slot(ring, k);
      addr := Word(ram[off] % 0x80, ram[off + 1]);
      size := 0x10000 - Word(ram[off + 4], ram[off + 5]);
    }

    /** The next part of the frame into buffer k, through the bus lanes. */
    method FillBuffer(k: nat, addr: nat, size: nat, ghost was: seq<Cell>, data: seq<Cell>, insize: nat)
        returns (end: nat)
      requires ram.Length == RAM_SIZE && InRam(ring, was) && Layout(ring, was) && k < ring.count && insize <= |data|
      requires addr == Addr(ring, was, k) && size == Size(ring, was, k) && BufferHolds(ring, was, ram[..], k, [])
      modifies ram
      ensures end == Min(insize + size, |data|)
      ensures BufferHolds(ring, was, ram[..], k, data[insize..end])
      ensures forall p :: 0 <= p < RAM_SIZE && !(addr <= p < addr + Span(ring, was, k)) ==> ram[p] == old(ram[p])
    {
      hide BufferHolds, Layout, Addr, Span, Size, Lane;
      BufferInPlace(ring, was, k);
      var i := 0;
      end := insize;
      assert data[insize..end] == [];
      while i < size && end < |data|
        invariant 0 <= i <= size && end == insize + i <= |data|
        invariant BufferHolds(ring, was, ram[..], k, data[insize..end])
        invariant forall p :: 0 <= p < RAM_SIZE && !(addr <= p < addr + Span(ring, was, k)) ==> ram[p] == old(ram[p])
      {
        ghost var before := ram[..];
        BufferGrows(ring, was, before, k, data[insize..end], data[end]);
        ram[addr + Lane(ring, i) % RAM_SIZE] := data[end];
        assert ram[..] == before[addr + Lane(ring, i) := data[end]];
        assert data[insize..end + 1] == data[insize..end] + [data[end]];
        i, end := i + 1, end + 1;
      }
    }

    /** Hands descriptor k back with its final flags, and the length if it is the last. */
    method ReturnDescriptor(k: nat, first: bool, last: bool, len: nat)
      requires ram.Length == RAM_SIZE && InRam(ring, ram[..]) && k < ring.count && len < 0x10000
      modifies ram
      ensures var s := Slot(ring, k);
        && ram[s + 2] == FinalFlags(old(ram[s + 2]), first, last)
        && (last ==> ram[s + 6] == len / 0x100 && ram[s + 7] == len % 0x100)
        && (!last ==> ram[s + 6] == old(ram[s + 6]) && ram[s + 7] == old(ram[s + 7]))
        && forall p :: 0 <= p < RAM_SIZE && p != s + 2 && p != s + 6 && p != s + 7 ==> ram[p] == old(ram[p])
    {
      var off := Slot(ring, k);
      var flags, high, low := ram[off + 2] % 0x80, ram[off + 6], ram[off + 7];
      if first {
        flags := WithBit(flags, 2);
      }
      if last {
        flags := WithBit(flags, 1);
        high, low := len / 0x100, len % 0x100;
      }
      ram[off + 2] := flags;
      ram[off + 6] := high;
      ram[off + 7] := low;
    }

    /** One descriptor of the loop: fills its buffer and returns it. */
    method UseDescriptor(k: nat, first: bool, data: seq<Cell>, insize: nat, ghost was: seq<Cell>, ghost start: nat,
                         ghost j: nat) returns (end: nat)
      requires ram.Length == RAM_SIZE && InRam(ring, was) && Layout(ring, was) && 0 < |data| < 0x10000
      requires j < ring.count && k == Index(ring, start, j) && first == (j == 0)
      requires Progress(ring, was, ram[..], start, j, data)
      requires insize == Taken(ring, was, start, j) < |data|
      modifies ram
      ensures end == Min(Taken(ring, was, start, j + 1), |data|)
      ensures Progress(ring, was, ram[..], start, j + 1, data)
    {
      hide Progress, Used, Layout, BufferHolds, Addr, Span, Size, FinalFlags;
      ghost var before := ram[..];
      UntouchedStill(ring, was, before, start, j, data);
      var addr, size := ReadDescriptor(k, was);
      end := FillBuffer(k, addr, size, was, data, insize);
      ghost var filled := ram[..];
      ReturnDescriptor(k, first, end >= |data|, |data|);
      CellUsed(ring, was, before, filled, ram[..], k, start, j, data, end);
      OneMoreDescriptor(ring, was, before, ram[..], start, j, data);
    }

    /** Stops at a descriptor the board does not own: the error goes into it and the
        receiver turns off, unless no descriptor was used. */
    method Stop(first: bool, data: seq<Cell>, ghost was: seq<Cell>, ghost start: nat, ghost used: nat)
      requires ram.Length == RAM_SIZE && InRam(ring, was) && Layout(ring, was) && 0 < |data| < 0x10000
      requires used <= ring.count
      requires rdrOffset == Index(ring, start, used) && first == (used == 0)
      requires Progress(ring, was, ram[..], start, used, data) && !HasOwner(ram[Slot(ring, rdrOffset) + 2])
      requires Taken(ring, was, start, used) < |data| && (used < ring.count ==> !Owned(ring, was, rdrOffset))
      modifies this`receiverOn, this`missed, ram
      ensures Abandoned(ring, was, ram[..], start, used, data)
      ensures receiverOn == (old(receiverOn) && used == 0) && missed == (old(missed) || used == 0)
    {
      hide Progress, Layout, Abandoned, Size, Index, Owned, Taken, WithBit;
      ghost var before := ram[..];
      AbandonedHere(ring, was, before, start, used, data);
      if !first {
        ram[Slot(ring, rdrOffset) + 2] := WithBit(WithBit(ram[Slot(ring, rdrOffset) + 2], 4), 16);
        receiverOn := false;
        ghost var flags := Slot(ring, rdrOffset) + 2;
        assert ram[..] == before[flags := WithBit(WithBit(before[flags], 4), 16)];
      } else {
        missed := true;
      }
    }

    /** The state of the receive loop: used descriptors hold the front of the frame. */
    ghost predicate Receiving(was: seq<Cell>, start: nat, used: nat, insize: nat, data: seq<Cell>)
      requires Layout(ring, was) && |data| < 0x10000
      reads this`rdrOffset, ram
    {
      && ram.Length == RAM_SIZE && used <= ring.count && Position(ring, rdrOffset) == Index(ring, start, used)
      && Reached(ring, was, start, used, data) && Progress(ring, was, ram[..], start, used, data)
      && insize == Min(Taken(ring, was, start, used), |data|)
    }

    lemma SoFar(was: seq<Cell>, start: nat, used: nat, insize: nat, data: seq<Cell>)
      requires Layout(ring, was) && |data| < 0x10000 && Receiving(was, start, used, insize, data)
      ensures Position(ring, rdrOffset) == Index(ring, start, used) && Reached(ring, was, start, used, data)
      ensures Progress(ring, was, ram[..], start, used, data) && insize == Min(Taken(ring, was, start, used), |data|)
    {
    }

    /** Uses the descriptor at hand and moves on. */
    method Step(data: seq<Cell>, insize: nat, first: bool, ghost was: seq<Cell>, ghost start: nat, ghost used: nat)
        returns (end: nat)
      requires InRam(ring, was) && Layout(ring, was) && 0 < |data| < 0x10000 && insize < |data| && first == (used == 0)
      requires Receiving(was, start, used, insize, data) && used < ring.count && rdrOffset == Index(ring, start, used)
      requires Owned(ring, was, Index(ring, start, used))
      modifies this`rdrOffset, ram
      ensures Receiving(was, start, used + 1, end, data)
    {
      hide Progress, Layout, Reached, Size, Index, Owned, Position;
      ReachedNext(ring, was, start, used, data);
      NextIndex(ring, start, used + 1, rdrOffset + 1);
      end := UseDescriptor(rdrOffset, first, data, insize, was, start, used);
      rdrOffset := rdrOffset + 1;
    }

    /** One turn of the receive loop. */
    method Turn(data: seq<Cell>, insize: nat, first: bool, ghost was: seq<Cell>, ghost start: nat, ghost used: nat)
        returns (ok: bool, end: nat)
      requires InRam(ring, was) && Layout(ring, was) && 0 < |data| < 0x10000 && insize < |data| && first == (used == 0)
      requires Receiving(was, start, used, insize, data)
      modifies this`rdrOffset, this`receiverOn, this`missed, ram
      ensures ok ==> used < ring.count && Receiving(was, start, used + 1, end, data)
                     && receiverOn == old(receiverOn) && missed == old(missed)
      ensures !ok ==> Abandoned(ring, was, ram[..], start, used, data)
                      && Position(ring, rdrOffset) == Position(ring, old(rdrOffset))
                      && receiverOn == (old(receiverOn) && used == 0) && missed == (old(missed) || used == 0)
    {
      hide Progress, Layout, Abandoned, Reached, Size, Index, Owned, Taken, WithBit, Position, HasOwner;
      PositionTwice(ring, rdrOffset);
      rdrOffset := Position(ring, rdrOffset);
      OwnershipNow(ring, was, ram[..], start, used, data);
      end := insize;
      ok := HasOwner(ram[Slot(ring, rdrOffset) + 2]);
      if ok {
        end := Step(data, insize, first, was, start, used);
      } else {
        Stop(first, data, was, start, used);
      }
    }

    /** The turns of the loop, until the frame is stored or a descriptor is not owned. */
    method Turns(data: seq<Cell>, ghost was: seq<Cell>, ghost start: nat) returns (ok: bool, ghost used: nat)
      requires InRam(ring, was) && Layout(ring, was) && 0 < |data| < 0x10000 && Receiving(was, start, 0, 0, data)
      modifies this`rdrOffset, this`receiverOn, this`missed, ram
      ensures Reached(ring, was, start, used, data) && Position(ring, rdrOffset) == Index(ring, start, used)
      ensures if ok then Delivered(ring, was, ram[..], start, used, data)
              else Abandoned(ring, was, ram[..], start, used, data)
      ensures receiverOn == (old(receiverOn) && (ok || used == 0))
      ensures missed == (old(missed) || (!ok && used == 0))
    {
      hide Progress, Layout, Abandoned, Delivered, Reached, Size, Index, Owned, Taken, WithBit, Position;
      var insize: nat, first := 0, true;
      ok, used := true, 0;
      while insize < |data|
        invariant Receiving(was, start, used, insize, data) && used <= ring.count && first == (used == 0)
        invariant ok && receiverOn == old(receiverOn) && missed == old(missed)
        decreases ring.count - used
      {
        SoFar(was, start, used, insize, data);
        ok, insize := Turn(data, insize, first, was, start, used);
        if !ok {
          return;
        }
        first, used := false, used + 1;
      }
      SoFar(was, start, used, insize, data);
      DeliveredHere(ring, was, ram[..], start, used, data);
    }

    /** The receive loop. It stores the frame over the descriptors it owns, in ring order;
        it stops early at the first it does not own. */
    method Receive(data: seq<Cell>) returns (ok: bool, ghost used: nat)
      requires ram.Length == RAM_SIZE && Layout(ring, ram[..]) && 0 < |data| < 0x10000
      modifies this`rdrOffset, this`receiverOn, this`missed, this`received, ram
      ensures Reached(ring, old(ram[..]), Position(ring, old(rdrOffset)), used, data)
      ensures Position(ring, rdrOffset) == Index(ring, Position(ring, old(rdrOffset)), used)
      ensures ok ==> Delivered(ring, old(ram[..]), ram[..], Position(ring, old(rdrOffset)), used, data)
      ensures ok ==> received && receiverOn == old(receiverOn) && missed == old(missed)
      ensures !ok ==> Abandoned(ring, old(ram[..]), ram[..], Position(ring, old(rdrOffset)), used, data)
      ensures !ok ==> received == old(received) && receiverOn == (old(receiverOn) && used == 0)
                      && missed == (old(missed) || used == 0)
    {
      ghost var was := ram[..];
      ghost var start := Position(ring, rdrOffset);
      NothingUsed(ring, was, start, data);
      PositionTwice(ring, rdrOffset);
      assert InRam(ring, was);
      hide Progress, Layout, Abandoned, Delivered, Reached, Size, Index, Owned, Taken, WithBit, Position;
      ok, used := Turns(data, was, start);
      if ok {
        received := true;
      }
    }

    /** The frame with its check behind it, high byte first, as the board computes it. */
    method AppendCheck(table: array<bv32>, frame: seq<Cell>) returns (sealed: seq<Cell>)
      requires table.Length == 256 && FrameCheck.IsTable(table[..])
      ensures sealed == Checked(frame)
    {
      hide FrameCheck.IsTable, FrameCheck.Check, CheckBytes;
      var crc := FrameCheck.GetCheck(table, Octets(frame));
      sealed := frame + CheckBytes(crc);
    }

    /** A frame from the wire: dropped by the filter without a trace, or received as its
        station addresses have been rewritten, with four check bytes over that unless the
        driver asked for them to be stripped. */
    method GotFrame(filter: Filter, frame: seq<Cell>, rewritten: seq<Cell>, table: array<bv32>)
        returns (ok: bool, ghost used: nat)
      requires ram.Length == RAM_SIZE && Layout(ring, ram[..]) && |frame| == |rewritten| < 0xFFF0
      requires table.Length == 256 && FrameCheck.IsTable(table[..])
      modifies this`rdrOffset, this`receiverOn, this`missed, this`received, ram
      ensures var accepted := old(receiverOn) && Accepts(filter, frame);
        && (!accepted ==> !ok && unchanged(this) && unchanged(ram))
        && (accepted && ok ==> Delivered(ring, old(ram[..]), ram[..], Position(ring, old(rdrOffset)), used,
                                         if filter.stripping then rewritten else Checked(rewritten)) && received)
        && (accepted && !ok ==> Abandoned(ring, old(ram[..]), ram[..], Position(ring, old(rdrOffset)), used,
                                          if filter.stripping then rewritten else Checked(rewritten))
                                && received == old(received))
    {
      hide Delivered, Abandoned, Layout, Reached, Position, Index, FrameCheck.IsTable, FrameCheck.Check;
      if !receiverOn || !Accepts(filter, frame) {
        return false, 0;
      }
      var data := rewritten;
      if !filter.stripping {
        data := AppendCheck(table, rewritten);
      }
      ok, used := Receive(data);
    }
  }

  /** The bytes in memory cells. */
  function Octets(s: seq<Cell>): (o: seq<bv8>)
    ensures |o| == |s|
  {
    seq(|s|, i requires 0 <= i < |s| => (s[i] % 0x100) as bv8)
  }

  /** A check value, high byte first. */
  function CheckBytes(crc: bv32): (c: seq<Cell>)
    ensures |c| == 4
  {
    var o := k requires 0 <= k < 4 => ErrorDetection.Octet(crc, k) as int;
    [o(3), o(2), o(1), o(0)]
  }

  /** A frame followed by its check. */
  function Checked(frame: seq<Cell>): (c: seq<Cell>)
    ensures |c| == |frame| + 4
  {
    frame + CheckBytes(FrameCheck.Check(Octets(frame)))
  }

  /** Station address, and which other destinations are let in. */
  datatype Filter = Filter(station: seq<Cell>, promiscuous: bool, multicast: bool, stripping: bool)

  const BROADCAST: seq<Cell> := [0xFF, 0xFF, 0xFF, 0xFF, 0xFF, 0xFF]

  predicate Accepts(filter: Filter, frame: seq<Cell>) {
    && 20 <= |frame|
    && var dst, src := frame[..6], frame[6..12];
       && (if dst[0] % 2 == 1 && dst != BROADCAST then filter.multicast
           else filter.promiscuous || dst == filter.station || dst == BROADCAST)
       && !(src == filter.station && (dst == filter.station || dst == BROADCAST))
  }

  /** Which frames get in: none under twenty bytes; those to the station or to everybody if
      somebody else sent them; those to a group if groups are let in; any others if the
      board listens to all. */
  lemma WhoGetsIn(filter: Filter, frame: seq<Cell>)
    requires |filter.station| == 6 && filter.station[0] % 2 == 0
    ensures |frame| < 20 ==> !Accepts(filter, frame)
    ensures 20 <= |frame| ==>
      var dst, others := frame[..6], frame[6..12] != filter.station;
      && (dst == filter.station ==> (Accepts(filter, frame) <==> others))
      && (dst == [0xFF, 0xFF, 0xFF, 0xFF, 0xFF, 0xFF] ==> (Accepts(filter, frame) <==> others))
      && (dst != [0xFF, 0xFF, 0xFF, 0xFF, 0xFF, 0xFF] && dst[0] % 2 == 1 ==>
            (Accepts(filter, frame) <==> filter.multicast))
      && (dst != filter.station && dst[0] % 2 == 0 ==> (Accepts(filter, frame) <==> filter.promiscuous))
  {
  }

  /** The frame has been offered to used descriptors, all owned, the last of which was
      still needed. */
  predicate Reached(r: Ring, was: seq<Cell>, start: nat, used: nat, data: seq<Cell>)
    requires InRam(r, was)
  {
    && used <= r.count && used <= |data|
    && (forall t :: 0 <= t < used ==> Owned(r, was, Index(r, start, t)))
    && (0 < used ==> Taken(r, was, start, used - 1) < |data|)
  }

  lemma ReachedNext(r: Ring, was: seq<Cell>, start: nat, used: nat, data: seq<Cell>)
    requires InRam(r, was) && Reached(r, was, start, used, data) && used < r.count
    requires Owned(r, was, Index(r, start, used)) && Taken(r, was, start, used) < |data|
    ensures Reached(r, was, start, used + 1, data)
  {
  }

  /** The whole frame is in the buffers of the descriptors used, and they are handed back. */
  predicate Delivered(r: Ring, was: seq<Cell>, now: seq<Cell>, start: nat, used: nat, data: seq<Cell>)
    requires Layout(r, was) && |data| < 0x10000
  {
    0 < used && |data| <= Taken(r, was, start, used) && Progress(r, was, now, start, used, data)
  }

  lemma DeliveredHere(r: Ring, was: seq<Cell>, now: seq<Cell>, start: nat, used: nat, data: seq<Cell>)
    requires Layout(r, was) && 0 < |data| < 0x10000
    requires Progress(r, was, now, start, used, data) && |data| <= Taken(r, was, start, used)
    ensures Delivered(r, was, now, start, used, data)
  {
    hide Progress;
  }

  /** What a frame that ran out of descriptors leaves: the descriptors used so far, and the
      error marked in the one it stopped at; nothing at all if it was the first. */
  ghost predicate Abandoned(r: Ring, was: seq<Cell>, now: seq<Cell>, start: nat, used: nat, data: seq<Cell>)
    requires Layout(r, was) && |data| < 0x10000
  {
    && Taken(r, was, start, used) < |data|
    && (used < r.count ==> !Owned(r, was, Index(r, start, used)))
    && if used == 0 then now == was
       else
         var p := Slot(r, Index(r, start, used)) + 2;
         |now| == |was| && exists b: Cell :: !HasOwner(b) && Progress(r, was, now[p := b], start, used, data)
                                             && now[p] == WithBit(WithBit(b, 4), 16)
  }

  lemma NothingUsed(r: Ring, was: seq<Cell>, start: nat, data: seq<Cell>)
    requires Layout(r, was) && |data| < 0x10000
    ensures Progress(r, was, was, start, 0, data) && Reached(r, was, start, 0, data)
    ensures Taken(r, was, start, 0) == 0 && Index(r, start, 0) == Position(r, start)
  {
    hide Addr, Span, Size;
  }

  lemma NextIndex(r: Ring, start: nat, used: nat, offset: nat)
    requires 0 < r.count && 0 < used && offset == Index(r, start, used - 1) + 1
    ensures Position(r, offset) == Index(r, start, used)
  {
    var n, a := r.count, start + used - 1;
    assert a == n * (a / n) + a % n;
    SameRemainder(a % n + 1, a + 1, a / n, n);
  }

  lemma SameRemainder(a: nat, b: nat, q: int, n: nat)
    requires 0 < n && b == a + n * q
    ensures a % n == b % n
  {
    assert b == (a / n + q) * n + a % n by {
      assert a == n * (a / n) + a % n;
      assert (a / n + q) * n == n * (a / n) + n * q;
    }
    QuotientIsUnique(b, n, a / n + q, a % n);
  }

  lemma FinalFlagsNotOwned(b: Cell, first: bool, last: bool)
    ensures !HasOwner(FinalFlags(b, first, last))
  {
    BitFits(b % 0x80, 2);
    if first {
      BitFits(WithBit(b % 0x80, 2), 1);
    } else {
      BitFits(b % 0x80, 1);
    }
  }

  lemma BitFits(b: Cell, m: Cell)
    requires 0 <= b < 0x80 && (m == 1 || m == 2)
    ensures 0 <= WithBit(b, m) < 0x80
  {
  }

  /** Whether the next descriptor is owned is still as it was, until the ring is used up. */
  lemma OwnershipNow(r: Ring, was: seq<Cell>, now: seq<Cell>, start: nat, used: nat, data: seq<Cell>)
    requires Layout(r, was) && |data| < 0x10000 && used <= r.count && Progress(r, was, now, start, used, data)
    ensures |now| == RAM_SIZE
    ensures var p := Slot(r, Index(r, start, used)) + 2;
            !HasOwner(now[p]) <==> used == r.count || !Owned(r, was, Index(r, start, used))
  {
    hide Taken, Chunk, BufferHolds, FinalFlags, Index;
    if used < r.count {
      SlotBytes(r, was, now, Index(r, start, used));
    } else {
      BackAtStart(r, start);
      assert Used(r, was, now, start, 0, data);
      FinalFlagsNotOwned(was[Slot(r, Index(r, start, 0)) + 2], true, Taken(r, was, start, 1) >= |data|);
    }
  }

  lemma BackAtStart(r: Ring, start: nat)
    requires 0 < r.count
    ensures Index(r, start, r.count) == Index(r, start, 0)
  {
    SameRemainder(start, start + r.count, 1, r.count);
  }

  lemma AbandonedHere(r: Ring, was: seq<Cell>, now: seq<Cell>, start: nat, used: nat, data: seq<Cell>)
    requires InRam(r, was) && |now| == |was| && Layout(r, was) && |data| < 0x10000
    requires used <= r.count && Progress(r, was, now, start, used, data)
    requires !HasOwner(now[Slot(r, Index(r, start, used)) + 2]) && Taken(r, was, start, used) < |data|
    requires used < r.count ==> !Owned(r, was, Index(r, start, used))
    ensures used == 0 ==> Abandoned(r, was, now, start, used, data)
    ensures var p := Slot(r, Index(r, start, used)) + 2;
            used > 0 ==> Abandoned(r, was, now[p := WithBit(WithBit(now[p], 4), 16)], start, used, data)
  {
    hide Progress, HasOwner, WithBit, Owned, Layout, Taken, Size, Index;
    if used == 0 {
      NothingChanged(r, was, now, start, data);
    } else {
      var p := Slot(r, Index(r, start, used)) + 2;
      var marked := now[p := WithBit(WithBit(now[p], 4), 16)];
      assert marked[p := now[p]] == now;
      assert Progress(r, was, marked[p := now[p]], start, used, data);
    }
  }

  lemma NothingChanged(r: Ring, was: seq<Cell>, now: seq<Cell>, start: nat, data: seq<Cell>)
    requires Layout(r, was) && |data| < 0x10000 && Progress(r, was, now, start, 0, data)
    ensures now == was
  {
    forall p | 0 <= p < |was| ensures now[p] == was[p] {
      if r.base <= p < r.base + 8 * r.count {
        var k := (p - r.base) / 8;
        var t := AtIndex(r, start, k);
        SlotBytes(r, was, now, k);
      } else if !Elsewhere(r, was, p) {
        var k :| 0 <= k < r.count && Addr(r, was, k) <= p < Addr(r, was, k) + Span(r, was, k);
        var t := AtIndex(r, start, k);
      }
    }
  }

  /** Every descriptor comes up within one turn of the ring. */
  lemma AtIndex(r: Ring, start: nat, k: nat) returns (t: nat)
    requires k < r.count
    ensures t < r.count && Index(r, start, t) == k
  {
    var n, a := r.count, start % r.count;
    t := if a <= k then k - a else k + n - a;
    SameRemainder(a + t, start + t, start / n, n);
    Below(k, n);
    if k < a {
      SameRemainder(k, k + n, 1, n);
    }
  }

  lemma Below(k: nat, n: nat)
    requires k < n
    ensures k % n == k
  {
  }

  lemma UntouchedStill(r: Ring, was: seq<Cell>, now: seq<Cell>, start: nat, j: nat, data: seq<Cell>)
    requires Layout(r, was) && |data| < 0x10000 && j < r.count && Progress(r, was, now, start, j, data)
    ensures Untouched(r, was, now, Index(r, start, j))
  {
    hide BufferHolds;
  }

  lemma CellUsed(r: Ring, was: seq<Cell>, before: seq<Cell>, filled: seq<Cell>, now: seq<Cell>, k: nat, start: nat,
                 j: nat, data: seq<Cell>, end: nat)
    requires InRam(r, was) && Layout(r, was) && 0 < |data| < 0x10000 && |before| == |filled| == |now| == |was|
    requires j < r.count && k == Index(r, start, j) && Untouched(r, was, before, k)
    requires Taken(r, was, start, j) < |data| && end == Min(Taken(r, was, start, j + 1), |data|)
    requires BufferHolds(r, was, filled, k, data[Taken(r, was, start, j)..end])
    requires forall p :: 0 <= p < |was| && !(Addr(r, was, k) <= p < Addr(r, was, k) + Span(r, was, k))
               ==> filled[p] == before[p]
    requires var s := Slot(r, k);
      && now[s + 2] == FinalFlags(filled[s + 2], j == 0, end >= |data|)
      && (end >= |data| ==> now[s + 6] == |data| / 0x100 && now[s + 7] == |data| % 0x100)
      && (end < |data| ==> now[s + 6] == filled[s + 6] && now[s + 7] == filled[s + 7])
      && forall p :: 0 <= p < |was| && p != s + 2 && p != s + 6 && p != s + 7 ==> now[p] == filled[p]
    ensures OnlyCell(r, was, before, now, k) && Used(r, was, now, start, j, data)
  {
    hide Layout, Addr, Span, Size, FinalFlags, Lane, WithBit, Taken, Index;
    BufferInPlace(r, was, k);
    SlotBytes(r, was, before, k);
    var s := Slot(r, k);
    forall p | 0 <= p < |was| && !InCell(r, was, k, p) ensures now[p] == before[p] {
    }
    forall p | s <= p < s + 8 ensures filled[p] == was[p] {
    }
    assert BufferHolds(r, was, now, k, Chunk(r, was, start, j, data));
  }

  lemma BufferInPlace(r: Ring, was: seq<Cell>, k: nat)
    requires Layout(r, was) && k < r.count
    ensures OffTheRing(r, Addr(r, was, k), Span(r, was, k))
  {
  }

  // ----- Reading the frame back -----

  /** What the driver reads from the t-th buffer: n bytes through the bus lanes. */
  function Contents(r: Ring, was: seq<Cell>, now: seq<Cell>, k: nat, n: nat): (c: seq<Cell>)
    requires Layout(r, was) && |now| == |was| && k < r.count && n <= Size(r, was, k)
    ensures |c| == n
  {
    seq(n, i requires 0 <= i < n => LaneByte(r, was, now, k, i))
  }

  function LaneByte(r: Ring, was: seq<Cell>, now: seq<Cell>, k: nat, i: nat): Cell
    requires Layout(r, was) && |now| == |was| && k < r.count && i < Size(r, was, k)
  {
    BufferInPlace(r, was, k);
    assert Lane(r, i) < Span(r, was, k);
    now[Addr(r, was, k) + Lane(r, i)]
  }

  /** The first u buffers read one after the other. */
  function Gathered(r: Ring, was: seq<Cell>, now: seq<Cell>, start: nat, u: nat, data: seq<Cell>): seq<Cell>
    requires Layout(r, was) && |now| == |was|
  {
    if u == 0 then [] else
      Gathered(r, was, now, start, u - 1, data)
        + Contents(r, was, now, Index(r, start, u - 1), |Chunk(r, was, start, u - 1, data)|)
  }

  lemma ContentsAreChunk(r: Ring, was: seq<Cell>, now: seq<Cell>, k: nat, chunk: seq<Cell>)
    requires Layout(r, was) && |now| == |was| && k < r.count && |chunk| <= Size(r, was, k)
    requires BufferHolds(r, was, now, k, chunk)
    ensures Contents(r, was, now, k, |chunk|) == chunk
  {
    forall i | 0 <= i < |chunk| ensures LaneByte(r, was, now, k, i) == chunk[i] {
      LaneOnce(r, Lane(r, i), i);
    }
  }

  lemma {:induction false} GatheredIsPrefix(r: Ring, was: seq<Cell>, now: seq<Cell>, start: nat, used: nat, u: nat,
                                            data: seq<Cell>)
    requires InRam(r, was) && |now| == |was| && Layout(r, was) && |data| < 0x10000
    requires u <= used && Progress(r, was, now, start, used, data)
    ensures Gathered(r, was, now, start, u, data) == data[..Min(Taken(r, was, start, u), |data|)]
  {
    hide Layout, Contents, BufferHolds, Progress, Size, Taken, Chunk, Index;
    if u == 0 {
      NothingTaken(r, was, start);
    } else {
      GatheredIsPrefix(r, was, now, start, used, u - 1, data);
      ChunkInBuffer(r, was, now, start, used, u - 1, data);
      ContentsAreChunk(r, was, now, Index(r, start, u - 1), Chunk(r, was, start, u - 1, data));
      ChunkAfterPrefix(r, was, start, u - 1, data);
    }
  }

  lemma NothingTaken(r: Ring, was: seq<Cell>, start: nat)
    requires InRam(r, was)
    ensures Taken(r, was, start, 0) == 0
  {
  }

  lemma ChunkInBuffer(r: Ring, was: seq<Cell>, now: seq<Cell>, start: nat, used: nat, t: nat, data: seq<Cell>)
    requires Layout(r, was) && |data| < 0x10000 && t < used && Progress(r, was, now, start, used, data)
    ensures BufferHolds(r, was, now, Index(r, start, t), Chunk(r, was, start, t, data))
  {
    hide BufferHolds, Chunk, FinalFlags;
    assert Used(r, was, now, start, t, data);
  }

  lemma ChunkAfterPrefix(r: Ring, was: seq<Cell>, start: nat, t: nat, data: seq<Cell>)
    requires InRam(r, was)
    ensures data[..Min(Taken(r, was, start, t), |data|)] + Chunk(r, was, start, t, data)
         == data[..Min(Taken(r, was, start, t + 1), |data|)]
  {
  }

  /** A delivered frame reads back byte for byte, in order, from the descriptors used. */
  lemma DeliveredReadsBack(r: Ring, was: seq<Cell>, now: seq<Cell>, start: nat, used: nat, data: seq<Cell>)
    requires Layout(r, was) && |data| < 0x10000 && Delivered(r, was, now, start, used, data)
    ensures |now| == |was| && Gathered(r, was, now, start, used, data) == data
  {
    GatheredIsPrefix(r, was, now, start, used, used, data);
    assert data[..|data|] == data;
  }
}
