/** Area fill through byte tables, against bit-serial fill of a whole row. */
module FillProof {
  import opened ChipMemory
  import opened DataPath

  // ----- Bytes and words as bits -----

  lemma UnpackPacked(s: seq<bool>)
    requires |s| == 8
    ensures ByteBits(PackByte(s)) == s
  {
  }

  lemma PackUnpacked(d: bv8)
    ensures PackByte(ByteBits(d)) == d
  {
  }

  /** The mask of bit k, as the table builder shifts it along. */
  function BitMask(k: int): bv8 {
    match k
    case 0 => 0x01
    case 1 => 0x02
    case 2 => 0x04
    case 3 => 0x08
    case 4 => 0x10
    case 5 => 0x20
    case 6 => 0x40
    case _ => 0x80
  }

  predicate TestBit(d: bv8, mask: bv8) { d & mask != 0 }
  function WithBit(d: bv8, mask: bv8): bv8 { d | mask }
  function FlipBit(d: bv8, mask: bv8): bv8 { d ^ mask }

  lemma TestBitIsBit(d: bv8, k: int)
    requires 0 <= k < 8
    ensures TestBit(d, BitMask(k)) == ByteBits(d)[k]
  {
  }

  predicate OneBit(m: bv8) {
    m != 0 && m & (m - 1) == 0
  }

  lemma MasksApart(k: int, n: int)
    requires 0 <= k < 8 && 0 <= n < 8
    ensures OneBit(BitMask(k)) && (BitMask(k) == BitMask(n) <==> k == n)
  {
  }

  lemma SetMask(d: bv8, m: bv8, t: bv8)
    requires OneBit(m) && OneBit(t)
    ensures TestBit(WithBit(d, m), t) == (m == t || TestBit(d, t))
  {
  }

  lemma FlipMask(d: bv8, m: bv8, t: bv8)
    requires OneBit(m) && OneBit(t)
    ensures TestBit(FlipBit(d, m), t) == if m == t then !TestBit(d, t) else TestBit(d, t)
  {
  }

  lemma SetOneBit(d: bv8, k: int)
    requires 0 <= k < 8
    ensures ByteBits(WithBit(d, BitMask(k))) == ByteBits(d)[k := true]
  {
    hide ByteBits, BitMask, TestBit, WithBit, OneBit;
    forall n | 0 <= n < 8 ensures ByteBits(WithBit(d, BitMask(k)))[n] == ByteBits(d)[k := true][n] {
      MasksApart(k, n);
      MasksApart(n, k);
      SetMask(d, BitMask(k), BitMask(n));
      TestBitIsBit(d, n);
      TestBitIsBit(WithBit(d, BitMask(k)), n);
    }
  }

  lemma FlipOneBit(d: bv8, k: int)
    requires 0 <= k < 8
    ensures ByteBits(FlipBit(d, BitMask(k))) == ByteBits(d)[k := !ByteBits(d)[k]]
  {
    hide ByteBits, BitMask, TestBit, FlipBit, OneBit;
    forall n | 0 <= n < 8 ensures ByteBits(FlipBit(d, BitMask(k)))[n] == ByteBits(d)[k := !ByteBits(d)[k]][n] {
      MasksApart(k, n);
      MasksApart(n, k);
      FlipMask(d, BitMask(k), BitMask(n));
      TestBitIsBit(d, n);
      TestBitIsBit(FlipBit(d, BitMask(k)), n);
    }
  }

  /** The first k bits are filled, the others still as they were. */
  ghost predicate FilledUpTo(inclusive: bool, carry: bool, bits: seq<bool>, now: seq<bool>, c: bool, k: nat)
  {
    |bits| == |now| && k <= |bits|
    && (now[..k], c) == FillBits(inclusive, carry, bits[..k])
    && forall j :: k <= j < |bits| ==> now[j] == bits[j]
  }

  lemma FillOneMore(inclusive: bool, carry: bool, bits: seq<bool>, now: seq<bool>, c: bool, k: nat,
                    next: seq<bool>, c': bool)
    requires FilledUpTo(inclusive, carry, bits, now, c, k) && k < |bits|
    requires next == now[k := FillBit(inclusive, c, now[k])] && c' == (if now[k] then !c else c)
    ensures FilledUpTo(inclusive, carry, bits, next, c', k + 1)
  {
    NextBit(inclusive, carry, bits, k);
    assert next[..k + 1] == now[..k] + [FillBit(inclusive, c, bits[k])];
  }

  lemma FillOfNothing(inclusive: bool, carry: bool)
    ensures FillBits(inclusive, carry, []) == ([], carry)
  {
  }

  lemma NextBit(inclusive: bool, carry: bool, bits: seq<bool>, k: nat)
    requires k < |bits|
    ensures
      var (done, c) := FillBits(inclusive, carry, bits[..k]);
      FillBits(inclusive, carry, bits[..k + 1])
        == (done + [FillBit(inclusive, c, bits[k])], if bits[k] then !c else c)
  {
    assert bits[..k + 1] == bits[..k] + [bits[k]];
    FillOfConcatenation(inclusive, carry, bits[..k], [bits[k]]);
    var c := FillBits(inclusive, carry, bits[..k]).1;
    assert [bits[k]][1..] == [];
    assert FillBits(inclusive, c, [bits[k]]).0 == [FillBit(inclusive, c, bits[k])];
  }

  /** The bits of a word, least significant first. */
  function WordBits(w: Word): (s: seq<bool>)
    ensures |s| == 16
  {
    ByteBits(LowByte(w)) + ByteBits(HighByte(w))
  }

  lemma BytesOfSum(low: bv8, high: bv8)
    ensures LowByte(JoinBytes(low, high)) == low
    ensures HighByte(JoinBytes(low, high)) == high
  {
  }

  /** Filling one string after another is filling both at once. */
  lemma {:induction false} FillOfConcatenation(inclusive: bool, carry: bool, x: seq<bool>, y: seq<bool>)
    ensures
      var (fx, c1) := FillBits(inclusive, carry, x);
      var (fy, c2) := FillBits(inclusive, c1, y);
      FillBits(inclusive, carry, x + y) == (fx + fy, c2)
    decreases x
  {
    if x == [] {
      assert x + y == y;
      assert FillBits(inclusive, carry, x) == ([], carry);
      assert [] + FillBits(inclusive, carry, y).0 == FillBits(inclusive, carry, y).0;
    } else {
      var c := if x[0] then !carry else carry;
      assert (x + y)[1..] == x[1..] + y && (x + y)[0] == x[0];
      FillOfConcatenation(inclusive, c, x[1..], y);
      var fx := FillBits(inclusive, c, x[1..]);
      var fy := FillBits(inclusive, fx.1, y);
      var b := FillBit(inclusive, carry, x[0]);
      assert FillBits(inclusive, carry, x + y).0 == [b] + (fx.0 + fy.0);
      assert [b] + (fx.0 + fy.0) == ([b] + fx.0) + fy.0;
    }
  }

  /** The two table look-ups for a word fill its sixteen bits. */
  lemma FillWordIsFillBits(inclusive: bool, carry: bool, w: Word)
    ensures
      var (out, c) := FillWord(inclusive, carry, w);
      (WordBits(out), c) == FillBits(inclusive, carry, WordBits(w))
  {
    hide PackByte, ByteBits, LowByte, HighByte, JoinBytes, FillBits;
    var (bits, carry1) := FillBits(inclusive, carry, ByteBits(LowByte(w)));
    var (bits', carry2) := FillBits(inclusive, carry1, ByteBits(HighByte(w)));
    UnpackPacked(bits);
    UnpackPacked(bits');
    BytesOfSum(PackByte(bits), PackByte(bits'));
    FillOfConcatenation(inclusive, carry, ByteBits(LowByte(w)), ByteBits(HighByte(w)));
  }

  // ----- Rows -----

  function RowBits(ws: seq<Word>): seq<bool> {
    if ws == [] then [] else WordBits(ws[0]) + RowBits(ws[1..])
  }

  /** The words of a row, in the order the blitter computes them; the carry goes
      from word to word. */
  function FillRow(inclusive: bool, carry: bool, ws: seq<Word>): (seq<Word>, bool)
    decreases ws
  {
    if ws == [] then ([], carry)
    else
      var (out, c) := FillWord(inclusive, carry, ws[0]);
      var (rest, last) := FillRow(inclusive, c, ws[1..]);
      ([out] + rest, last)
  }

  /** Table-driven fill of a row of any length is bit-serial fill of its bits. */
  lemma {:induction false} FillRowIsFillBits(inclusive: bool, carry: bool, ws: seq<Word>)
    ensures
      var (out, c) := FillRow(inclusive, carry, ws);
      (RowBits(out), c) == FillBits(inclusive, carry, RowBits(ws))
    decreases ws
  {
    if ws != [] {
      hide FillWord, WordBits, FillBits;
      var (out, c) := FillWord(inclusive, carry, ws[0]);
      FillWordIsFillBits(inclusive, carry, ws[0]);
      FillRowIsFillBits(inclusive, c, ws[1..]);
      FillOfConcatenation(inclusive, carry, WordBits(ws[0]), RowBits(ws[1..]));
      var (rest, last) := FillRow(inclusive, c, ws[1..]);
      assert ([out] + rest)[1..] == rest;
    }
  }

  /** Parity of the first n bits. */
  function Parity(bits: seq<bool>, n: nat): bool
    requires n <= |bits|
  {
    if n == 0 then false else Parity(bits, n - 1) != bits[n - 1]
  }

  lemma {:induction false} ParityOfTail(bits: seq<bool>, n: nat)
    requires 0 < n <= |bits|
    ensures Parity(bits, n) == (bits[0] != Parity(bits[1..], n - 1))
  {
    if n == 1 {
      assert Parity(bits, 1) == (Parity(bits, 0) != bits[0]);
    } else {
      ParityOfTail(bits, n - 1);
    }
  }

  /** What fill means: in exclusive mode every output bit is the parity of the bits
      up to and including it, in inclusive mode a bit is set where the input is or
      where the parity of the bits before it is odd; both relative to the initial
      carry. */
  lemma {:induction false} FillMeaning(inclusive: bool, carry: bool, bits: seq<bool>, n: nat)
    requires n < |bits|
    ensures
      var out := FillBits(inclusive, carry, bits).0;
      out[n] == if inclusive then bits[n] || (carry != Parity(bits, n)) else carry != Parity(bits, n + 1)
    ensures FillBits(inclusive, carry, bits).1 == (carry != Parity(bits, |bits|))
    decreases bits
  {
    FillCarry(inclusive, carry, bits);
    if n > 0 {
      FillMeaning(inclusive, if bits[0] then !carry else carry, bits[1..], n - 1);
      ParityOfTail(bits, n);
      ParityOfTail(bits, n + 1);
    } else {
      assert Parity(bits, 1) == (Parity(bits, 0) != bits[0]);
    }
  }

  lemma {:induction false} FillCarry(inclusive: bool, carry: bool, bits: seq<bool>)
    ensures FillBits(inclusive, carry, bits).1 == (carry != Parity(bits, |bits|))
    decreases bits
  {
    if bits != [] {
      FillCarry(inclusive, if bits[0] then !carry else carry, bits[1..]);
      ParityOfTail(bits, |bits|);
    }
  }
}
