/** Bit-level view of words: two words are equal when their bits are. */
module Bits {
  /** Bit i of a 32-bit value. */
  predicate Bit(w: bv32, i: bv32)
    requires i < 32
  {
    (w >> i) & 1 == 1
  }

  /** Bit i of a word. */
  predicate WordBit(w: bv16, i: bv32)
    requires i < 16
  {
    (w >> i) & 1 == 1
  }

  function BitNot(a: bv32): bv32 { !a }
  function BitAnd(a: bv32, b: bv32): bv32 { a & b }
  function BitOr(a: bv32, b: bv32): bv32 { a | b }
  function BitXor(a: bv32, b: bv32): bv32 { a ^ b }

  lemma BitOfConstants(i: bv32)
    requires i < 32
    ensures !Bit(0, i) && Bit(0xFFFF_FFFF, i)
  {
  }

  lemma BitOfNot(a: bv32, i: bv32)
    requires i < 32
    ensures Bit(BitNot(a), i) == !Bit(a, i)
  {
  }

  lemma BitOfAnd(a: bv32, b: bv32, i: bv32)
    requires i < 32
    ensures Bit(BitAnd(a, b), i) == (Bit(a, i) && Bit(b, i))
  {
    LaneAnd(a, b, i);
    hide Bit;
  }

  lemma LaneAnd(a: bv32, b: bv32, i: bv32)
    requires i < 32
    ensures Bit(a & b, i) == (Bit(a, i) && Bit(b, i))
  {
  }

  lemma BitOfOr(a: bv32, b: bv32, i: bv32)
    requires i < 32
    ensures Bit(BitOr(a, b), i) == (Bit(a, i) || Bit(b, i))
  {
    LaneOr(a, b, i);
    hide Bit;
  }

  lemma LaneOr(a: bv32, b: bv32, i: bv32)
    requires i < 32
    ensures Bit(a | b, i) == (Bit(a, i) || Bit(b, i))
  {
  }

  lemma BitOfXor(a: bv32, b: bv32, i: bv32)
    requires i < 32
    ensures Bit(BitXor(a, b), i) == (Bit(a, i) != Bit(b, i))
  {
    LaneXor(a, b, i);
    hide Bit;
  }

  lemma LaneXor(a: bv32, b: bv32, i: bv32)
    requires i < 32
    ensures Bit(a ^ b, i) == (Bit(a, i) != Bit(b, i))
  {
  }

  lemma WordBitOfNot(a: bv16, i: bv32)
    requires i < 16
    ensures WordBit(!a, i) == !WordBit(a, i)
  {
  }

  lemma SixteenBits(a: bv16, b: bv16)
    requires WordBit(a, 0) == WordBit(b, 0) && WordBit(a, 1) == WordBit(b, 1)
    requires WordBit(a, 2) == WordBit(b, 2) && WordBit(a, 3) == WordBit(b, 3)
    requires WordBit(a, 4) == WordBit(b, 4) && WordBit(a, 5) == WordBit(b, 5)
    requires WordBit(a, 6) == WordBit(b, 6) && WordBit(a, 7) == WordBit(b, 7)
    requires WordBit(a, 8) == WordBit(b, 8) && WordBit(a, 9) == WordBit(b, 9)
    requires WordBit(a, 10) == WordBit(b, 10) && WordBit(a, 11) == WordBit(b, 11)
    requires WordBit(a, 12) == WordBit(b, 12) && WordBit(a, 13) == WordBit(b, 13)
    requires WordBit(a, 14) == WordBit(b, 14) && WordBit(a, 15) == WordBit(b, 15)
    ensures a == b
  {
  }

  /** Words with the same bits are the same word. */
  lemma SameBits(a: bv16, b: bv16)
    requires forall i: bv32 :: i < 16 ==> WordBit(a, i) == WordBit(b, i)
    ensures a == b
  {
    SixteenBits(a, b);
  }
}
