/** The combinational part of the blitter: shifters, logic unit and area fill. */
module DataPath {
  import opened ChipMemory

  function Term(on: bool, a: Word, b: Word, c: Word): Word {
    if on then a & b & c else 0
  }

  function AnyOf(a: Word, b: Word, c: Word, d: Word, e: Word, f: Word, g: Word, h: Word): Word {
    a | b | c | d | e | f | g | h
  }

  /** A minterm byte selects which of the eight combinations of A, B and C set
      the destination bit: bit 7 is A and B and C, bit 0 none of them. */
  function Minterm(mt: bv8, a: Word, b: Word, c: Word): Word {
    AnyOf(
      Term(mt & 0x80 != 0, a, b, c),
      Term(mt & 0x40 != 0, a, b, !c),
      Term(mt & 0x20 != 0, a, !b, c),
      Term(mt & 0x10 != 0, a, !b, !c),
      Term(mt & 0x08 != 0, !a, b, c),
      Term(mt & 0x04 != 0, !a, b, !c),
      Term(mt & 0x02 != 0, !a, !b, c),
      Term(mt & 0x01 != 0, !a, !b, !c))
  }

  /** A four-bit shift count from the top of a control register. */
  type Shift = s: bv32 | s <= 15

  function Low(x: bv32): Word {
    (x & 0xFFFF) as bv16
  }

  /** Barrel shifter of sources A and B.  In ascending mode the previous word
      supplies the bits shifted in from the left; in descending mode it sits to
      the right of the new one. */
  function Shifter(descending: bool, shift: Shift, previous: Word, current: Word): bv32 {
    if descending then
      (((current as bv32) << 16) | (previous as bv32)) >> (16 - shift)
    else
      (((previous as bv32) << 16) | (current as bv32)) >> shift
  }

  function Masked(data: Word, mask: Word): Word {
    data & mask
  }

  // ----- Area fill -----

  /** The bits of a byte, least significant first. */
  function ByteBits(d: bv8): (s: seq<bool>)
    ensures |s| == 8
  {
    [d & 0x01 != 0, d & 0x02 != 0, d & 0x04 != 0, d & 0x08 != 0,
     d & 0x10 != 0, d & 0x20 != 0, d & 0x40 != 0, d & 0x80 != 0]
  }

  function PackByte(s: seq<bool>): bv8
    requires |s| == 8
  {
    (if s[0] then 0x01 else 0) | (if s[1] then 0x02 else 0)
    | (if s[2] then 0x04 else 0) | (if s[3] then 0x08 else 0)
    | (if s[4] then 0x10 else 0) | (if s[5] then 0x20 else 0)
    | (if s[6] then 0x40 else 0) | (if s[7] then 0x80 else 0)
  }

  /** The output of a fill step: inside an area the bit is set, or inverted. */
  function FillBit(inclusive: bool, carry: bool, bit: bool): bool {
    if carry then inclusive || !bit else bit
  }

  /** Fill of a string of bits; every set bit toggles the carry. */
  function FillBits(inclusive: bool, carry: bool, bits: seq<bool>): (r: (seq<bool>, bool))
    ensures |r.0| == |bits|
    decreases bits
  {
    if bits == [] then ([], carry)
    else
      var (rest, last) := FillBits(inclusive, if bits[0] then !carry else carry, bits[1..]);
      ([FillBit(inclusive, carry, bits[0])] + rest, last)
  }

  /** An entry of the fill table. */
  function FillByte(inclusive: bool, carry: bool, data: bv8): (bv8, bool) {
    var (bits, last) := FillBits(inclusive, carry, ByteBits(data));
    (PackByte(bits), last)
  }

  function LowByte(w: Word): bv8 {
    (w & 0xFF) as bv8
  }

  function HighByte(w: Word): bv8 {
    (w >> 8) as bv8
  }

  function JoinBytes(low: bv8, high: bv8): Word {
    (low as bv16) + ((high as bv16) << 8)
  }

  /** A word is filled low byte first; the carry passes between the bytes. */
  function FillWord(inclusive: bool, carry: bool, w: Word): (Word, bool) {
    var (low, carry1) := FillByte(inclusive, carry, LowByte(w));
    var (high, carry2) := FillByte(inclusive, carry1, HighByte(w));
    (JoinBytes(low, high), carry2)
  }
}
