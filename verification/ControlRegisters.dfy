/** The fields of the blitter's two control registers. */
module ControlRegisters {
  import opened Bits
  import opened ChipMemory
  import opened DataPath
  import opened LogicUnit

  function ShiftOf(con: Word): Shift { (con >> 12) as bv32 }
  function MintermOf(con0: Word): bv8 { (con0 & 0xFF) as bv8 }
  predicate OnA(con0: Word) { con0 & 0x800 != 0 }
  predicate OnB(con0: Word) { con0 & 0x400 != 0 }
  predicate OnC(con0: Word) { con0 & 0x200 != 0 }
  predicate OnD(con0: Word) { con0 & 0x100 != 0 }
  predicate Descending(con1: Word) { con1 & 2 != 0 }
  predicate CarryIn(con1: Word) { con1 & 4 != 0 }
  predicate Inclusive(con1: Word) { con1 & 8 != 0 }
  predicate Exclusive(con1: Word) { con1 & 0x10 != 0 }

  // In line mode the same bits of the second register steer the pen.
  predicate SingleDot(con1: Word) { con1 & 2 != 0 }
  predicate AlwaysBack(con1: Word) { con1 & 4 != 0 }
  predicate SometimesBack(con1: Word) { con1 & 8 != 0 }
  predicate SometimesRows(con1: Word) { con1 & 0x10 != 0 }
  predicate SignSet(con1: Word) { con1 & 0x40 != 0 }

  lemma ChannelBits(con0: Word)
    ensures OnA(con0) <==> WordBit(con0, 11)
    ensures OnB(con0) <==> WordBit(con0, 10)
    ensures OnC(con0) <==> WordBit(con0, 9)
    ensures OnD(con0) <==> WordBit(con0, 8)
  {
  }

  lemma ModeBits(con1: Word)
    ensures Descending(con1) <==> WordBit(con1, 1)
    ensures CarryIn(con1) <==> WordBit(con1, 2)
    ensures Inclusive(con1) <==> WordBit(con1, 3)
    ensures Exclusive(con1) <==> WordBit(con1, 4)
  {
  }

  lemma LineBits(con1: Word)
    ensures SingleDot(con1) <==> WordBit(con1, 1)
    ensures AlwaysBack(con1) <==> WordBit(con1, 2)
    ensures SometimesBack(con1) <==> WordBit(con1, 3)
    ensures SometimesRows(con1) <==> WordBit(con1, 4)
    ensures SignSet(con1) <==> WordBit(con1, 6)
  {
  }

  /** The shift count is the number in the highest four bits. */
  predicate HighNibble(con: Word, shift: Shift) {
    && Bit(shift, 3) == WordBit(con, 15) && Bit(shift, 2) == WordBit(con, 14)
    && Bit(shift, 1) == WordBit(con, 13) && Bit(shift, 0) == WordBit(con, 12)
  }

  lemma ShiftBits(con: Word)
    ensures HighNibble(con, ShiftOf(con))
  {
  }

  /** The minterm byte is the lower half of the first register: the three source bits number
      its bits. */
  predicate LowHalf(con0: Word, mt: bv8) {
    forall a, b, c ::
      Entry(mt, a, b, c) == WordBit(con0, (if a then 4 else 0) + (if b then 2 else 0) + (if c then 1 else 0))
  }

  lemma MintermIsLowHalf(con0: Word)
    ensures LowHalf(con0, MintermOf(con0))
  {
  }
}
