/** What the barrel shifter does to the bits of neighbouring words. */
module ShifterProof {
  import opened ChipMemory
  import opened DataPath
  import opened Bits
  import opened LogicUnit

  /** One bit of two wide words shifted together, and the bit it comes from. */
  predicate ShiftedRight(x: bv32, p: bv32, q: bv32, s: bv32)
    requires s < 16
  {
    x == ((p << 16) | q) >> s
  }

  predicate ShiftedLeft(x: bv32, p: bv32, q: bv32, s: bv32)
    requires s < 16
  {
    x == ((q << 16) | p) >> (16 - s)
  }

  lemma RightBit(x: bv32, p: bv32, q: bv32, s: bv32, i: bv32)
    requires p <= 0xFFFF && q <= 0xFFFF && s < 16 && i < 16 && ShiftedRight(x, p, q, s)
    ensures Bit(x, i) == if i + s < 16 then Bit(q, i + s) else Bit(p, i + s - 16)
  {
  }

  lemma LeftBit(x: bv32, p: bv32, q: bv32, s: bv32, i: bv32)
    requires p <= 0xFFFF && q <= 0xFFFF && s < 16 && i < 16 && ShiftedLeft(x, p, q, s)
    ensures Bit(x, i) == if i >= s then Bit(q, i - s) else Bit(p, i + 16 - s)
  {
  }

  lemma ShifterShifts(shift: Shift, previous: Word, current: Word)
    ensures ShiftedRight(Shifter(false, shift, previous, current), Widen(previous), Widen(current), shift)
    ensures ShiftedLeft(Shifter(true, shift, previous, current), Widen(previous), Widen(current), shift)
  {
  }

  lemma Places(i: bv32, s: bv32)
    requires s < 16 && i < 16
    ensures if i + s < 16 then i + s < 32 else i + s - 16 < 16
    ensures if i >= s then i - s < 16 else i + 16 - s < 16
  {
  }

  lemma WideBit(w: Word, i: bv32)
    requires i < 16
    ensures Bit(Widen(w), i) == WordBit(w, i) && Widen(w) <= 0xFFFF
  {
  }

  /** Ascending, bits move towards the low end, and those that leave a word enter the next
      one at its high end. */
  lemma AscendingBit(shift: Shift, previous: Word, current: Word, i: bv32)
    requires i < 16
    ensures WordBit(Low(Shifter(false, shift, previous, current)), i)
         == if i + shift < 16 then WordBit(current, i + shift) else WordBit(previous, i + shift - 16)
  {
    hide WordBit, Bit, Low, Shifter, Widen, ShiftedRight, ShiftedLeft;
    Places(i, shift);
    var x := Shifter(false, shift, previous, current);
    ShifterShifts(shift, previous, current);
    LowBit(x, i);
    WideBit(previous, i);
    WideBit(current, i);
    RightBit(x, Widen(previous), Widen(current), shift, i);
    if i + shift < 16 {
      WideBit(current, i + shift);
    } else {
      WideBit(previous, i + shift - 16);
    }
  }

  /** Descending, they move towards the high end, and enter the next word at its low end. */
  lemma DescendingBit(shift: Shift, previous: Word, current: Word, i: bv32)
    requires i < 16
    ensures WordBit(Low(Shifter(true, shift, previous, current)), i)
         == if i >= shift then WordBit(current, i - shift) else WordBit(previous, i + 16 - shift)
  {
    hide WordBit, Bit, Low, Shifter, Widen, ShiftedRight, ShiftedLeft;
    Places(i, shift);
    var x := Shifter(true, shift, previous, current);
    ShifterShifts(shift, previous, current);
    LowBit(x, i);
    WideBit(previous, i);
    WideBit(current, i);
    LeftBit(x, Widen(previous), Widen(current), shift, i);
    if i >= shift {
      WideBit(current, i - shift);
    } else {
      WideBit(previous, i + 16 - shift);
    }
  }
}
