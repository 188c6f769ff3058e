/** The blitter's logic unit.  A minterm byte is a truth table over the sources A,
    B and C; the emulator evaluates a reduced formula for each of the 256 bytes. */
module LogicUnit {
  import opened ChipMemory
  import opened DataPath
  import opened Bits

  /** The expressions of the reduced formulas. */
  datatype Formula =
    | Zero | Ones | SrcA | SrcB | SrcC
    | Not(f: Formula) | And(f: Formula, g: Formula) | Or(f: Formula, g: Formula) | Xor(f: Formula, g: Formula)

  /** Their value on 32-bit operands. */
  function Eval(f: Formula, a: bv32, b: bv32, c: bv32): bv32 {
    match f
    case Zero => 0
    case Ones => 0xFFFF_FFFF
    case SrcA => a
    case SrcB => b
    case SrcC => c
    case Not(g) => BitNot(Eval(g, a, b, c))
    case And(g, h) => BitAnd(Eval(g, a, b, c), Eval(h, a, b, c))
    case Or(g, h) => BitOr(Eval(g, a, b, c), Eval(h, a, b, c))
    case Xor(g, h) => BitXor(Eval(g, a, b, c), Eval(h, a, b, c))
  }

  /** Their value on single bits. */
  predicate Holds(f: Formula, a: bool, b: bool, c: bool) {
    match f
    case Zero => false
    case Ones => true
    case SrcA => a
    case SrcB => b
    case SrcC => c
    case Not(g) => !Holds(g, a, b, c)
    case And(g, h) => Holds(g, a, b, c) && Holds(h, a, b, c)
    case Or(g, h) => Holds(g, a, b, c) || Holds(h, a, b, c)
    case Xor(g, h) => Holds(g, a, b, c) != Holds(h, a, b, c)
  }

  function Neg(f: Formula): (r: Formula)
    ensures forall a, b, c :: Holds(r, a, b, c) == !Holds(f, a, b, c)
  {
    Not(f)
  }

  function Conj(f: Formula, g: Formula): (r: Formula)
    ensures forall a, b, c :: Holds(r, a, b, c) == (Holds(f, a, b, c) && Holds(g, a, b, c))
  {
    And(f, g)
  }

  function Disj(f: Formula, g: Formula): (r: Formula)
    ensures forall a, b, c :: Holds(r, a, b, c) == (Holds(f, a, b, c) || Holds(g, a, b, c))
  {
    Or(f, g)
  }

  function Diff(f: Formula, g: Formula): (r: Formula)
    ensures forall a, b, c :: Holds(r, a, b, c) == (Holds(f, a, b, c) != Holds(g, a, b, c))
  {
    Xor(f, g)
  }

  /** A minterm byte read as a truth table: bit 7 for A and B and C, bit 0 for
      none of them. */
  predicate Entry(mt: bv8, a: bool, b: bool, c: bool) {
    if a then
      if b then (if c then mt & 0x80 != 0 else mt & 0x40 != 0)
      else (if c then mt & 0x20 != 0 else mt & 0x10 != 0)
    else
      if b then (if c then mt & 0x08 != 0 else mt & 0x04 != 0)
      else (if c then mt & 0x02 != 0 else mt & 0x01 != 0)
  }

  function Formula0(mt: bv8): (f: Formula)
    requires 0x00 <= mt <= 0x0F
    ensures forall a, b, c :: Holds(f, a, b, c) == Entry(mt, a, b, c)
  {
    match mt
    case 0x00 => Zero
    case 0x01 => Neg(Disj(Disj(SrcA, SrcB), SrcC))
    case 0x02 => Conj(SrcC, Neg(Disj(SrcA, SrcB)))
    case 0x03 => Neg(Disj(SrcA, SrcB))
    case 0x04 => Conj(SrcB, Neg(Disj(SrcA, SrcC)))
    case 0x05 => Neg(Disj(SrcA, SrcC))
    case 0x06 => Conj(Neg(SrcA), Diff(SrcB, SrcC))
    case 0x07 => Neg(Disj(SrcA, Conj(SrcB, SrcC)))
    case 0x08 => Conj(Conj(Neg(SrcA), SrcB), SrcC)
    case 0x09 => Neg(Disj(SrcA, Diff(SrcB, SrcC)))
    case 0x0a => Conj(Neg(SrcA), SrcC)
    case 0x0b => Neg(Disj(SrcA, Conj(SrcB, Neg(SrcC))))
    case 0x0c => Conj(Neg(SrcA), SrcB)
    case 0x0d => Neg(Disj(SrcA, Conj(Neg(SrcB), SrcC)))
    case 0x0e => Conj(Neg(SrcA), Disj(SrcB, SrcC))
    case _ => Neg(SrcA)
  }

  function Formula1(mt: bv8): (f: Formula)
    requires 0x10 <= mt <= 0x1F
    ensures forall a, b, c :: Holds(f, a, b, c) == Entry(mt, a, b, c)
  {
    match mt
    case 0x10 => Conj(SrcA, Neg(Disj(SrcB, SrcC)))
    case 0x11 => Neg(Disj(SrcB, SrcC))
    case 0x12 => Conj(Neg(SrcB), Diff(SrcA, SrcC))
    case 0x13 => Neg(Disj(SrcB, Conj(SrcA, SrcC)))
    case 0x14 => Conj(Neg(SrcC), Diff(SrcA, SrcB))
    case 0x15 => Neg(Disj(SrcC, Conj(SrcA, SrcB)))
    case 0x16 => Diff(SrcA, Disj(Conj(SrcA, SrcB), Diff(SrcB, SrcC)))
    case 0x17 => Neg(Diff(SrcA, Conj(Diff(SrcA, SrcB), Diff(SrcA, SrcC))))
    case 0x18 => Conj(Diff(SrcA, SrcB), Diff(SrcA, SrcC))
    case 0x19 => Diff(SrcB, Disj(Neg(SrcC), Conj(SrcA, SrcB)))
    case 0x1a => Diff(SrcA, Disj(SrcC, Conj(SrcA, SrcB)))
    case 0x1b => Diff(SrcA, Disj(SrcC, Neg(Diff(SrcA, SrcB))))
    case 0x1c => Diff(SrcA, Disj(SrcB, Conj(SrcA, SrcC)))
    case 0x1d => Diff(SrcA, Disj(SrcB, Neg(Diff(SrcA, SrcC))))
    case 0x1e => Diff(SrcA, Disj(SrcB, SrcC))
    case _ => Neg(Conj(SrcA, Disj(SrcB, SrcC)))
  }

  function Formula2(mt: bv8): (f: Formula)
    requires 0x20 <= mt <= 0x2F
    ensures forall a, b, c :: Holds(f, a, b, c) == Entry(mt, a, b, c)
  {
    match mt
    case 0x20 => Conj(Conj(SrcA, Neg(SrcB)), SrcC)
    case 0x21 => Neg(Disj(SrcB, Diff(SrcA, SrcC)))
    case 0x22 => Conj(Neg(SrcB), SrcC)
    case 0x23 => Neg(Disj(SrcB, Conj(SrcA, Neg(SrcC))))
    case 0x24 => Conj(Diff(SrcA, SrcB), Diff(SrcB, SrcC))
    case 0x25 => Diff(SrcA, Disj(Neg(SrcC), Conj(SrcA, SrcB)))
    case 0x26 => Diff(SrcB, Disj(SrcC, Conj(SrcA, SrcB)))
    case 0x27 => Neg(Diff(SrcA, Conj(SrcC, Diff(SrcA, SrcB))))
    case 0x28 => Conj(SrcC, Diff(SrcA, SrcB))
    case 0x29 => Neg(Diff(Diff(SrcA, SrcB), Disj(SrcC, Conj(SrcA, SrcB))))
    case 0x2a => Conj(SrcC, Neg(Conj(SrcA, SrcB)))
    case 0x2b => Neg(Diff(SrcA, Conj(Diff(SrcA, SrcB), Diff(SrcB, SrcC))))
    case 0x2c => Diff(SrcB, Conj(SrcA, Disj(SrcB, SrcC)))
    case 0x2d => Diff(SrcA, Disj(SrcB, Neg(SrcC)))
    case 0x2e => Diff(SrcA, Disj(SrcB, Diff(SrcA, SrcC)))
    case _ => Neg(Conj(SrcA, Disj(SrcB, Neg(SrcC))))
  }

  function Formula3(mt: bv8): (f: Formula)
    requires 0x30 <= mt <= 0x3F
    ensures forall a, b, c :: Holds(f, a, b, c) == Entry(mt, a, b, c)
  {
    match mt
    case 0x30 => Conj(SrcA, Neg(SrcB))
    case 0x31 => Neg(Disj(SrcB, Conj(Neg(SrcA), SrcC)))
    case 0x32 => Conj(Neg(SrcB), Disj(SrcA, SrcC))
    case 0x33 => Neg(SrcB)
    case 0x34 => Diff(SrcB, Disj(SrcA, Conj(SrcB, SrcC)))
    case 0x35 => Diff(SrcB, Disj(SrcA, Neg(Diff(SrcB, SrcC))))
    case 0x36 => Diff(SrcB, Disj(SrcA, SrcC))
    case 0x37 => Neg(Conj(SrcB, Disj(SrcA, SrcC)))
    case 0x38 => Diff(SrcA, Conj(SrcB, Disj(SrcA, SrcC)))
    case 0x39 => Diff(SrcB, Disj(SrcA, Neg(SrcC)))
    case 0x3a => Diff(SrcB, Disj(SrcA, Diff(SrcB, SrcC)))
    case 0x3b => Neg(Conj(SrcB, Disj(SrcA, Neg(SrcC))))
    case 0x3c => Diff(SrcA, SrcB)
    case 0x3d => Diff(SrcA, Disj(SrcB, Neg(Disj(SrcA, SrcC))))
    case 0x3e => Diff(SrcA, Disj(SrcB, Diff(SrcA, Disj(SrcA, SrcC))))
    case _ => Neg(Conj(SrcA, SrcB))
  }

  function Formula4(mt: bv8): (f: Formula)
    requires 0x40 <= mt <= 0x4F
    ensures forall a, b, c :: Holds(f, a, b, c) == Entry(mt, a, b, c)
  {
    match mt
    case 0x40 => Conj(Conj(SrcA, SrcB), Neg(SrcC))
    case 0x41 => Neg(Disj(SrcC, Diff(SrcA, SrcB)))
    case 0x42 => Conj(Diff(SrcA, SrcC), Diff(SrcB, SrcC))
    case 0x43 => Diff(SrcA, Disj(Neg(SrcB), Conj(SrcA, SrcC)))
    case 0x44 => Conj(SrcB, Neg(SrcC))
    case 0x45 => Neg(Disj(SrcC, Conj(SrcA, Neg(SrcB))))
    case 0x46 => Diff(SrcC, Disj(SrcB, Conj(SrcA, SrcC)))
    case 0x47 => Neg(Diff(SrcA, Conj(SrcB, Diff(SrcA, SrcC))))
    case 0x48 => Conj(SrcB, Diff(SrcA, SrcC))
    case 0x49 => Neg(Diff(Diff(SrcA, SrcC), Disj(SrcB, Conj(SrcA, SrcC))))
    case 0x4a => Diff(SrcC, Conj(SrcA, Disj(SrcB, SrcC)))
    case 0x4b => Diff(SrcA, Disj(Neg(SrcB), SrcC))
    case 0x4c => Conj(SrcB, Neg(Conj(SrcA, SrcC)))
    case 0x4d => Diff(SrcA, Disj(Diff(SrcA, SrcB), Neg(Diff(SrcA, SrcC))))
    case 0x4e => Diff(SrcA, Disj(SrcC, Diff(SrcA, SrcB)))
    case _ => Neg(Conj(SrcA, Disj(Neg(SrcB), SrcC)))
  }

  function Formula5(mt: bv8): (f: Formula)
    requires 0x50 <= mt <= 0x5F
    ensures forall a, b, c :: Holds(f, a, b, c) == Entry(mt, a, b, c)
  {
    match mt
    case 0x50 => Conj(SrcA, Neg(SrcC))
    case 0x51 => Neg(Disj(SrcC, Conj(Neg(SrcA), SrcB)))
    case 0x52 => Diff(SrcC, Disj(SrcA, Conj(SrcB, SrcC)))
    case 0x53 => Neg(Diff(SrcB, Conj(SrcA, Diff(SrcB, SrcC))))
    case 0x54 => Conj(Neg(SrcC), Disj(SrcA, SrcB))
    case 0x55 => Neg(SrcC)
    case 0x56 => Diff(SrcC, Disj(SrcA, SrcB))
    case 0x57 => Neg(Conj(SrcC, Disj(SrcA, SrcB)))
    case 0x58 => Diff(SrcA, Conj(SrcC, Disj(SrcA, SrcB)))
    case 0x59 => Diff(SrcC, Disj(SrcA, Neg(SrcB)))
    case 0x5a => Diff(SrcA, SrcC)
    case 0x5b => Diff(SrcA, Disj(SrcC, Neg(Disj(SrcA, SrcB))))
    case 0x5c => Diff(SrcC, Disj(SrcA, Diff(SrcB, SrcC)))
    case 0x5d => Neg(Conj(SrcC, Disj(SrcA, Neg(SrcB))))
    case 0x5e => Diff(SrcA, Disj(SrcC, Diff(SrcA, Disj(SrcA, SrcB))))
    case _ => Neg(Conj(SrcA, SrcC))
  }

  function Formula6(mt: bv8): (f: Formula)
    requires 0x60 <= mt <= 0x6F
    ensures forall a, b, c :: Holds(f, a, b, c) == Entry(mt, a, b, c)
  {
    match mt
    case 0x60 => Conj(SrcA, Diff(SrcB, SrcC))
    case 0x61 => Neg(Diff(Diff(SrcB, SrcC), Disj(SrcA, Conj(SrcB, SrcC))))
    case 0x62 => Diff(SrcC, Conj(SrcB, Disj(SrcA, SrcC)))
    case 0x63 => Diff(SrcB, Disj(Neg(SrcA), SrcC))
    case 0x64 => Diff(SrcB, Conj(SrcC, Disj(SrcA, SrcB)))
    case 0x65 => Diff(SrcC, Disj(Neg(SrcA), SrcB))
    case 0x66 => Diff(SrcB, SrcC)
    case 0x67 => Diff(SrcB, Disj(SrcC, Neg(Disj(SrcA, SrcB))))
    case 0x68 => Diff(Conj(SrcA, SrcB), Conj(SrcC, Disj(SrcA, SrcB)))
    case 0x69 => Neg(Diff(Diff(SrcA, SrcB), SrcC))
    case 0x6a => Diff(SrcC, Conj(SrcA, SrcB))
    case 0x6b => Neg(Diff(Diff(SrcA, SrcB), Conj(SrcC, Disj(SrcA, SrcB))))
    case 0x6c => Diff(SrcB, Conj(SrcA, SrcC))
    case 0x6d => Neg(Diff(Diff(SrcA, SrcC), Conj(SrcB, Disj(SrcA, SrcC))))
    case 0x6e => Disj(Conj(Neg(SrcA), SrcB), Diff(SrcB, SrcC))
    case _ => Disj(Neg(SrcA), Diff(SrcB, SrcC))
  }

  function Formula7(mt: bv8): (f: Formula)
    requires 0x70 <= mt <= 0x7F
    ensures forall a, b, c :: Holds(f, a, b, c) == Entry(mt, a, b, c)
  {
    match mt
    case 0x70 => Conj(SrcA, Neg(Conj(SrcB, SrcC)))
    case 0x71 => Neg(Diff(SrcA, Disj(Diff(SrcA, SrcB), Diff(SrcA, SrcC))))
    case 0x72 => Diff(SrcB, Disj(SrcC, Diff(SrcA, SrcB)))
    case 0x73 => Neg(Conj(SrcB, Disj(Neg(SrcA), SrcC)))
    case 0x74 => Diff(SrcC, Disj(SrcB, Diff(SrcA, SrcC)))
    case 0x75 => Neg(Conj(SrcC, Disj(Neg(SrcA), SrcB)))
    case 0x76 => Diff(SrcB, Disj(SrcC, Diff(SrcA, Conj(SrcA, SrcB))))
    case 0x77 => Neg(Conj(SrcB, SrcC))
    case 0x78 => Diff(SrcA, Conj(SrcB, SrcC))
    case 0x79 => Neg(Diff(Diff(SrcB, SrcC), Conj(SrcA, Disj(SrcB, SrcC))))
    case 0x7a => Disj(Conj(SrcA, Neg(SrcB)), Diff(SrcA, SrcC))
    case 0x7b => Disj(Neg(SrcB), Diff(SrcA, SrcC))
    case 0x7c => Disj(Diff(SrcA, SrcB), Conj(SrcA, Neg(SrcC)))
    case 0x7d => Disj(Neg(SrcC), Diff(SrcA, SrcB))
    case 0x7e => Disj(Diff(SrcA, SrcB), Diff(SrcA, SrcC))
    case _ => Neg(Conj(Conj(SrcA, SrcB), SrcC))
  }

  function Formula8(mt: bv8): (f: Formula)
    requires 0x80 <= mt <= 0x8F
    ensures forall a, b, c :: Holds(f, a, b, c) == Entry(mt, a, b, c)
  {
    match mt
    case 0x80 => Conj(Conj(SrcA, SrcB), SrcC)
    case 0x81 => Neg(Disj(Diff(SrcA, SrcB), Diff(SrcA, SrcC)))
    case 0x82 => Conj(SrcC, Neg(Diff(SrcA, SrcB)))
    case 0x83 => Diff(SrcA, Disj(Neg(SrcB), Conj(SrcA, Neg(SrcC))))
    case 0x84 => Conj(SrcB, Neg(Diff(SrcA, SrcC)))
    case 0x85 => Diff(SrcA, Disj(Neg(SrcC), Conj(SrcA, Neg(SrcB))))
    case 0x86 => Diff(Diff(SrcB, SrcC), Conj(SrcA, Disj(SrcB, SrcC)))
    case 0x87 => Neg(Diff(SrcA, Conj(SrcB, SrcC)))
    case 0x88 => Conj(SrcB, SrcC)
    case 0x89 => Diff(SrcB, Conj(Neg(SrcC), Disj(Neg(SrcA), SrcB)))
    case 0x8a => Conj(SrcC, Disj(Neg(SrcA), SrcB))
    case 0x8b => Diff(SrcA, Disj(Neg(SrcB), Diff(SrcA, SrcC)))
    case 0x8c => Conj(SrcB, Disj(Neg(SrcA), SrcC))
    case 0x8d => Diff(SrcA, Disj(Neg(SrcC), Diff(SrcA, SrcB)))
    case 0x8e => Diff(SrcA, Disj(Diff(SrcA, SrcB), Diff(SrcA, SrcC)))
    case _ => Disj(Neg(SrcA), Conj(SrcB, SrcC))
  }

  function Formula9(mt: bv8): (f: Formula)
    requires 0x90 <= mt <= 0x9F
    ensures forall a, b, c :: Holds(f, a, b, c) == Entry(mt, a, b, c)
  {
    match mt
    case 0x90 => Conj(SrcA, Neg(Diff(SrcB, SrcC)))
    case 0x91 => Diff(SrcB, Disj(Neg(SrcC), Conj(Neg(SrcA), SrcB)))
    case 0x92 => Diff(Diff(SrcA, SrcC), Conj(SrcB, Disj(SrcA, SrcC)))
    case 0x93 => Neg(Diff(SrcB, Conj(SrcA, SrcC)))
    case 0x94 => Diff(Diff(SrcA, SrcB), Conj(SrcC, Disj(SrcA, SrcB)))
    case 0x95 => Neg(Diff(SrcC, Conj(SrcA, SrcB)))
    case 0x96 => Diff(Diff(SrcA, SrcB), SrcC)
    case 0x97 => Diff(Diff(SrcA, SrcB), Disj(SrcC, Neg(Disj(SrcA, SrcB))))
    case 0x98 => Diff(SrcB, Conj(Neg(SrcC), Disj(SrcA, SrcB)))
    case 0x99 => Neg(Diff(SrcB, SrcC))
    case 0x9a => Diff(SrcC, Conj(SrcA, Neg(SrcB)))
    case 0x9b => Neg(Diff(SrcB, Conj(SrcC, Disj(SrcA, SrcB))))
    case 0x9c => Diff(SrcB, Conj(SrcA, Neg(SrcC)))
    case 0x9d => Neg(Diff(SrcC, Conj(SrcB, Disj(SrcA, SrcC))))
    case 0x9e => Diff(Diff(SrcB, SrcC), Disj(SrcA, Conj(SrcB, SrcC)))
    case _ => Neg(Conj(SrcA, Diff(SrcB, SrcC)))
  }

  function FormulaA(mt: bv8): (f: Formula)
    requires 0xA0 <= mt <= 0xAF
    ensures forall a, b, c :: Holds(f, a, b, c) == Entry(mt, a, b, c)
  {
    match mt
    case 0xa0 => Conj(SrcA, SrcC)
    case 0xa1 => Diff(SrcA, Conj(Neg(SrcC), Disj(SrcA, Neg(SrcB))))
    case 0xa2 => Conj(SrcC, Disj(SrcA, Neg(SrcB)))
    case 0xa3 => Diff(SrcB, Disj(Neg(SrcA), Diff(SrcB, SrcC)))
    case 0xa4 => Diff(SrcA, Conj(Neg(SrcC), Disj(SrcA, SrcB)))
    case 0xa5 => Neg(Diff(SrcA, SrcC))
    case 0xa6 => Diff(SrcC, Conj(Neg(SrcA), SrcB))
    case 0xa7 => Neg(Diff(SrcA, Conj(SrcC, Disj(SrcA, SrcB))))
    case 0xa8 => Conj(SrcC, Disj(SrcA, SrcB))
    case 0xa9 => Neg(Diff(SrcC, Disj(SrcA, SrcB)))
    case 0xaa => SrcC
    case 0xab => Disj(SrcC, Neg(Disj(SrcA, SrcB)))
    case 0xac => Diff(SrcB, Conj(SrcA, Diff(SrcB, SrcC)))
    case 0xad => Neg(Diff(SrcC, Disj(SrcA, Conj(SrcB, SrcC))))
    case 0xae => Disj(SrcC, Conj(Neg(SrcA), SrcB))
    case _ => Disj(Neg(SrcA), SrcC)
  }

  function FormulaB(mt: bv8): (f: Formula)
    requires 0xB0 <= mt <= 0xBF
    ensures forall a, b, c :: Holds(f, a, b, c) == Entry(mt, a, b, c)
  {
    match mt
    case 0xb0 => Conj(SrcA, Disj(Neg(SrcB), SrcC))
    case 0xb1 => Neg(Diff(SrcA, Disj(SrcC, Diff(SrcA, SrcB))))
    case 0xb2 => Diff(SrcA, Conj(Diff(SrcA, SrcC), Diff(SrcB, SrcC)))
    case 0xb3 => Disj(Neg(SrcB), Conj(SrcA, SrcC))
    case 0xb4 => Diff(SrcA, Conj(SrcB, Neg(SrcC)))
    case 0xb5 => Neg(Diff(SrcC, Conj(SrcA, Disj(SrcB, SrcC))))
    case 0xb6 => Diff(Diff(SrcA, SrcC), Disj(SrcB, Conj(SrcA, SrcC)))
    case 0xb7 => Neg(Conj(SrcB, Diff(SrcA, SrcC)))
    case 0xb8 => Diff(SrcA, Conj(SrcB, Diff(SrcA, SrcC)))
    case 0xb9 => Neg(Diff(SrcC, Disj(SrcB, Conj(SrcA, SrcC))))
    case 0xba => Disj(SrcC, Conj(SrcA, Neg(SrcB)))
    case 0xbb => Disj(Neg(SrcB), SrcC)
    case 0xbc => Disj(Diff(SrcA, SrcB), Conj(SrcA, SrcC))
    case 0xbd => Disj(Diff(SrcA, SrcB), Neg(Diff(SrcA, SrcC)))
    case 0xbe => Disj(SrcC, Diff(SrcA, SrcB))
    case _ => Disj(SrcC, Neg(Conj(SrcA, SrcB)))
  }

  function FormulaC(mt: bv8): (f: Formula)
    requires 0xC0 <= mt <= 0xCF
    ensures forall a, b, c :: Holds(f, a, b, c) == Entry(mt, a, b, c)
  {
    match mt
    case 0xc0 => Conj(SrcA, SrcB)
    case 0xc1 => Diff(SrcA, Conj(Neg(SrcB), Disj(SrcA, Neg(SrcC))))
    case 0xc2 => Diff(SrcA, Conj(Neg(SrcB), Disj(SrcA, SrcC)))
    case 0xc3 => Neg(Diff(SrcA, SrcB))
    case 0xc4 => Conj(SrcB, Disj(SrcA, Neg(SrcC)))
    case 0xc5 => Neg(Diff(SrcB, Disj(SrcA, Diff(SrcB, SrcC))))
    case 0xc6 => Diff(SrcB, Conj(Neg(SrcA), SrcC))
    case 0xc7 => Neg(Diff(SrcA, Conj(SrcB, Disj(SrcA, SrcC))))
    case 0xc8 => Conj(SrcB, Disj(SrcA, SrcC))
    case 0xc9 => Neg(Diff(SrcB, Disj(SrcA, SrcC)))
    case 0xca => Diff(SrcC, Conj(SrcA, Diff(SrcB, SrcC)))
    case 0xcb => Neg(Diff(SrcB, Disj(SrcA, Conj(SrcB, SrcC))))
    case 0xcc => SrcB
    case 0xcd => Disj(SrcB, Neg(Disj(SrcA, SrcC)))
    case 0xce => Disj(SrcB, Conj(Neg(SrcA), SrcC))
    case _ => Disj(Neg(SrcA), SrcB)
  }

  function FormulaD(mt: bv8): (f: Formula)
    requires 0xD0 <= mt <= 0xDF
    ensures forall a, b, c :: Holds(f, a, b, c) == Entry(mt, a, b, c)
  {
    match mt
    case 0xd0 => Conj(SrcA, Disj(SrcB, Neg(SrcC)))
    case 0xd1 => Neg(Diff(SrcA, Disj(SrcB, Diff(SrcA, SrcC))))
    case 0xd2 => Diff(SrcA, Conj(Neg(SrcB), SrcC))
    case 0xd3 => Neg(Diff(SrcB, Conj(SrcA, Disj(SrcB, SrcC))))
    case 0xd4 => Diff(SrcA, Conj(Diff(SrcA, SrcB), Diff(SrcB, SrcC)))
    case 0xd5 => Disj(Neg(SrcC), Conj(SrcA, SrcB))
    case 0xd6 => Diff(Diff(SrcA, SrcB), Disj(SrcC, Conj(SrcA, SrcB)))
    case 0xd7 => Neg(Conj(SrcC, Diff(SrcA, SrcB)))
    case 0xd8 => Diff(SrcA, Conj(SrcC, Diff(SrcA, SrcB)))
    case 0xd9 => Neg(Diff(SrcB, Disj(SrcC, Conj(SrcA, SrcB))))
    case 0xda => Disj(Conj(SrcA, SrcB), Diff(SrcA, SrcC))
    case 0xdb => Neg(Conj(Diff(SrcA, SrcB), Diff(SrcB, SrcC)))
    case 0xdc => Disj(SrcB, Conj(SrcA, Neg(SrcC)))
    case 0xdd => Disj(SrcB, Neg(SrcC))
    case 0xde => Disj(SrcB, Diff(SrcA, SrcC))
    case _ => Disj(SrcB, Neg(Conj(SrcA, SrcC)))
  }

  function FormulaE(mt: bv8): (f: Formula)
    requires 0xE0 <= mt <= 0xEF
    ensures forall a, b, c :: Holds(f, a, b, c) == Entry(mt, a, b, c)
  {
    match mt
    case 0xe0 => Conj(SrcA, Disj(SrcB, SrcC))
    case 0xe1 => Neg(Diff(SrcA, Disj(SrcB, SrcC)))
    case 0xe2 => Diff(SrcC, Conj(SrcB, Diff(SrcA, SrcC)))
    case 0xe3 => Neg(Diff(SrcA, Disj(SrcB, Conj(SrcA, SrcC))))
    case 0xe4 => Diff(SrcB, Conj(SrcC, Diff(SrcA, SrcB)))
    case 0xe5 => Neg(Diff(SrcA, Disj(SrcC, Conj(SrcA, SrcB))))
    case 0xe6 => Disj(Conj(SrcA, SrcB), Diff(SrcB, SrcC))
    case 0xe7 => Neg(Conj(Diff(SrcA, SrcB), Diff(SrcA, SrcC)))
    case 0xe8 => Diff(SrcA, Conj(Diff(SrcA, SrcB), Diff(SrcA, SrcC)))
    case 0xe9 => Diff(Diff(SrcA, SrcB), Disj(Neg(SrcC), Conj(SrcA, SrcB)))
    case 0xea => Disj(SrcC, Conj(SrcA, SrcB))
    case 0xeb => Disj(SrcC, Neg(Diff(SrcA, SrcB)))
    case 0xec => Disj(SrcB, Conj(SrcA, SrcC))
    case 0xed => Disj(SrcB, Neg(Diff(SrcA, SrcC)))
    case 0xee => Disj(SrcB, SrcC)
    case _ => Disj(Disj(Neg(SrcA), SrcB), SrcC)
  }

  function FormulaF(mt: bv8): (f: Formula)
    requires 0xF0 <= mt <= 0xFF
    ensures forall a, b, c :: Holds(f, a, b, c) == Entry(mt, a, b, c)
  {
    match mt
    case 0xf0 => SrcA
    case 0xf1 => Disj(SrcA, Neg(Disj(SrcB, SrcC)))
    case 0xf2 => Disj(SrcA, Conj(Neg(SrcB), SrcC))
    case 0xf3 => Disj(SrcA, Neg(SrcB))
    case 0xf4 => Disj(SrcA, Conj(SrcB, Neg(SrcC)))
    case 0xf5 => Disj(SrcA, Neg(SrcC))
    case 0xf6 => Disj(SrcA, Diff(SrcB, SrcC))
    case 0xf7 => Disj(SrcA, Neg(Conj(SrcB, SrcC)))
    case 0xf8 => Disj(SrcA, Conj(SrcB, SrcC))
    case 0xf9 => Disj(SrcA, Neg(Diff(SrcB, SrcC)))
    case 0xfa => Disj(SrcA, SrcC)
    case 0xfb => Disj(Disj(SrcA, Neg(SrcB)), SrcC)
    case 0xfc => Disj(SrcA, SrcB)
    case 0xfd => Disj(Disj(SrcA, SrcB), Neg(SrcC))
    case 0xfe => Disj(Disj(SrcA, SrcB), SrcC)
    case _ => Ones
  }

  /** The formula the emulator uses for a minterm byte has the byte as its truth
      table. */
  function BlitFormula(mt: bv8): (f: Formula)
    ensures forall a, b, c :: Holds(f, a, b, c) == Entry(mt, a, b, c)
  {
    if mt <= 0x0F then Formula0(mt)
    else if mt <= 0x1F then Formula1(mt)
    else if mt <= 0x2F then Formula2(mt)
    else if mt <= 0x3F then Formula3(mt)
    else if mt <= 0x4F then Formula4(mt)
    else if mt <= 0x5F then Formula5(mt)
    else if mt <= 0x6F then Formula6(mt)
    else if mt <= 0x7F then Formula7(mt)
    else if mt <= 0x8F then Formula8(mt)
    else if mt <= 0x9F then Formula9(mt)
    else if mt <= 0xAF then FormulaA(mt)
    else if mt <= 0xBF then FormulaB(mt)
    else if mt <= 0xCF then FormulaC(mt)
    else if mt <= 0xDF then FormulaD(mt)
    else if mt <= 0xEF then FormulaE(mt)
    else FormulaF(mt)
  }

  // ----- From bits to words -----

  lemma {:induction false} EvalBits(f: Formula, a: bv32, b: bv32, c: bv32, i: bv32)
    requires i < 32
    ensures Bit(Eval(f, a, b, c), i) == Holds(f, Bit(a, i), Bit(b, i), Bit(c, i))
  {
    hide Bit, BitNot, BitAnd, BitOr, BitXor;
    match f
    case Zero => BitOfConstants(i);
    case Ones => BitOfConstants(i);
    case SrcA =>
    case SrcB =>
    case SrcC =>
    case Not(g) =>
      EvalBits(g, a, b, c, i);
      BitOfNot(Eval(g, a, b, c), i);
    case And(g, h) =>
      EvalBits(g, a, b, c, i);
      EvalBits(h, a, b, c, i);
      BitOfAnd(Eval(g, a, b, c), Eval(h, a, b, c), i);
    case Or(g, h) =>
      EvalBits(g, a, b, c, i);
      EvalBits(h, a, b, c, i);
      BitOfOr(Eval(g, a, b, c), Eval(h, a, b, c), i);
    case Xor(g, h) =>
      EvalBits(g, a, b, c, i);
      EvalBits(h, a, b, c, i);
      BitOfXor(Eval(g, a, b, c), Eval(h, a, b, c), i);
  }

  lemma TermBit(on: bool, a: Word, b: Word, c: Word, i: bv32)
    requires i < 16
    ensures WordBit(Term(on, a, b, c), i) == (on && WordBit(a, i) && WordBit(b, i) && WordBit(c, i))
  {
  }

  lemma AnyOfBit(a: Word, b: Word, c: Word, d: Word, e: Word, f: Word, g: Word, h: Word, i: bv32)
    requires i < 16
    ensures WordBit(AnyOf(a, b, c, d, e, f, g, h), i)
         == (WordBit(a, i) || WordBit(b, i) || WordBit(c, i) || WordBit(d, i)
             || WordBit(e, i) || WordBit(f, i) || WordBit(g, i) || WordBit(h, i))
  {
    LaneOfSum(a, b, c, d, e, f, g, h, i);
    hide WordBit;
  }

  lemma LaneOfSum(a: Word, b: Word, c: Word, d: Word, e: Word, f: Word, g: Word, h: Word, i: bv32)
    requires i < 16
    ensures WordBit(a | b | c | d | e | f | g | h, i)
         == (WordBit(a, i) || WordBit(b, i) || WordBit(c, i) || WordBit(d, i)
             || WordBit(e, i) || WordBit(f, i) || WordBit(g, i) || WordBit(h, i))
  {
  }

  lemma MintermBits(mt: bv8, a: Word, b: Word, c: Word, i: bv32)
    requires i < 16
    ensures WordBit(Minterm(mt, a, b, c), i) == Entry(mt, WordBit(a, i), WordBit(b, i), WordBit(c, i))
  {
    hide WordBit, Term, AnyOf;
    TermBit(mt & 0x80 != 0, a, b, c, i);
    TermBit(mt & 0x40 != 0, a, b, !c, i);
    TermBit(mt & 0x20 != 0, a, !b, c, i);
    TermBit(mt & 0x10 != 0, a, !b, !c, i);
    TermBit(mt & 0x08 != 0, !a, b, c, i);
    TermBit(mt & 0x04 != 0, !a, b, !c, i);
    TermBit(mt & 0x02 != 0, !a, !b, c, i);
    TermBit(mt & 0x01 != 0, !a, !b, !c, i);
    WordBitOfNot(a, i);
    WordBitOfNot(b, i);
    WordBitOfNot(c, i);
    AnyOfBit(
      Term(mt & 0x80 != 0, a, b, c), Term(mt & 0x40 != 0, a, b, !c),
      Term(mt & 0x20 != 0, a, !b, c), Term(mt & 0x10 != 0, a, !b, !c),
      Term(mt & 0x08 != 0, !a, b, c), Term(mt & 0x04 != 0, !a, b, !c),
      Term(mt & 0x02 != 0, !a, !b, c), Term(mt & 0x01 != 0, !a, !b, !c), i);
  }

  lemma LowBit(x: bv32, i: bv32)
    requires i < 16
    ensures WordBit(Low(x), i) == Bit(x, i)
  {
  }

  /** The low half of every reduced formula is the minterm of the low halves. */
  lemma BlitFormulaIsMinterm(mt: bv8, a: bv32, b: bv32, c: bv32)
    ensures Low(Eval(BlitFormula(mt), a, b, c)) == Minterm(mt, Low(a), Low(b), Low(c))
  {
    hide WordBit, Bit, Low, Minterm, Eval, BlitFormula, Entry;
    var x, y := Low(Eval(BlitFormula(mt), a, b, c)), Minterm(mt, Low(a), Low(b), Low(c));
    forall i: bv32 | i < 16
      ensures WordBit(x, i) == WordBit(y, i)
    {
      EvalBits(BlitFormula(mt), a, b, c, i);
      LowBit(Eval(BlitFormula(mt), a, b, c), i);
      LowBit(a, i);
      LowBit(b, i);
      LowBit(c, i);
      MintermBits(mt, Low(a), Low(b), Low(c), i);
    }
    SameBits(x, y);
  }

  function Widen(w: Word): bv32 {
    w as bv32
  }

  lemma LowOfWide(w: Word)
    ensures Low(Widen(w)) == w
  {
  }

  /** The destination word: the low half of the formula's value. */
  function Logic(mt: bv8, a: bv32, b: bv32, c: Word): Word {
    Low(Eval(BlitFormula(mt), a, b, Widen(c)))
  }

  lemma LogicIsMinterm(mt: bv8, a: bv32, b: bv32, c: Word)
    ensures Logic(mt, a, b, c) == Minterm(mt, Low(a), Low(b), c)
  {
    BlitFormulaIsMinterm(mt, a, b, Widen(c));
    LowOfWide(c);
    hide BlitFormula, Low, Minterm, Widen;
  }

  // ----- Specialised loops -----

  /** Minterms that the dispatch tables send to a loop of their own. */
  predicate Dispatched(mt: bv8) {
    mt in {0x00, 0x0a, 0x2a, 0x30, 0x3a, 0x3c, 0x4a, 0x6a, 0x8a, 0x8c, 0x9a,
           0xa8, 0xaa, 0xb1, 0xca, 0xcc, 0xd8, 0xe2, 0xea, 0xf0, 0xfa, 0xfc}
  }

  /** Sources such a loop reads; it leaves the others out altogether. */
  predicate ReadsA(mt: bv8) {
    mt !in {0x00, 0xaa, 0xcc}
  }

  predicate ReadsB(mt: bv8) {
    mt !in {0x00, 0x0a, 0xaa, 0xf0, 0xfa}
  }

  predicate ReadsC(mt: bv8) {
    mt !in {0x00, 0x30, 0x3c, 0xcc, 0xf0, 0xfc}
  }

  lemma UnreadSourcesDoNotMatter(mt: bv8, a: Word, b: Word, c: Word, a': Word, b': Word, c': Word)
    requires Dispatched(mt)
    requires ReadsA(mt) ==> a == a'
    requires ReadsB(mt) ==> b == b'
    requires ReadsC(mt) ==> c == c'
    ensures Minterm(mt, a, b, c) == Minterm(mt, a', b', c')
  {
    hide WordBit, Minterm;
    forall i: bv32 | i < 16
      ensures WordBit(Minterm(mt, a, b, c), i) == WordBit(Minterm(mt, a', b', c'), i)
    {
      MintermBits(mt, a, b, c, i);
      MintermBits(mt, a', b', c', i);
    }
    SameBits(Minterm(mt, a, b, c), Minterm(mt, a', b', c'));
  }
}
