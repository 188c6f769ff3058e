/** The error detection code of a data sector: a 32-bit CRC taken a byte at a time
    through a table, lowest bit first. */
module ErrorDetection {
  import opened Gf256

  type Register = bv32

  // ----- The table -----

  function Table0(i: Register): Register
    requires 0x00 <= i <= 0x0f
  {
    match i
    case 0x00 => 0x00000000 case 0x01 => 0x90910101 case 0x02 => 0x91210201 case 0x03 => 0x01b00300
    case 0x04 => 0x92410401 case 0x05 => 0x02d00500 case 0x06 => 0x03600600 case 0x07 => 0x93f10701
    case 0x08 => 0x94810801 case 0x09 => 0x04100900 case 0x0a => 0x05a00a00 case 0x0b => 0x95310b01
    case 0x0c => 0x06c00c00 case 0x0d => 0x96510d01 case 0x0e => 0x97e10e01 case _ => 0x07700f00
  }

  function Table1(i: Register): Register
    requires 0x10 <= i <= 0x1f
  {
    match i
    case 0x10 => 0x99011001 case 0x11 => 0x09901100 case 0x12 => 0x08201200 case 0x13 => 0x98b11301
    case 0x14 => 0x0b401400 case 0x15 => 0x9bd11501 case 0x16 => 0x9a611601 case 0x17 => 0x0af01700
    case 0x18 => 0x0d801800 case 0x19 => 0x9d111901 case 0x1a => 0x9ca11a01 case 0x1b => 0x0c301b00
    case 0x1c => 0x9fc11c01 case 0x1d => 0x0f501d00 case 0x1e => 0x0ee01e00 case _ => 0x9e711f01
  }

  function Table2(i: Register): Register
    requires 0x20 <= i <= 0x2f
  {
    match i
    case 0x20 => 0x82012001 case 0x21 => 0x12902100 case 0x22 => 0x13202200 case 0x23 => 0x83b12301
    case 0x24 => 0x10402400 case 0x25 => 0x80d12501 case 0x26 => 0x81612601 case 0x27 => 0x11f02700
    case 0x28 => 0x16802800 case 0x29 => 0x86112901 case 0x2a => 0x87a12a01 case 0x2b => 0x17302b00
    case 0x2c => 0x84c12c01 case 0x2d => 0x14502d00 case 0x2e => 0x15e02e00 case _ => 0x85712f01
  }

  function Table3(i: Register): Register
    requires 0x30 <= i <= 0x3f
  {
    match i
    case 0x30 => 0x1b003000 case 0x31 => 0x8b913101 case 0x32 => 0x8a213201 case 0x33 => 0x1ab03300
    case 0x34 => 0x89413401 case 0x35 => 0x19d03500 case 0x36 => 0x18603600 case 0x37 => 0x88f13701
    case 0x38 => 0x8f813801 case 0x39 => 0x1f103900 case 0x3a => 0x1ea03a00 case 0x3b => 0x8e313b01
    case 0x3c => 0x1dc03c00 case 0x3d => 0x8d513d01 case 0x3e => 0x8ce13e01 case _ => 0x1c703f00
  }

  function Table4(i: Register): Register
    requires 0x40 <= i <= 0x4f
  {
    match i
    case 0x40 => 0xb4014001 case 0x41 => 0x24904100 case 0x42 => 0x25204200 case 0x43 => 0xb5b14301
    case 0x44 => 0x26404400 case 0x45 => 0xb6d14501 case 0x46 => 0xb7614601 case 0x47 => 0x27f04700
    case 0x48 => 0x20804800 case 0x49 => 0xb0114901 case 0x4a => 0xb1a14a01 case 0x4b => 0x21304b00
    case 0x4c => 0xb2c14c01 case 0x4d => 0x22504d00 case 0x4e => 0x23e04e00 case _ => 0xb3714f01
  }

  function Table5(i: Register): Register
    requires 0x50 <= i <= 0x5f
  {
    match i
    case 0x50 => 0x2d005000 case 0x51 => 0xbd915101 case 0x52 => 0xbc215201 case 0x53 => 0x2cb05300
    case 0x54 => 0xbf415401 case 0x55 => 0x2fd05500 case 0x56 => 0x2e605600 case 0x57 => 0xbef15701
    case 0x58 => 0xb9815801 case 0x59 => 0x29105900 case 0x5a => 0x28a05a00 case 0x5b => 0xb8315b01
    case 0x5c => 0x2bc05c00 case 0x5d => 0xbb515d01 case 0x5e => 0xbae15e01 case _ => 0x2a705f00
  }

  function Table6(i: Register): Register
    requires 0x60 <= i <= 0x6f
  {
    match i
    case 0x60 => 0x36006000 case 0x61 => 0xa6916101 case 0x62 => 0xa7216201 case 0x63 => 0x37b06300
    case 0x64 => 0xa4416401 case 0x65 => 0x34d06500 case 0x66 => 0x35606600 case 0x67 => 0xa5f16701
    case 0x68 => 0xa2816801 case 0x69 => 0x32106900 case 0x6a => 0x33a06a00 case 0x6b => 0xa3316b01
    case 0x6c => 0x30c06c00 case 0x6d => 0xa0516d01 case 0x6e => 0xa1e16e01 case _ => 0x31706f00
  }

  function Table7(i: Register): Register
    requires 0x70 <= i <= 0x7f
  {
    match i
    case 0x70 => 0xaf017001 case 0x71 => 0x3f907100 case 0x72 => 0x3e207200 case 0x73 => 0xaeb17301
    case 0x74 => 0x3d407400 case 0x75 => 0xadd17501 case 0x76 => 0xac617601 case 0x77 => 0x3cf07700
    case 0x78 => 0x3b807800 case 0x79 => 0xab117901 case 0x7a => 0xaaa17a01 case 0x7b => 0x3a307b00
    case 0x7c => 0xa9c17c01 case 0x7d => 0x39507d00 case 0x7e => 0x38e07e00 case _ => 0xa8717f01
  }

  function Table8(i: Register): Register
    requires 0x80 <= i <= 0x8f
  {
    match i
    case 0x80 => 0xd8018001 case 0x81 => 0x48908100 case 0x82 => 0x49208200 case 0x83 => 0xd9b18301
    case 0x84 => 0x4a408400 case 0x85 => 0xdad18501 case 0x86 => 0xdb618601 case 0x87 => 0x4bf08700
    case 0x88 => 0x4c808800 case 0x89 => 0xdc118901 case 0x8a => 0xdda18a01 case 0x8b => 0x4d308b00
    case 0x8c => 0xdec18c01 case 0x8d => 0x4e508d00 case 0x8e => 0x4fe08e00 case _ => 0xdf718f01
  }

  function Table9(i: Register): Register
    requires 0x90 <= i <= 0x9f
  {
    match i
    case 0x90 => 0x41009000 case 0x91 => 0xd1919101 case 0x92 => 0xd0219201 case 0x93 => 0x40b09300
    case 0x94 => 0xd3419401 case 0x95 => 0x43d09500 case 0x96 => 0x42609600 case 0x97 => 0xd2f19701
    case 0x98 => 0xd5819801 case 0x99 => 0x45109900 case 0x9a => 0x44a09a00 case 0x9b => 0xd4319b01
    case 0x9c => 0x47c09c00 case 0x9d => 0xd7519d01 case 0x9e => 0xd6e19e01 case _ => 0x46709f00
  }

  function TableA(i: Register): Register
    requires 0xa0 <= i <= 0xaf
  {
    match i
    case 0xa0 => 0x5a00a000 case 0xa1 => 0xca91a101 case 0xa2 => 0xcb21a201 case 0xa3 => 0x5bb0a300
    case 0xa4 => 0xc841a401 case 0xa5 => 0x58d0a500 case 0xa6 => 0x5960a600 case 0xa7 => 0xc9f1a701
    case 0xa8 => 0xce81a801 case 0xa9 => 0x5e10a900 case 0xaa => 0x5fa0aa00 case 0xab => 0xcf31ab01
    case 0xac => 0x5cc0ac00 case 0xad => 0xcc51ad01 case 0xae => 0xcde1ae01 case _ => 0x5d70af00
  }

  function TableB(i: Register): Register
    requires 0xb0 <= i <= 0xbf
  {
    match i
    case 0xb0 => 0xc301b001 case 0xb1 => 0x5390b100 case 0xb2 => 0x5220b200 case 0xb3 => 0xc2b1b301
    case 0xb4 => 0x5140b400 case 0xb5 => 0xc1d1b501 case 0xb6 => 0xc061b601 case 0xb7 => 0x50f0b700
    case 0xb8 => 0x5780b800 case 0xb9 => 0xc711b901 case 0xba => 0xc6a1ba01 case 0xbb => 0x5630bb00
    case 0xbc => 0xc5c1bc01 case 0xbd => 0x5550bd00 case 0xbe => 0x54e0be00 case _ => 0xc471bf01
  }

  function TableC(i: Register): Register
    requires 0xc0 <= i <= 0xcf
  {
    match i
    case 0xc0 => 0x6c00c000 case 0xc1 => 0xfc91c101 case 0xc2 => 0xfd21c201 case 0xc3 => 0x6db0c300
    case 0xc4 => 0xfe41c401 case 0xc5 => 0x6ed0c500 case 0xc6 => 0x6f60c600 case 0xc7 => 0xfff1c701
    case 0xc8 => 0xf881c801 case 0xc9 => 0x6810c900 case 0xca => 0x69a0ca00 case 0xcb => 0xf931cb01
    case 0xcc => 0x6ac0cc00 case 0xcd => 0xfa51cd01 case 0xce => 0xfbe1ce01 case _ => 0x6b70cf00
  }

  function TableD(i: Register): Register
    requires 0xd0 <= i <= 0xdf
  {
    match i
    case 0xd0 => 0xf501d001 case 0xd1 => 0x6590d100 case 0xd2 => 0x6420d200 case 0xd3 => 0xf4b1d301
    case 0xd4 => 0x6740d400 case 0xd5 => 0xf7d1d501 case 0xd6 => 0xf661d601 case 0xd7 => 0x66f0d700
    case 0xd8 => 0x6180d800 case 0xd9 => 0xf111d901 case 0xda => 0xf0a1da01 case 0xdb => 0x6030db00
    case 0xdc => 0xf3c1dc01 case 0xdd => 0x6350dd00 case 0xde => 0x62e0de00 case _ => 0xf271df01
  }

  function TableE(i: Register): Register
    requires 0xe0 <= i <= 0xef
  {
    match i
    case 0xe0 => 0xee01e001 case 0xe1 => 0x7e90e100 case 0xe2 => 0x7f20e200 case 0xe3 => 0xefb1e301
    case 0xe4 => 0x7c40e400 case 0xe5 => 0xecd1e501 case 0xe6 => 0xed61e601 case 0xe7 => 0x7df0e700
    case 0xe8 => 0x7a80e800 case 0xe9 => 0xea11e901 case 0xea => 0xeba1ea01 case 0xeb => 0x7b30eb00
    case 0xec => 0xe8c1ec01 case 0xed => 0x7850ed00 case 0xee => 0x79e0ee00 case _ => 0xe971ef01
  }

  function TableF(i: Register): Register
    requires 0xf0 <= i <= 0xff
  {
    match i
    case 0xf0 => 0x7700f000 case 0xf1 => 0xe791f101 case 0xf2 => 0xe621f201 case 0xf3 => 0x76b0f300
    case 0xf4 => 0xe541f401 case 0xf5 => 0x75d0f500 case 0xf6 => 0x7460f600 case 0xf7 => 0xe4f1f701
    case 0xf8 => 0xe381f801 case 0xf9 => 0x7310f900 case 0xfa => 0x72a0fa00 case 0xfb => 0xe231fb01
    case 0xfc => 0x71c0fc00 case 0xfd => 0xe151fd01 case 0xfe => 0xe0e1fe01 case _ => 0x7070ff00
  }

  function Table(i: Register): Register
    requires i <= 0xFF
  {
    if i <= 0x0f then Table0(i)
    else if i <= 0x1f then Table1(i)
    else if i <= 0x2f then Table2(i)
    else if i <= 0x3f then Table3(i)
    else if i <= 0x4f then Table4(i)
    else if i <= 0x5f then Table5(i)
    else if i <= 0x6f then Table6(i)
    else if i <= 0x7f then Table7(i)
    else if i <= 0x8f then Table8(i)
    else if i <= 0x9f then Table9(i)
    else if i <= 0xaf then TableA(i)
    else if i <= 0xbf then TableB(i)
    else if i <= 0xcf then TableC(i)
    else if i <= 0xdf then TableD(i)
    else if i <= 0xef then TableE(i)
    else TableF(i)
  }

  /** What the encoder does with one byte. */
  function TableStep(r: Register, b: Byte): Register {
    Plus(Table(LowByte(Plus(r, Wide(b)))), ShiftByte(r))
  }

  function Plus(a: Register, b: Register): Register {
    a ^ b
  }

  function Wide(b: Byte): (w: Register)
    ensures w <= 0xFF
  {
    b as bv32
  }

  function LowByte(r: Register): (b: Register)
    ensures b <= 0xFF
  {
    r & 0xFF
  }

  function ShiftByte(r: Register): Register {
    r >> 8
  }

  // ----- The code, bit by bit -----

  /** Divides by x once; the reflected polynomial comes in when a bit falls out. */
  function BitStep(r: Register): Register {
    (r >> 1) ^ (if r & 1 != 0 then 0xD8018001 else 0)
  }

  function FourSteps(r: Register): Register {
    BitStep(BitStep(BitStep(BitStep(r))))
  }

  function EightSteps(r: Register): Register {
    FourSteps(FourSteps(r))
  }

  /** One byte enters at the low end of the register and is shifted through. */
  function ByteStep(r: Register, b: Byte): Register {
    EightSteps(Plus(r, Wide(b)))
  }

  /** The register after a message, started at r. */
  function CodeFrom(r: Register, s: seq<Byte>): Register {
    if |s| == 0 then r else ByteStep(CodeFrom(r, s[..|s| - 1]), s[|s| - 1])
  }

  function Code(s: seq<Byte>): Register {
    CodeFrom(0, s)
  }

  // ----- The table takes eight steps at once -----

  function LowNibble(i: Register): (n: Register)
    ensures n <= 0xF
  {
    i & 0xF
  }

  lemma Row1(i: Register)
    requires 0x10 <= i <= 0x1f
    ensures Table1(i) == Plus(Table1(0x10), Table0(LowNibble(i))) && i == Plus(0x10, LowNibble(i))
  {
    assert i == Plus(0x10, LowNibble(i));
    if i & 8 != 0 {
      if i & 4 != 0 {
      }
    } else if i & 4 != 0 {
    }
  }

  lemma Corner1()
    ensures Table1(0x10) == EightSteps(0x10)
  {
  }

  lemma Row2(i: Register)
    requires 0x20 <= i <= 0x2f
    ensures Table2(i) == Plus(Table2(0x20), Table0(LowNibble(i))) && i == Plus(0x20, LowNibble(i))
  {
    assert i == Plus(0x20, LowNibble(i));
    if i & 8 != 0 {
      if i & 4 != 0 {
      }
    } else if i & 4 != 0 {
    }
  }

  lemma Corner2()
    ensures Table2(0x20) == EightSteps(0x20)
  {
  }

  lemma Row3(i: Register)
    requires 0x30 <= i <= 0x3f
    ensures Table3(i) == Plus(Table3(0x30), Table0(LowNibble(i))) && i == Plus(0x30, LowNibble(i))
  {
    assert i == Plus(0x30, LowNibble(i));
    if i & 8 != 0 {
      if i & 4 != 0 {
      }
    } else if i & 4 != 0 {
    }
  }

  lemma Corner3()
    ensures Table3(0x30) == EightSteps(0x30)
  {
  }

  lemma Row4(i: Register)
    requires 0x40 <= i <= 0x4f
    ensures Table4(i) == Plus(Table4(0x40), Table0(LowNibble(i))) && i == Plus(0x40, LowNibble(i))
  {
    assert i == Plus(0x40, LowNibble(i));
    if i & 8 != 0 {
      if i & 4 != 0 {
      }
    } else if i & 4 != 0 {
    }
  }

  lemma Corner4()
    ensures Table4(0x40) == EightSteps(0x40)
  {
  }

  lemma Row5(i: Register)
    requires 0x50 <= i <= 0x5f
    ensures Table5(i) == Plus(Table5(0x50), Table0(LowNibble(i))) && i == Plus(0x50, LowNibble(i))
  {
    assert i == Plus(0x50, LowNibble(i));
    if i & 8 != 0 {
      if i & 4 != 0 {
      }
    } else if i & 4 != 0 {
    }
  }

  lemma Corner5()
    ensures Table5(0x50) == EightSteps(0x50)
  {
  }

  lemma Row6(i: Register)
    requires 0x60 <= i <= 0x6f
    ensures Table6(i) == Plus(Table6(0x60), Table0(LowNibble(i))) && i == Plus(0x60, LowNibble(i))
  {
    assert i == Plus(0x60, LowNibble(i));
    if i & 8 != 0 {
      if i & 4 != 0 {
      }
    } else if i & 4 != 0 {
    }
  }

  lemma Corner6()
    ensures Table6(0x60) == EightSteps(0x60)
  {
  }

  lemma Row7(i: Register)
    requires 0x70 <= i <= 0x7f
    ensures Table7(i) == Plus(Table7(0x70), Table0(LowNibble(i))) && i == Plus(0x70, LowNibble(i))
  {
    assert i == Plus(0x70, LowNibble(i));
    if i & 8 != 0 {
      if i & 4 != 0 {
      }
    } else if i & 4 != 0 {
    }
  }

  lemma Corner7()
    ensures Table7(0x70) == EightSteps(0x70)
  {
  }

  lemma Row8(i: Register)
    requires 0x80 <= i <= 0x8f
    ensures Table8(i) == Plus(Table8(0x80), Table0(LowNibble(i))) && i == Plus(0x80, LowNibble(i))
  {
    assert i == Plus(0x80, LowNibble(i));
    if i & 8 != 0 {
      if i & 4 != 0 {
      }
    } else if i & 4 != 0 {
    }
  }

  lemma Corner8()
    ensures Table8(0x80) == EightSteps(0x80)
  {
  }

  lemma Row9(i: Register)
    requires 0x90 <= i <= 0x9f
    ensures Table9(i) == Plus(Table9(0x90), Table0(LowNibble(i))) && i == Plus(0x90, LowNibble(i))
  {
    assert i == Plus(0x90, LowNibble(i));
    if i & 8 != 0 {
      if i & 4 != 0 {
      }
    } else if i & 4 != 0 {
    }
  }

  lemma Corner9()
    ensures Table9(0x90) == EightSteps(0x90)
  {
  }

  lemma RowA(i: Register)
    requires 0xa0 <= i <= 0xaf
    ensures TableA(i) == Plus(TableA(0xa0), Table0(LowNibble(i))) && i == Plus(0xa0, LowNibble(i))
  {
    assert i == Plus(0xa0, LowNibble(i));
    if i & 8 != 0 {
      if i & 4 != 0 {
      }
    } else if i & 4 != 0 {
    }
  }

  lemma CornerA()
    ensures TableA(0xa0) == EightSteps(0xa0)
  {
  }

  lemma RowB(i: Register)
    requires 0xb0 <= i <= 0xbf
    ensures TableB(i) == Plus(TableB(0xb0), Table0(LowNibble(i))) && i == Plus(0xb0, LowNibble(i))
  {
    assert i == Plus(0xb0, LowNibble(i));
    if i & 8 != 0 {
      if i & 4 != 0 {
      }
    } else if i & 4 != 0 {
    }
  }

  lemma CornerB()
    ensures TableB(0xb0) == EightSteps(0xb0)
  {
  }

  lemma RowC(i: Register)
    requires 0xc0 <= i <= 0xcf
    ensures TableC(i) == Plus(TableC(0xc0), Table0(LowNibble(i))) && i == Plus(0xc0, LowNibble(i))
  {
    assert i == Plus(0xc0, LowNibble(i));
    if i & 8 != 0 {
      if i & 4 != 0 {
      }
    } else if i & 4 != 0 {
    }
  }

  lemma CornerC()
    ensures TableC(0xc0) == EightSteps(0xc0)
  {
  }

  lemma RowD(i: Register)
    requires 0xd0 <= i <= 0xdf
    ensures TableD(i) == Plus(TableD(0xd0), Table0(LowNibble(i))) && i == Plus(0xd0, LowNibble(i))
  {
    assert i == Plus(0xd0, LowNibble(i));
    if i & 8 != 0 {
      if i & 4 != 0 {
      }
    } else if i & 4 != 0 {
    }
  }

  lemma CornerD()
    ensures TableD(0xd0) == EightSteps(0xd0)
  {
  }

  lemma RowE(i: Register)
    requires 0xe0 <= i <= 0xef
    ensures TableE(i) == Plus(TableE(0xe0), Table0(LowNibble(i))) && i == Plus(0xe0, LowNibble(i))
  {
    assert i == Plus(0xe0, LowNibble(i));
    if i & 8 != 0 {
      if i & 4 != 0 {
      }
    } else if i & 4 != 0 {
    }
  }

  lemma CornerE()
    ensures TableE(0xe0) == EightSteps(0xe0)
  {
  }

  lemma RowF(i: Register)
    requires 0xf0 <= i <= 0xff
    ensures TableF(i) == Plus(TableF(0xf0), Table0(LowNibble(i))) && i == Plus(0xf0, LowNibble(i))
  {
    assert i == Plus(0xf0, LowNibble(i));
    if i & 8 != 0 {
      if i & 4 != 0 {
      }
    } else if i & 4 != 0 {
    }
  }

  lemma CornerF()
    ensures TableF(0xf0) == EightSteps(0xf0)
  {
  }

  lemma CornerZero()
    ensures Table0(0) == EightSteps(0)
  {
  }

  lemma CornerOne()
    ensures Table0(1) == EightSteps(1)
  {
  }

  lemma CornerTwo()
    ensures Table0(2) == EightSteps(2)
  {
  }

  lemma CornerFour()
    ensures Table0(4) == EightSteps(4)
  {
  }

  lemma CornerEight()
    ensures Table0(8) == EightSteps(8)
  {
  }

  lemma LowRowTwo(i: Register)
    requires 2 <= i <= 3
    ensures (i ^ 2) < 2 && i == Plus(2, i ^ 2) && Table0(i) == Plus(Table0(2), Table0(i ^ 2))
  {
  }

  lemma LowRowFour(i: Register)
    requires 4 <= i <= 7
    ensures (i ^ 4) < 4 && i == Plus(4, i ^ 4) && Table0(i) == Plus(Table0(4), Table0(i ^ 4))
  {
  }

  lemma LowRowEight(i: Register)
    requires 8 <= i <= 15
    ensures (i ^ 8) < 8 && i == Plus(8, i ^ 8) && Table0(i) == Plus(Table0(8), Table0(i ^ 8))
  {
  }

  // ----- Steps are additive -----

  function Half(r: Register): Register {
    r >> 1
  }

  predicate Odd(r: Register) {
    r & 1 != 0
  }

  function Feedback(odd: bool): Register {
    if odd then 0xD8018001 else 0
  }

  lemma HalfOfSum(a: Register, b: Register)
    ensures Half(Plus(a, b)) == Plus(Half(a), Half(b))
  {
  }

  lemma OddOfSum(a: Register, b: Register)
    ensures Odd(Plus(a, b)) == (Odd(a) != Odd(b))
  {
  }

  lemma Associate(a: Register, b: Register, c: Register)
    ensures Plus(Plus(a, b), c) == Plus(a, Plus(b, c))
  {
  }

  lemma Commute(a: Register, b: Register)
    ensures Plus(a, b) == Plus(b, a)
  {
  }

  lemma Exchange(a: Register, b: Register, c: Register, d: Register)
    ensures Plus(Plus(a, b), Plus(c, d)) == Plus(Plus(a, c), Plus(b, d))
  {
    hide Plus;
    Associate(a, b, Plus(c, d));
    Associate(b, c, d);
    Commute(b, c);
    Associate(c, b, d);
    Associate(a, c, Plus(b, d));
  }

  lemma BitStepParts(r: Register)
    ensures BitStep(r) == Plus(Half(r), Feedback(Odd(r)))
  {
    if r & 1 != 0 {
      assert Feedback(Odd(r)) == 0xD8018001;
    } else {
      assert Feedback(Odd(r)) == 0;
    }
  }

  lemma FeedbackOfSum(p: bool, q: bool)
    ensures Feedback(p != q) == Plus(Feedback(p), Feedback(q))
  {
  }

  lemma BitStepOfSum(a: Register, b: Register)
    ensures BitStep(Plus(a, b)) == Plus(BitStep(a), BitStep(b))
  {
    hide BitStep, Plus, Half, Odd, Feedback;
    BitStepParts(a);
    BitStepParts(b);
    BitStepParts(Plus(a, b));
    HalfOfSum(a, b);
    OddOfSum(a, b);
    FeedbackOfSum(Odd(a), Odd(b));
    Exchange(Half(a), Half(b), Feedback(Odd(a)), Feedback(Odd(b)));
  }

  lemma FourStepsOfSum(a: Register, b: Register)
    ensures FourSteps(Plus(a, b)) == Plus(FourSteps(a), FourSteps(b))
  {
    hide BitStep, Plus;
    BitStepOfSum(a, b);
    BitStepOfSum(BitStep(a), BitStep(b));
    BitStepOfSum(BitStep(BitStep(a)), BitStep(BitStep(b)));
    BitStepOfSum(BitStep(BitStep(BitStep(a))), BitStep(BitStep(BitStep(b))));
  }

  lemma EightStepsOfSum(a: Register, b: Register)
    ensures EightSteps(Plus(a, b)) == Plus(EightSteps(a), EightSteps(b))
  {
    hide FourSteps, Plus;
    FourStepsOfSum(a, b);
    FourStepsOfSum(FourSteps(a), FourSteps(b));
  }

  lemma LowTableIsEightSteps(i: Register)
    requires i <= 0xF
    ensures Table0(i) == EightSteps(i)
    decreases i as int
  {
    if i <= 1 {
      CornerZero();
      CornerOne();
    } else if i <= 3 {
      LowRowTwo(i);
      hide Table0, EightSteps, Plus;
      CornerTwo();
      LowTableIsEightSteps(i ^ 2);
      EightStepsOfSum(2, i ^ 2);
    } else if i <= 7 {
      LowRowFour(i);
      hide Table0, EightSteps, Plus;
      CornerFour();
      LowTableIsEightSteps(i ^ 4);
      EightStepsOfSum(4, i ^ 4);
    } else {
      LowRowEight(i);
      hide Table0, EightSteps, Plus;
      CornerEight();
      LowTableIsEightSteps(i ^ 8);
      EightStepsOfSum(8, i ^ 8);
    }
  }

  /** Entry i of the table is i after eight single steps. */
  lemma TableIsEightSteps(i: Register)
    requires i <= 0xFF
    ensures Table(i) == EightSteps(i)
  {
    hide EightSteps, LowNibble, Plus, Table0, Table1, Table2, Table3, Table4, Table5, Table6, Table7;
    hide Table8, Table9, TableA, TableB, TableC, TableD, TableE, TableF;
    if i <= 0xF {
      LowTableIsEightSteps(i);
    } else {
      LowTableIsEightSteps(LowNibble(i));
      if i <= 0x1f {
        Row1(i);
        Corner1();
        EightStepsOfSum(0x10, LowNibble(i));
      } else if i <= 0x2f {
        Row2(i);
        Corner2();
        EightStepsOfSum(0x20, LowNibble(i));
      } else if i <= 0x3f {
        Row3(i);
        Corner3();
        EightStepsOfSum(0x30, LowNibble(i));
      } else if i <= 0x4f {
        Row4(i);
        Corner4();
        EightStepsOfSum(0x40, LowNibble(i));
      } else if i <= 0x5f {
        Row5(i);
        Corner5();
        EightStepsOfSum(0x50, LowNibble(i));
      } else if i <= 0x6f {
        Row6(i);
        Corner6();
        EightStepsOfSum(0x60, LowNibble(i));
      } else if i <= 0x7f {
        Row7(i);
        Corner7();
        EightStepsOfSum(0x70, LowNibble(i));
      } else if i <= 0x8f {
        Row8(i);
        Corner8();
        EightStepsOfSum(0x80, LowNibble(i));
      } else if i <= 0x9f {
        Row9(i);
        Corner9();
        EightStepsOfSum(0x90, LowNibble(i));
      } else if i <= 0xaf {
        RowA(i);
        CornerA();
        EightStepsOfSum(0xa0, LowNibble(i));
      } else if i <= 0xbf {
        RowB(i);
        CornerB();
        EightStepsOfSum(0xb0, LowNibble(i));
      } else if i <= 0xcf {
        RowC(i);
        CornerC();
        EightStepsOfSum(0xc0, LowNibble(i));
      } else if i <= 0xdf {
        RowD(i);
        CornerD();
        EightStepsOfSum(0xd0, LowNibble(i));
      } else if i <= 0xef {
        RowE(i);
        CornerE();
        EightStepsOfSum(0xe0, LowNibble(i));
      } else {
        RowF(i);
        CornerF();
        EightStepsOfSum(0xf0, LowNibble(i));
      }
    }
  }

  function HighBytes(r: Register): Register {
    (r >> 8) << 8
  }

  lemma HighBytesJustShift(r: Register)
    ensures EightSteps(HighBytes(r)) == ShiftByte(r)
  {
  }

  lemma SplitLowByte(r: Register, w: Register)
    requires w <= 0xFF
    ensures r ^ w == ((r ^ w) & 0xFF) ^ ((r >> 8) << 8)
  {
  }

  lemma SplitRegister(r: Register, w: Register)
    requires w <= 0xFF
    ensures Plus(r, w) == Plus(LowByte(Plus(r, w)), HighBytes(r))
  {
    SplitLowByte(r, w);
  }

  /** The encoder's table step is eight steps of the bitwise code. */
  lemma TableStepIsByteStep(r: Register, b: Byte)
    ensures TableStep(r, b) == ByteStep(r, b)
  {
    hide Table, EightSteps, Plus, LowByte, Wide, HighBytes, ShiftByte;
    var low := LowByte(Plus(r, Wide(b)));
    HighBytesJustShift(r);
    SplitRegister(r, Wide(b));
    TableIsEightSteps(low);
    EightStepsOfSum(low, HighBytes(r));
  }

  /** The encoder's loop over the bytes from..upto, both included. */
  method BuildEdc(inout: array<Byte>, from: nat, upto: int) returns (result: Register)
    requires from <= upto + 1 <= inout.Length
    ensures result == Code(inout[from..upto + 1])
  {
    hide TableStep, ByteStep;
    result := 0;
    var i := from;
    while i <= upto
      invariant from <= i <= upto + 1
      invariant result == Code(inout[from..i])
    {
      TableStepIsByteStep(result, inout[i]);
      assert inout[from..i + 1][..i - from] == inout[from..i];
      result := TableStep(result, inout[i]);
      i := i + 1;
    }
  }

  // ----- A message followed by its code -----

  /** Byte k of a register, lowest first. */
  function Octet(r: Register, k: nat): Byte
    requires k < 4
  {
    match k
    case 0 => (r & 0xFF) as bv8
    case 1 => ((r >> 8) & 0xFF) as bv8
    case 2 => ((r >> 16) & 0xFF) as bv8
    case _ => ((r >> 24) & 0xFF) as bv8
  }

  lemma OctetsShiftOut(r: Register)
    ensures Wide(Octet(r, 0)) == LowByte(r)
    ensures Wide(Octet(r, 1)) == LowByte(ShiftByte(r))
    ensures Wide(Octet(r, 2)) == LowByte(ShiftByte(ShiftByte(r)))
    ensures Wide(Octet(r, 3)) == LowByte(ShiftByte(ShiftByte(ShiftByte(r))))
    ensures ShiftByte(ShiftByte(ShiftByte(ShiftByte(r)))) == 0
  {
  }

  lemma WithoutLowByte(r: Register)
    ensures Plus(r, LowByte(r)) == HighBytes(r)
  {
  }

  lemma FeedLowByte(r: Register, b: Byte)
    requires Wide(b) == LowByte(r)
    ensures ByteStep(r, b) == ShiftByte(r)
  {
    hide Wide, LowByte, ShiftByte, HighBytes, Plus, EightSteps;
    WithoutLowByte(r);
    HighBytesJustShift(r);
  }

  lemma CodeOfOneMore(r: Register, s: seq<Byte>, b: Byte)
    ensures CodeFrom(r, s + [b]) == ByteStep(CodeFrom(r, s), b)
  {
    hide ByteStep;
    assert (s + [b])[..|s|] == s;
  }

  /** A message followed by its own code, low byte first, leaves nothing over. */
  lemma CodeCloses(s: seq<Byte>, t: seq<Byte>)
    requires |t| == 4 && forall k :: 0 <= k < 4 ==> t[k] == Octet(Code(s), k)
    ensures Code(s + t) == 0
  {
    var r := Code(s);
    OctetsShiftOut(r);
    hide ByteStep, Octet, Wide, LowByte, ShiftByte, CodeFrom;
    FeedLowByte(r, t[0]);
    FeedLowByte(ShiftByte(r), t[1]);
    FeedLowByte(ShiftByte(ShiftByte(r)), t[2]);
    FeedLowByte(ShiftByte(ShiftByte(ShiftByte(r))), t[3]);
    CodeOfOneMore(0, s, t[0]);
    CodeOfOneMore(0, s + [t[0]], t[1]);
    CodeOfOneMore(0, s + [t[0]] + [t[1]], t[2]);
    CodeOfOneMore(0, s + [t[0]] + [t[1]] + [t[2]], t[3]);
    assert s + t == s + [t[0]] + [t[1]] + [t[2]] + [t[3]];
  }

  // ----- Damage shows -----

  lemma {:induction false} CodeOfConcat(r: Register, s: seq<Byte>, t: seq<Byte>)
    ensures CodeFrom(r, s + t) == CodeFrom(CodeFrom(r, s), t)
    decreases |t|
  {
    if |t| == 0 {
      assert s + t == s;
    } else {
      var n := |t| - 1;
      var before, last := t[..n], t[n];
      assert t == before + [last];
      assert s + t == (s + before) + [last];
      hide CodeFrom;
      CodeOfConcat(r, s, before);
      CodeOfOneMore(r, s + before, last);
      CodeOfOneMore(CodeFrom(r, s), before, last);
    }
  }

  lemma BitStepUndone(z: Register)
    requires BitStep(z) <= 0x7FFF_FFFF
    ensures z == BitStep(z) << 1
  {
  }

  lemma FourStepsUndone(z: Register)
    requires FourSteps(z) <= 0x0FFF_FFFF
    ensures z == FourSteps(z) << 4
  {
    hide BitStep;
    BitStepUndone(BitStep(BitStep(BitStep(z))));
    BitStepUndone(BitStep(BitStep(z)));
    BitStepUndone(BitStep(z));
    BitStepUndone(z);
  }

  function ByteUp(r: Register): Register {
    r << 8
  }

  lemma EightStepsUndone(z: Register)
    requires EightSteps(z) <= 0xFF_FFFF
    ensures z == ByteUp(EightSteps(z))
  {
    hide FourSteps;
    FourStepsUndone(FourSteps(z));
    FourStepsUndone(z);
  }

  lemma SameRegisters(a: Register, b: Register)
    ensures Plus(a, b) == 0 <==> a == b
  {
  }

  lemma NothingUndone(z: Register)
    requires EightSteps(z) == 0
    ensures z == 0
  {
    hide EightSteps;
    EightStepsUndone(z);
  }

  lemma EightStepsInjective(a: Register, b: Register)
    requires EightSteps(a) == EightSteps(b)
    ensures a == b
  {
    hide EightSteps, Plus;
    SameRegisters(EightSteps(a), EightSteps(b));
    EightStepsOfSum(a, b);
    NothingUndone(Plus(a, b));
    SameRegisters(a, b);
  }

  /** The same bytes keep two different registers different. */
  lemma {:induction false} TailKeepsDifference(a: Register, b: Register, t: seq<Byte>)
    requires CodeFrom(a, t) == CodeFrom(b, t)
    ensures a == b
  {
    if |t| == 0 {
    } else {
      var n := |t| - 1;
      var x, y, w := CodeFrom(a, t[..n]), CodeFrom(b, t[..n]), Wide(t[n]);
      hide EightSteps, Wide, Plus;
      EightStepsInjective(Plus(x, w), Plus(y, w));
      CancelPlus(x, y, w);
      TailKeepsDifference(a, b, t[..n]);
    }
  }

  lemma CancelPlus(x: Register, y: Register, w: Register)
    requires Plus(x, w) == Plus(y, w)
    ensures x == y
  {
  }

  /** The difference two registers may still show after n damaged bytes. */
  predicate Confined(d: Register, n: nat)
    requires n <= 4
  {
    match n
    case 0 => true
    case 1 => d <= 0xFF_FFFF
    case 2 => d <= 0xFFFF
    case 3 => d <= 0xFF
    case _ => d == 0
  }

  predicate IsByte(r: Register) {
    r <= 0xFF
  }

  lemma DifferenceBefore(d: Register, before: Register, e: Register, n: nat)
    requires 0 < n <= 4 && Confined(d, n) && IsByte(e) && Plus(before, e) == ByteUp(d)
    ensures Confined(before, n - 1)
    ensures before == 0 ==> d == 0 && e == 0
  {
  }

  lemma ByteDifference(a: Register, b: Register, x: Byte, y: Byte)
    ensures Plus(ByteStep(a, x), ByteStep(b, y)) == EightSteps(Plus(Plus(a, b), Plus(Wide(x), Wide(y))))
  {
    hide EightSteps, Plus, Wide;
    EightStepsOfSum(Plus(a, Wide(x)), Plus(b, Wide(y)));
    Exchange(a, Wide(x), b, Wide(y));
  }

  lemma WideDifference(x: Byte, y: Byte)
    ensures IsByte(Plus(Wide(x), Wide(y)))
    ensures Plus(Wide(x), Wide(y)) == 0 ==> x == y
  {
  }

  lemma ConfinedUndone(z: Register, n: nat)
    requires 0 < n <= 4 && Confined(EightSteps(z), n)
    ensures z == ByteUp(EightSteps(z))
  {
    hide EightSteps;
    EightStepsUndone(z);
  }

  lemma LastByteDifference(a: Register, b: Register, x: Byte, y: Byte, n: nat)
    requires 0 < n <= 4 && Confined(Plus(ByteStep(a, x), ByteStep(b, y)), n)
    ensures Confined(Plus(a, b), n - 1)
    ensures a == b ==> x == y
  {
    hide EightSteps, Plus, Wide, ByteStep, Confined, IsByte, ByteUp;
    var e := Plus(Wide(x), Wide(y));
    var d := Plus(ByteStep(a, x), ByteStep(b, y));
    ByteDifference(a, b, x, y);
    ConfinedUndone(Plus(Plus(a, b), e), n);
    WideDifference(x, y);
    DifferenceBefore(d, Plus(a, b), e, n);
    SameRegisters(a, b);
  }

  lemma {:induction false} ConfinedDamage(r: Register, x: seq<Byte>, y: seq<Byte>)
    requires |x| == |y| <= 4
    requires Confined(Plus(CodeFrom(r, x), CodeFrom(r, y)), |x|)
    ensures x == y
  {
    hide Plus, ByteStep, Confined;
    if |x| == 0 {
    } else {
      var n := |x| - 1;
      LastByteDifference(CodeFrom(r, x[..n]), CodeFrom(r, y[..n]), x[n], y[n], |x|);
      ConfinedDamage(r, x[..n], y[..n]);
      assert x == x[..n] + [x[n]] && y == y[..n] + [y[n]];
    }
  }

  /** Damage confined to four bytes in a row always changes the code. */
  lemma DamageShows(p: seq<Byte>, x: seq<Byte>, y: seq<Byte>, t: seq<Byte>)
    requires |x| == |y| <= 4 && x != y
    ensures Code(p + x + t) != Code(p + y + t)
  {
    hide CodeFrom, Plus, Confined;
    var r := Code(p);
    CodeOfConcat(0, p + x, t);
    CodeOfConcat(0, p + y, t);
    CodeOfConcat(0, p, x);
    CodeOfConcat(0, p, y);
    if Code(p + x + t) == Code(p + y + t) {
      TailKeepsDifference(CodeFrom(r, x), CodeFrom(r, y), t);
      SameRegisters(CodeFrom(r, x), CodeFrom(r, y));
      NoDifferenceIsConfined(|x|);
      ConfinedDamage(r, x, y);
    }
  }

  lemma NoDifferenceIsConfined(n: nat)
    requires n <= 4
    ensures Confined(0, n)
  {
  }
}
