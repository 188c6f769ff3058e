/** The 32-bit frame check of the network board: its table made by shifting, a message
    taken through the table, and a running value carried byte by byte. */
module FrameCheck {
  import Bits
  import opened Gf256
  import opened ErrorDetection

  /** One division by x, with the reflected polynomial of the frame check. */
  function Shift(r: Register): Register {
    (r >> 1) ^ (if r & 1 != 0 then 0xEDB8_8320 else 0)
  }

  function Shifts(r: Register, n: nat): Register {
    if n == 0 then r else Shift(Shifts(r, n - 1))
  }

  /** One byte enters at the low end and is shifted through. */
  function TakeByte(r: Register, b: Byte): Register {
    Shifts(Plus(r, Wide(b)), 8)
  }

  function TakeAll(r: Register, s: seq<Byte>): Register {
    if s == [] then r else TakeByte(TakeAll(r, s[..|s| - 1]), s[|s| - 1])
  }

  function Inverted(r: Register): Register {
    r ^ 0xFFFF_FFFF
  }

  /** The check value of a message. */
  function Check(s: seq<Byte>): Register {
    Inverted(TakeAll(0xFFFF_FFFF, s))
  }

  // ----- Shifting is additive -----

  function Feed(odd: bool): Register {
    if odd then 0xEDB8_8320 else 0
  }

  lemma ShiftParts(r: Register)
    ensures Shift(r) == Plus(Half(r), Feed(Odd(r)))
  {
    if r & 1 != 0 {
      assert Feed(Odd(r)) == 0xEDB8_8320;
    } else {
      assert Feed(Odd(r)) == 0;
    }
  }

  lemma FeedOfSum(p: bool, q: bool)
    ensures Feed(p != q) == Plus(Feed(p), Feed(q))
  {
  }

  lemma ShiftOfSum(a: Register, b: Register)
    ensures Shift(Plus(a, b)) == Plus(Shift(a), Shift(b))
  {
    hide Shift, Plus, Half, Odd, Feed;
    ShiftParts(a);
    ShiftParts(b);
    ShiftParts(Plus(a, b));
    HalfOfSum(a, b);
    OddOfSum(a, b);
    FeedOfSum(Odd(a), Odd(b));
    Exchange(Half(a), Half(b), Feed(Odd(a)), Feed(Odd(b)));
  }

  lemma {:induction false} ShiftsOfSum(a: Register, b: Register, n: nat)
    ensures Shifts(Plus(a, b), n) == Plus(Shifts(a, n), Shifts(b, n))
  {
    hide Shift, Plus;
    if n == 0 {
    } else {
      ShiftsOfSum(a, b, n - 1);
      ShiftOfSum(Shifts(a, n - 1), Shifts(b, n - 1));
    }
  }

  lemma FourShifts(r: Register)
    ensures Shifts(r, 4) == Shift(Shift(Shift(Shift(r))))
    ensures Shifts(r, 8) == Shifts(Shifts(r, 4), 4)
  {
    hide Shift;
    assert Shifts(r, 1) == Shift(r) && Shifts(r, 2) == Shift(Shifts(r, 1)) && Shifts(r, 3) == Shift(Shifts(r, 2));
    assert Shifts(r, 5) == Shift(Shifts(r, 4)) && Shifts(r, 6) == Shift(Shifts(r, 5));
    assert Shifts(r, 7) == Shift(Shifts(r, 6));
    var s := Shifts(r, 4);
    assert Shifts(s, 1) == Shift(s) && Shifts(s, 2) == Shift(Shifts(s, 1)) && Shifts(s, 3) == Shift(Shifts(s, 2));
  }

  lemma FourEvenShifts(r: Register)
    requires r & 0xF == 0
    ensures Shift(Shift(Shift(Shift(r)))) == r >> 4
  {
  }

  lemma HighBytesShift(r: Register)
    ensures HighBytes(r) & 0xF == 0 && (HighBytes(r) >> 4) & 0xF == 0 && (HighBytes(r) >> 4) >> 4 == ShiftByte(r)
  {
  }

  lemma HighBytesOnly(r: Register)
    ensures Shifts(HighBytes(r), 8) == ShiftByte(r)
  {
    HighBytesShift(r);
    FourEvenShifts(HighBytes(r));
    FourEvenShifts(HighBytes(r) >> 4);
    hide HighBytes, ShiftByte, Shift;
    FourShifts(HighBytes(r));
    FourShifts(HighBytes(r) >> 4);
  }

  /** A step through the table is eight shifts. */
  lemma TableStepIsTakeByte(table: seq<Register>, r: Register, b: Byte)
    requires IsTable(table)
    ensures Plus(Entry(table, LowByte(Plus(r, Wide(b)))), ShiftByte(r)) == TakeByte(r, b)
  {
    hide Plus, LowByte, Wide, HighBytes, ShiftByte, Shifts;
    var low := LowByte(Plus(r, Wide(b)));
    HighBytesOnly(r);
    SplitRegister(r, Wide(b));
    ShiftsOfSum(low, HighBytes(r), 8);
  }

  // ----- The table -----

  ghost predicate IsTable(table: seq<Register>) {
    |table| == 256 && forall n: Register :: n <= 0xFF ==> Entry(table, n) == Shifts(n, 8)
  }

  function Entry(table: seq<Register>, n: Register): Register
    requires |table| == 256 && n <= 0xFF
  {
    table[n as int]
  }

  /** Fills the table, each entry by eight shifts. */
  method MakeTable(table: array<Register>)
    requires table.Length == 256
    modifies table
    ensures IsTable(table[..])
  {
    hide Shift;
    var n: int := 0;
    while n < 256
      invariant 0 <= n <= 256
      invariant forall k :: 0 <= k < n ==> table[k] == Shifts(k as Register, 8)
    {
      var c := n as Register;
      var k := 0;
      while k < 8
        invariant 0 <= k <= 8 && c == Shifts(n as Register, k)
      {
        c := Shift(c);
        k := k + 1;
      }
      table[n] := c;
      n := n + 1;
    }
    forall m: Register | m <= 0xFF ensures Entry(table[..], m) == Shifts(m, 8) {
      assert (m as int) as Register == m;
    }
  }

  // ----- Taking a message -----

  method GetCheck(table: array<Register>, buffer: seq<Byte>) returns (crc: Register)
    requires table.Length == 256 && IsTable(table[..])
    ensures crc == Check(buffer)
  {
    hide TakeByte, IsTable, Plus;
    crc := 0xFFFF_FFFF;
    var i := 0;
    while i < |buffer|
      invariant 0 <= i <= |buffer| && crc == TakeAll(0xFFFF_FFFF, buffer[..i])
    {
      TableStepIsTakeByte(table[..], crc, buffer[i]);
      assert buffer[..i + 1][..i] == buffer[..i];
      crc := Plus(Entry(table[..], LowByte(Plus(crc, Wide(buffer[i])))), ShiftByte(crc));
      i := i + 1;
    }
    assert buffer[..i] == buffer;
    crc := Inverted(crc);
  }

  lemma InvertedTwice(r: Register)
    ensures Inverted(Inverted(r)) == r
  {
  }

  /** A check value carried on by one byte. */
  method CarryOn(table: array<Register>, v: Byte, crc: Register, ghost s: seq<Byte>) returns (next: Register)
    requires table.Length == 256 && IsTable(table[..]) && crc == Check(s)
    ensures next == Check(s + [v])
  {
    hide TakeByte, IsTable, Plus, Inverted;
    var c := Inverted(crc);
    InvertedTwice(TakeAll(0xFFFF_FFFF, s));
    TableStepIsTakeByte(table[..], c, v);
    assert (s + [v])[..|s|] == s;
    next := Inverted(Plus(Entry(table[..], LowByte(Plus(c, Wide(v)))), ShiftByte(c)));
  }


  /** The polynomial is the one of IEEE 802.3 with its bits in reverse order. */
  lemma PolynomialIsReflected(i: Register)
    requires i < 32
    ensures Bits.Bit(Feed(true), i) == Bits.Bit(0x04C1_1DB7, 31 - i)
  {
  }
}
