/** A Mode 1 sector: sync, header, 2048 bytes of data, error detection code, and P and
    Q parity, laid out in a 2352-byte buffer. */
module Sector {
  import opened Gf256
  import opened ReedSolomon
  import EDC = ErrorDetection

  const BASE := 12
  const P_PARITY := 2064
  const Q_PARITY := 2236
  const PROTECTED := 2340
  const SECTOR := 2352

  function Words(code: Code): nat {
    if code.P? then 43 else 26
  }

  function ParityStart(code: Code): nat {
    if code.P? then P_PARITY else Q_PARITY
  }

  /** Where data byte i of column or diagonal j lies, counted from the header; lane 0
      is the low byte of each 16-bit word, lane 1 the high byte. */
  function DataIndex(code: Code, i: nat, j: nat, lane: nat): (k: nat)
    requires i < DataLength(code) && j < Words(code) && lane < 2
    ensures k < ParityStart(code)
  {
    if code.P? then 2 * j + i * 2 * 43 + lane
    else (j * 43 * 2 + i * 2 * 44 + lane) % Q_PARITY
  }

  /** Where parity byte row of column or diagonal j lies. */
  function ParityIndex(code: Code, row: nat, j: nat, lane: nat): (k: nat)
    requires row < 2 && j < Words(code) && lane < 2
    ensures ParityStart(code) <= k < ParityStart(code) + 4 * Words(code) && k < PROTECTED
  {
    ParityStart(code) + row * 2 * Words(code) + 2 * j + lane
  }

  /** The data bytes of one column or diagonal of the sector at base. */
  function Data(code: Code, s: seq<Byte>, base: nat, j: nat, lane: nat): (d: seq<Byte>)
    requires j < Words(code) && lane < 2 && base + ParityStart(code) <= |s|
    ensures |d| == DataLength(code)
  {
    seq(DataLength(code), i requires 0 <= i < DataLength(code) => s[base + DataIndex(code, i, j, lane)])
  }

  /** The same with its two parity bytes. */
  function Word(code: Code, s: seq<Byte>, base: nat, j: nat, lane: nat): (w: seq<Byte>)
    requires j < Words(code) && lane < 2 && base + PROTECTED <= |s|
    ensures |w| == DataLength(code) + 2
  {
    Data(code, s, base, j, lane)
      + [s[base + ParityIndex(code, 0, j, lane)], s[base + ParityIndex(code, 1, j, lane)]]
  }

  /** Nothing but the code's own parity area differs. */
  predicate SameOutsideParity(code: Code, s: seq<Byte>, t: seq<Byte>, base: nat) {
    && |s| == |t|
    && forall k :: 0 <= k < |s| && !(base + ParityStart(code) <= k < base + ParityStart(code) + 4 * Words(code))
         ==> s[k] == t[k]
  }

  /** Columns or diagonals below n hold their parity in s. */
  predicate Encoded(code: Code, s: seq<Byte>, base: nat, n: nat)
    requires n <= Words(code) && base + PROTECTED <= |s|
  {
    forall j, lane, row :: 0 <= j < n && 0 <= lane < 2 && 0 <= row < 2 ==>
      s[base + ParityIndex(code, row, j, lane)] == Parity(code, row, Data(code, s, base, j, lane))
  }

  lemma DataUnchanged(code: Code, s: seq<Byte>, t: seq<Byte>, base: nat, j: nat, lane: nat)
    requires j < Words(code) && lane < 2 && base + PROTECTED <= |s| && SameOutsideParity(code, s, t, base)
    ensures Data(code, s, base, j, lane) == Data(code, t, base, j, lane)
  {
  }

  /** One data byte goes into its two parity bytes; zero bytes are skipped. */
  method AddByte(code: Code, inout: array<Byte>, data: Byte, i: nat, low: nat)
    requires i < DataLength(code) && low + 2 * Words(code) < inout.Length
    modifies inout
    ensures inout[low] == Add(old(inout[low]), Times(data, Exponent(code, 0, i)))
    ensures inout[low + 2 * Words(code)]
         == Add(old(inout[low + 2 * Words(code)]), Times(data, Exponent(code, 1, i)))
    ensures forall k :: 0 <= k < inout.Length && k != low && k != low + 2 * Words(code) ==> inout[k] == old(inout[k])
  {
    hide Times, Exponent, Add, TableProduct;
    TableProductIsTimes(data, Exponent(code, 0, i));
    TableProductIsTimes(data, Exponent(code, 1, i));
    if data != 0 {
      inout[low] := Add(inout[low], TableProduct(data, Exponent(code, 0, i)));
      inout[low + 2 * Words(code)] := Add(inout[low + 2 * Words(code)], TableProduct(data, Exponent(code, 1, i)));
    } else {
      AddNothing(inout[low]);
      AddNothing(inout[low + 2 * Words(code)]);
      TimesOfZero(Exponent(code, 0, i));
      TimesOfZero(Exponent(code, 1, i));
    }
  }

  lemma AddNothing(a: Byte)
    ensures Add(a, 0) == a
  {
  }

  /** The two parity bytes of lane low hold what the first i data bytes contribute. */
  predicate Contributed(code: Code, s: seq<Byte>, data: seq<Byte>, low: nat, i: nat)
    requires |data| == DataLength(code) && i <= DataLength(code) && low + 2 * Words(code) < |s|
  {
    && s[low] == ParityUpTo(code, 0, data, i)
    && s[low + 2 * Words(code)] == ParityUpTo(code, 1, data, i)
  }

  /** Nothing differs but the two parity bytes of both lanes. */
  predicate SameBut(code: Code, s: seq<Byte>, t: seq<Byte>, low: nat) {
    && |s| == |t|
    && forall k :: 0 <= k < |s| && !(low <= k <= low + 1) && !(low <= k - 2 * Words(code) <= low + 1) ==> s[k] == t[k]
  }

  lemma OneMoreByte(code: Code, s: seq<Byte>, t: seq<Byte>, data: seq<Byte>, low: nat, i: nat)
    requires |data| == DataLength(code) && i < DataLength(code) && low + 2 * Words(code) < |s| == |t|
    requires Contributed(code, s, data, low, i)
    requires t[low] == Add(s[low], Times(data[i], Exponent(code, 0, i)))
    requires t[low + 2 * Words(code)] == Add(s[low + 2 * Words(code)], Times(data[i], Exponent(code, 1, i)))
    ensures Contributed(code, t, data, low, i + 1)
  {
    hide Times, Add, Exponent;
  }

  /** Data byte i of both lanes, as the body of the inner loop takes them. */
  method EncodePair(code: Code, inout: array<Byte>, base: nat, j: nat, i: nat, low: nat, ghost was: seq<Byte>)
    requires j < Words(code) && i < DataLength(code) && base + PROTECTED <= |was|
    requires low == base + ParityIndex(code, 0, j, 0) && SameBut(code, inout[..], was, low)
    requires low + 2 * Words(code) + 1 < inout.Length && base + ParityStart(code) <= low
    requires Contributed(code, inout[..], Data(code, was, base, j, 0), low, i)
    requires Contributed(code, inout[..], Data(code, was, base, j, 1), low + 1, i)
    modifies inout
    ensures SameBut(code, inout[..], was, low)
    ensures Contributed(code, inout[..], Data(code, was, base, j, 0), low, i + 1)
    ensures Contributed(code, inout[..], Data(code, was, base, j, 1), low + 1, i + 1)
  {
    hide Times, Add, Exponent, ParityIndex, ParityUpTo;
    ghost var before := inout[..];
    AddByte(code, inout, inout[base + DataIndex(code, i, j, 0)], i, low);
    ghost var between := inout[..];
    AddByte(code, inout, inout[base + DataIndex(code, i, j, 1)], i, low + 1);
    OneMoreByte(code, before, between, Data(code, was, base, j, 0), low, i);
    OneMoreByte(code, between, inout[..], Data(code, was, base, j, 1), low + 1, i);
  }

  /** The inner loop: both lanes of one column or diagonal. */
  method EncodeWord(code: Code, inout: array<Byte>, base: nat, j: nat)
    requires j < Words(code) && base + PROTECTED <= inout.Length
    requires forall row, lane :: 0 <= row < 2 && 0 <= lane < 2 ==> inout[base + ParityIndex(code, row, j, lane)] == 0
    modifies inout
    ensures var low, was := base + ParityIndex(code, 0, j, 0), old(inout[..]);
            && SameBut(code, inout[..], was, low)
            && Contributed(code, inout[..], Data(code, was, base, j, 0), low, DataLength(code))
            && Contributed(code, inout[..], Data(code, was, base, j, 1), low + 1, DataLength(code))
  {
    ghost var was := inout[..];
    var low := base + ParityIndex(code, 0, j, 0);
    assert low + 1 == base + ParityIndex(code, 0, j, 1);
    assert low + 2 * Words(code) == base + ParityIndex(code, 1, j, 0);
    assert low + 2 * Words(code) + 1 == base + ParityIndex(code, 1, j, 1);
    hide Times, Add, Exponent, ParityIndex, SameBut;
    assert SameBut(code, inout[..], was, low) by {
      SameButItself(code, was, low);
    }
    var i := 0;
    while i < DataLength(code)
      invariant 0 <= i <= DataLength(code)
      invariant SameBut(code, inout[..], was, low)
      invariant Contributed(code, inout[..], Data(code, was, base, j, 0), low, i)
      invariant Contributed(code, inout[..], Data(code, was, base, j, 1), low + 1, i)
    {
      EncodePair(code, inout, base, j, i, low, was);
      i := i + 1;
    }
  }

  lemma SameButItself(code: Code, s: seq<Byte>, low: nat)
    ensures SameBut(code, s, s, low)
  {
  }

  /** Columns or diagonals from n on hold no parity yet. */
  predicate Pending(code: Code, s: seq<Byte>, base: nat, n: nat)
    requires base + PROTECTED <= |s|
  {
    forall j, lane, row :: n <= j < Words(code) && 0 <= lane < 2 && 0 <= row < 2 ==>
      s[base + ParityIndex(code, row, j, lane)] == 0
  }

  lemma ParityBytesApart(code: Code, row: nat, j: nat, lane: nat, other: nat)
    requires row < 2 && j < Words(code) && lane < 2 && other < Words(code) && other != j
    ensures var k, low := ParityIndex(code, row, j, lane), ParityIndex(code, 0, other, 0);
            !(low <= k <= low + 1) && !(low <= k - 2 * Words(code) <= low + 1)
  {
  }

  lemma ParityBytesOf(code: Code, j: nat)
    requires j < Words(code)
    ensures var low := ParityIndex(code, 0, j, 0);
            && ParityIndex(code, 0, j, 1) == low + 1
            && ParityIndex(code, 1, j, 0) == low + 2 * Words(code)
            && ParityIndex(code, 1, j, 1) == low + 2 * Words(code) + 1
  {
  }

  lemma SameButOutside(code: Code, s: seq<Byte>, t: seq<Byte>, base: nat, j: nat)
    requires j < Words(code) && SameBut(code, t, s, base + ParityIndex(code, 0, j, 0))
    ensures SameOutsideParity(code, t, s, base)
  {
  }

  lemma OtherParityKept(code: Code, s: seq<Byte>, t: seq<Byte>, base: nat, j: nat, i: nat, lane: nat, row: nat)
    requires j < Words(code) && i < Words(code) && i != j && lane < 2 && row < 2 && base + PROTECTED <= |s| == |t|
    requires SameBut(code, t, s, base + ParityIndex(code, 0, j, 0))
    ensures t[base + ParityIndex(code, row, i, lane)] == s[base + ParityIndex(code, row, i, lane)]
  {
    ParityBytesApart(code, row, i, lane, j);
    hide ParityIndex;
  }

  lemma NewParity(code: Code, t: seq<Byte>, data: seq<Byte>, base: nat, j: nat, lane: nat, row: nat)
    requires j < Words(code) && lane < 2 && row < 2 && base + PROTECTED <= |t| && |data| == DataLength(code)
    requires Contributed(code, t, data, base + ParityIndex(code, 0, j, lane), DataLength(code))
    ensures t[base + ParityIndex(code, row, j, lane)] == Parity(code, row, data)
  {
    ParityBytesOf(code, j);
    hide ParityUpTo;
  }

  /** Word j has just been encoded on top of s, giving t. */
  predicate WordAdded(code: Code, s: seq<Byte>, t: seq<Byte>, base: nat, j: nat)
    requires j < Words(code) && base + PROTECTED <= |s| == |t|
  {
    var low := base + ParityIndex(code, 0, j, 0);
    && SameBut(code, t, s, low)
    && Contributed(code, t, Data(code, s, base, j, 0), low, DataLength(code))
    && Contributed(code, t, Data(code, s, base, j, 1), low + 1, DataLength(code))
  }

  lemma ParityAfterWord(code: Code, s: seq<Byte>, t: seq<Byte>, base: nat, j: nat, i: nat, lane: nat, row: nat)
    requires i <= j < Words(code) && lane < 2 && row < 2 && base + PROTECTED <= |s| == |t|
    requires Encoded(code, s, base, j) && WordAdded(code, s, t, base, j)
    ensures t[base + ParityIndex(code, row, i, lane)] == Parity(code, row, Data(code, t, base, i, lane))
  {
    SameButOutside(code, s, t, base, j);
    DataUnchanged(code, t, s, base, i, lane);
    if i < j {
      hide Parity, SameOutsideParity, ParityIndex, Words, SameBut, Contributed, Data;
      OtherParityKept(code, s, t, base, j, i, lane, row);
    } else {
      ParityBytesOf(code, j);
      hide Parity, SameOutsideParity, ParityIndex, Words, SameBut, Contributed, Data;
      NewParity(code, t, Data(code, s, base, j, lane), base, j, lane, row);
    }
  }

  lemma EncodedOneMore(code: Code, s: seq<Byte>, t: seq<Byte>, base: nat, j: nat)
    requires j < Words(code) && base + PROTECTED <= |s| == |t|
    requires Encoded(code, s, base, j) && WordAdded(code, s, t, base, j)
    ensures Encoded(code, t, base, j + 1)
  {
    hide WordAdded, Words, ParityIndex, Parity, Data;
    forall i, lane, row | 0 <= i < j + 1 && 0 <= lane < 2 && 0 <= row < 2
      ensures t[base + ParityIndex(code, row, i, lane)] == Parity(code, row, Data(code, t, base, i, lane))
    {
      ParityAfterWord(code, s, t, base, j, i, lane, row);
    }
  }

  lemma PendingOneLess(code: Code, s: seq<Byte>, t: seq<Byte>, base: nat, j: nat)
    requires j < Words(code) && base + PROTECTED <= |s| == |t|
    requires Pending(code, s, base, j) && WordAdded(code, s, t, base, j)
    ensures Pending(code, t, base, j + 1)
  {
    hide Words, ParityIndex, SameBut, Contributed;
    forall i, lane, row | j + 1 <= i < Words(code) && 0 <= lane < 2 && 0 <= row < 2
      ensures t[base + ParityIndex(code, row, i, lane)] == 0
    {
      OtherParityKept(code, s, t, base, j, i, lane, row);
    }
  }

  /** The P or Q encoder: clears the parity area, then takes each column or diagonal. */
  method Encode(code: Code, inout: array<Byte>, base: nat)
    requires base + PROTECTED <= inout.Length
    modifies inout
    ensures SameOutsideParity(code, inout[..], old(inout[..]), base)
    ensures Encoded(code, inout[..], base, Words(code))
  {
    ghost var start := inout[..];
    forall k | base + ParityStart(code) <= k < base + ParityStart(code) + 4 * Words(code) {
      inout[k] := 0;
    }
    assert Pending(code, inout[..], base, 0);
    assert Encoded(code, inout[..], base, 0);
    var j := 0;
    hide Parity, SameBut, Contributed, Data, ParityIndex, Encoded, Pending;
    while j < Words(code)
      invariant 0 <= j <= Words(code)
      invariant SameOutsideParity(code, inout[..], start, base)
      invariant Encoded(code, inout[..], base, j) && Pending(code, inout[..], base, j)
    {
      ghost var s := inout[..];
      EncodeWord(code, inout, base, j);
      SameButOutside(code, s, inout[..], base, j);
      EncodedOneMore(code, s, inout[..], base, j);
      PendingOneLess(code, s, inout[..], base, j);
      j := j + 1;
    }
  }

  // ----- The whole sector -----

  /** Division of the source: towards zero. */
  function Quotient(a: int, b: int): int
    requires 0 < b
  {
    if 0 <= a then a / b else -(-a / b)
  }

  function Remainder(a: int, b: int): int
    requires 0 < b
  {
    a - Quotient(a, b) * b
  }

  function BcdDigits(v: int): int {
    v % 256 / 10 * 16 + v % 256 % 10
  }

  /** The value is cut to eight bits before and after. */
  function ToBcd(v: int): Byte {
    (BcdDigits(v) % 256) as bv8
  }

  function FromBcdDigits(d: int): int {
    d / 16 * 10 + d % 16
  }

  lemma DigitsComeBack(v: int)
    requires 0 <= v < 100
    ensures 0 <= BcdDigits(v) < 256 && FromBcdDigits(BcdDigits(v)) == v
  {
    var tens, ones := v / 10, v % 10;
    assert v % 256 == v;
    JoinDigits(tens, ones);
  }

  lemma JoinDigits(tens: int, ones: int)
    requires 0 <= tens < 10 && 0 <= ones < 10
    ensures (16 * tens + ones) / 16 == tens && (16 * tens + ones) % 16 == ones
  {
  }

  /** The header digits of an address on a disc below 100 minutes name it. */
  lemma DigitsNameAddress(address: int)
    requires 0 <= address < 100 * 60 * 75
    ensures var m, s, f := Quotient(address, 60 * 75), Remainder(Quotient(address, 75), 60), Remainder(address, 75);
            (FromBcdDigits(BcdDigits(m)) * 60 + FromBcdDigits(BcdDigits(s))) * 75 + FromBcdDigits(BcdDigits(f))
            == address
  {
    hide BcdDigits, FromBcdDigits;
    var seconds := address / 75;
    assert address / (60 * 75) == seconds / 60;
    DigitsComeBack(seconds / 60);
    DigitsComeBack(seconds % 60);
    DigitsComeBack(address % 75);
  }

  /** Every column and every diagonal, in both lanes, is a codeword. */
  predicate AllCodewords(code: Code, s: seq<Byte>, base: nat)
    requires base + PROTECTED <= |s|
  {
    forall j, lane :: 0 <= j < Words(code) && 0 <= lane < 2 ==> Codeword(Word(code, s, base, j, lane))
  }

  lemma EncodedAreCodewords(code: Code, s: seq<Byte>, base: nat)
    requires base + PROTECTED <= |s|
    ensures Encoded(code, s, base, Words(code)) <==> AllCodewords(code, s, base)
  {
    hide Parity, Codeword, Data, ParityIndex;
    forall j, lane | 0 <= j < Words(code) && 0 <= lane < 2
      ensures Codeword(Word(code, s, base, j, lane)) <==>
              && s[base + ParityIndex(code, 0, j, lane)] == Parity(code, 0, Data(code, s, base, j, lane))
              && s[base + ParityIndex(code, 1, j, lane)] == Parity(code, 1, Data(code, s, base, j, lane))
    {
      WordParity(code, s, base, j, lane);
    }
  }

  lemma WordParity(code: Code, s: seq<Byte>, base: nat, j: nat, lane: nat)
    requires j < Words(code) && lane < 2 && base + PROTECTED <= |s|
    ensures Codeword(Word(code, s, base, j, lane)) <==>
            && s[base + ParityIndex(code, 0, j, lane)] == Parity(code, 0, Data(code, s, base, j, lane))
            && s[base + ParityIndex(code, 1, j, lane)] == Parity(code, 1, Data(code, s, base, j, lane))
  {
    hide Parity, Codeword, Data, ParityIndex;
    var word := Word(code, s, base, j, lane);
    var n := DataLength(code);
    assert word[..n] == Data(code, s, base, j, lane);
    CodewordIffParity(code, word);
  }

  /** The P parity does not notice the Q parity written after it. */
  lemma QKeepsP(s: seq<Byte>, t: seq<Byte>, base: nat)
    requires base + PROTECTED <= |s| && SameOutsideParity(Q, s, t, base) && Encoded(P, s, base, 43)
    ensures Encoded(P, t, base, 43)
  {
    hide Parity;
    forall j, lane, row | 0 <= j < 43 && 0 <= lane < 2 && 0 <= row < 2
      ensures t[base + ParityIndex(P, row, j, lane)] == Parity(P, row, Data(P, t, base, j, lane))
    {
      assert Data(P, s, base, j, lane) == Data(P, t, base, j, lane);
    }
  }

  /** Sync, header and the zero gap, for a logical address. */
  predicate Framed(s: seq<Byte>, address: int)
    requires SECTOR <= |s|
  {
    Headed(s, address) && forall k :: 2068 <= k < 2076 ==> s[k] == 0
  }

  predicate Headed(s: seq<Byte>, address: int)
    requires SECTOR <= |s|
  {
    && s[0] == 0x00
    && (forall k :: 1 <= k < 12 ==> s[k] == 0xFF)
    && s[12] == ToBcd(Quotient(address, 60 * 75))
    && s[13] == ToBcd(Remainder(Quotient(address, 75), 60))
    && s[14] == ToBcd(Remainder(address, 75))
    && s[15] == 1
  }

  method WriteHeader(p: array<Byte>, address: int)
    requires SECTOR <= p.Length
    modifies p
    ensures Headed(p[..], address) && forall k :: 16 <= k < p.Length ==> p[k] == old(p[k])
  {
    hide ToBcd, Quotient, Remainder;
    p[0] := 0x00;
    forall k | 1 <= k < 12 {
      p[k] := 0xFF;
    }
    p[12] := ToBcd(Quotient(address, 60 * 75));
    p[13] := ToBcd(Remainder(Quotient(address, 75), 60));
    p[14] := ToBcd(Remainder(address, 75));
    p[15] := 1;
  }

  method WriteEdc(p: array<Byte>)
    requires SECTOR <= p.Length
    modifies p
    ensures EDC.Code(p[..2068]) == 0
    ensures forall k :: 0 <= k < 2064 || 2068 <= k < p.Length ==> p[k] == old(p[k])
  {
    hide EDC.Code, EDC.Octet;
    var v := EDC.BuildEdc(p, 0, 16 + 2048 - 1);
    ghost var message := p[..2064];
    assert p[0..2064] == message;
    p[2064] := EDC.Octet(v, 0);
    p[2065] := EDC.Octet(v, 1);
    p[2066] := EDC.Octet(v, 2);
    p[2067] := EDC.Octet(v, 3);
    assert p[..2064] == message;
    EDC.CodeCloses(message, p[2064..2068]);
    assert p[..2068] == message + p[2064..2068];
  }

  /** Frame and error detection code, before any parity. */
  method Prepare(p: array<Byte>, address: int)
    requires SECTOR <= p.Length
    modifies p
    ensures Framed(p[..], address) && EDC.Code(p[..2068]) == 0
    ensures forall k :: 16 <= k < 2064 || 2076 <= k < p.Length ==> p[k] == old(p[k])
  {
    hide EDC.Code, ToBcd, Quotient, Remainder;
    WriteHeader(p, address);
    WriteEdc(p);
    ghost var closed := p[..2068];
    forall k | 2068 <= k < 2076 {
      p[k] := 0;
    }
    assert p[..2068] == closed;
  }

  /** The encoder: whatever the buffer held, the user data is kept, the frame is set, the
      error detection code closes, and all P and all Q words are codewords. */
  method EncodeL2(p: array<Byte>, address: int)
    requires SECTOR <= p.Length
    modifies p
    ensures p[16..2064] == old(p[16..2064]) && p[SECTOR..] == old(p[SECTOR..])
    ensures Framed(p[..], address)
    ensures EDC.Code(p[..2068]) == 0
    ensures AllCodewords(P, p[..], BASE) && AllCodewords(Q, p[..], BASE)
  {
    hide EDC.Code, Parity, ToBcd, Encoded;
    Prepare(p, address);
    ghost var prepared := p[..2068];
    Encode(P, p, BASE);
    assert p[..2068] == prepared;
    ghost var withP := p[..];
    Encode(Q, p, BASE);
    assert p[..2068] == prepared;
    QKeepsP(withP, p[..], BASE);
    EncodedAreCodewords(P, p[..], BASE);
    EncodedAreCodewords(Q, p[..], BASE);
  }

  // ----- The diagonals cover everything before them -----

  /** Diagonal and position of a word of the header, data, code and P area. */
  function DiagonalOf(w: nat): (at: (nat, nat))
    requires w < 1118
    ensures at.0 < 43 && at.1 < 26
  {
    var i := w % 43;
    (i, (23 * (w - 18 * i)) % 26)
  }

  lemma Remainder26(a: int, r: int, k: int)
    requires a == r + 26 * k && 0 <= r < 26
    ensures a % 26 == r
  {
  }

  lemma Remainder43(a: int, r: int, k: int)
    requires a == 43 * k + r && 0 <= r < 43
    ensures a % 43 == r
  {
  }

  lemma Doubled(n: int, w: nat, lane: nat)
    requires 0 <= n && w < 1118 && lane < 2
    ensures (2 * n + lane) % 2236 == 2 * w + lane <==> n % 1118 == w
  {
    var q, r := n / 1118, n % 1118;
    assert 2 * n + lane == 2236 * q + (2 * r + lane);
    assert (2 * n + lane) % 2236 == 2 * r + lane;
  }

  /** Each of the 1118 words lies on exactly one diagonal, at exactly one position. */
  lemma DiagonalsPartition(w: nat, i: nat, j: nat, lane: nat)
    requires w < 1118 && i < 43 && j < 26 && lane < 2
    ensures DataIndex(Q, i, j, lane) == 2 * w + lane <==> DiagonalOf(w) == (i, j)
  {
    var n := 43 * j + 44 * i;
    Doubled(n, w, lane);
    assert DataIndex(Q, i, j, lane) == (2 * n + lane) % 2236;
    hide DataIndex, DiagonalOf;
    if n % 1118 == w {
      OnlyDiagonal(w, i, j, n / 1118);
    }
    if DiagonalOf(w) == (i, j) {
      ItsDiagonal(w, i, j);
    }
  }

  lemma OnlyDiagonal(w: nat, i: nat, j: nat, q: int)
    requires w < 1118 && i < 43 && j < 26 && 43 * j + 44 * i == w + 1118 * q
    ensures DiagonalOf(w) == (i, j)
  {
    Remainder43(w, i, j + i - 26 * q);
    Remainder26(23 * (w - 18 * i), j, 38 * j + 23 * i - 989 * q);
  }

  lemma ItsDiagonal(w: nat, i: nat, j: nat)
    requires w < 1118 && DiagonalOf(w) == (i, j)
    ensures (43 * j + 44 * i) % 1118 == w
  {
    var k, e := w / 43, 23 * (w - 18 * i);
    var m := e / 26;
    assert w == 43 * k + i && e == 26 * m + j;
    Remainder1118(43 * j + 44 * i, w, 38 * k - 15 * i - m);
  }

  lemma Remainder1118(a: int, r: int, k: int)
    requires a == r + 1118 * k && 0 <= r < 1118
    ensures a % 1118 == r
  {
  }


  // ----- The array of words -----

  /** Place of a byte in rows of 43 words, counted from the header. */
  function InRow(row: nat, column: nat, lane: nat): nat {
    2 * (43 * row + column) + lane
  }

  /** A P word is a column of 24 data rows, with its parity in the two rows below. */
  lemma ColumnsGoDown(i: nat, j: nat, lane: nat)
    requires i < 24 && j < 43 && lane < 2
    ensures DataIndex(P, i, j, lane) == InRow(i, j, lane)
    ensures i < 2 ==> ParityIndex(P, i, j, lane) == InRow(24 + i, j, lane)
  {
  }

  /** A Q word starts in the first column and goes one row down with every column, around the
      26 rows; its parity is in the rows after them, of 26 words each. */
  lemma DiagonalsGoDown(i: nat, j: nat, lane: nat)
    requires i < 43 && j < 26 && lane < 2
    ensures DataIndex(Q, i, j, lane) == InRow((j + i) % 26, i, lane)
    ensures i < 2 ==> ParityIndex(Q, i, j, lane) == InRow(26, 0, 0) + 2 * (26 * i + j) + lane
  {
    var q := (j + i) / 26;
    assert j + i == 26 * q + (j + i) % 26;
    Remainder2236(j * 43 * 2 + i * 2 * 44 + lane, InRow((j + i) % 26, i, lane), q);
  }

  lemma Remainder2236(a: int, r: int, k: int)
    requires a == r + 2236 * k && 0 <= r < 2236
    ensures a % 2236 == r
  {
  }
}
