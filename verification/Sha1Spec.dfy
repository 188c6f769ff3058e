/** SHA-1 as FIPS 180-4 states it: padding (section 5.1.1), the 80-word schedule and
    the rounds (section 6.1.2). */
module Sha1Spec {
  import opened Bits

  type Byte = bv8
  type Word = bv32

  function Plus(x: Word, y: Word): Word {
    x + y
  }

  function Sum5(s: Word, f: Word, e: Word, k: Word, w: Word): Word {
    s + f + e + k + w
  }

  function Xor(x: Word, y: Word): Word {
    x ^ y
  }

  function Rotl1(x: Word): Word {
    (x << 1) | (x >> 31)
  }

  function Rotl5(x: Word): Word {
    (x << 5) | (x >> 27)
  }

  function Rotl30(x: Word): Word {
    (x << 30) | (x >> 2)
  }

  function Ch(x: Word, y: Word, z: Word): Word {
    (x & y) ^ (!x & z)
  }

  function Parity(x: Word, y: Word, z: Word): Word {
    (x ^ y) ^ z
  }

  function Maj(x: Word, y: Word, z: Word): Word {
    ((x & y) ^ (x & z)) ^ (y & z)
  }

  function F(t: nat, x: Word, y: Word, z: Word): Word {
    if t < 20 then Ch(x, y, z) else if 40 <= t < 60 then Maj(x, y, z) else Parity(x, y, z)
  }

  function K(t: nat): Word {
    if t < 20 then 0x5A827999 else if t < 40 then 0x6ED9EBA1 else if t < 60 then 0x8F1BBCDC else 0xCA62C1D6
  }

  function BigEndian(b0: Byte, b1: Byte, b2: Byte, b3: Byte): Word {
    ((((b0 as bv32) << 24) | ((b1 as bv32) << 16)) | ((b2 as bv32) << 8)) | (b3 as bv32)
  }

  function Octet(x: Word, k: nat): Byte
    requires k < 4
  {
    match k
    case 0 => (x >> 24) as bv8
    case 1 => ((x >> 16) & 0xFF) as bv8
    case 2 => ((x >> 8) & 0xFF) as bv8
    case _ => (x & 0xFF) as bv8
  }

  datatype Hash = Hash(a: Word, b: Word, c: Word, d: Word, e: Word)

  const INITIAL := Hash(0x67452301, 0xEFCDAB89, 0x98BADCFE, 0x10325476, 0xC3D2E1F0)

  /** Word t of the schedule of a block. */
  function W(block: seq<Byte>, t: nat): Word
    requires |block| == 64
  {
    if t < 16 then BigEndian(block[4 * t], block[4 * t + 1], block[4 * t + 2], block[4 * t + 3])
    else Rotl1(Xor(Xor(Xor(W(block, t - 3), W(block, t - 8)), W(block, t - 14)), W(block, t - 16)))
  }

  function Round(h: Hash, t: nat, w: Word): Hash {
    Hash(Sum5(Rotl5(h.a), F(t, h.b, h.c, h.d), h.e, K(t), w), h.a, Rotl30(h.b), h.c, h.d)
  }

  /** The working variables after t rounds. */
  function Rounds(h: Hash, block: seq<Byte>, t: nat): Hash
    requires |block| == 64
  {
    if t == 0 then h else Round(Rounds(h, block, t - 1), t - 1, W(block, t - 1))
  }

  function Sum(g: Hash, h: Hash): Hash {
    Hash(Plus(g.a, h.a), Plus(g.b, h.b), Plus(g.c, h.c), Plus(g.d, h.d), Plus(g.e, h.e))
  }

  function Compress(h: Hash, block: seq<Byte>): Hash
    requires |block| == 64
  {
    Sum(h, Rounds(h, block, 80))
  }

  /** The hash value after whole blocks. */
  function HashBlocks(data: seq<Byte>): Hash
    requires |data| % 64 == 0
  {
    if |data| == 0 then INITIAL
    else Compress(HashBlocks(data[..|data| - 64]), data[|data| - 64..])
  }

  // ----- Padding -----

  function Zeros(n: nat): seq<Byte> {
    seq(n, _ => 0)
  }

  /** The number of zero bytes after the single one bit. */
  function ZeroCount(n: nat): (k: nat)
    ensures k < 64 && (n + 1 + k) % 64 == 56
  {
    (119 - n % 64) % 64
  }

  function PowerOf256(k: nat): (p: nat)
    ensures 0 < p
  {
    if k == 0 then 1 else 256 * PowerOf256(k - 1)
  }

  /** Byte k, lowest first, of a number. */
  function NumberByte(n: nat, k: nat): Byte {
    (n / PowerOf256(k) % 256) as bv8
  }

  /** The message length in bits as 64 bits, big end first. */
  function LengthField(bits: nat): (f: seq<Byte>)
    ensures |f| == 8
  {
    seq(8, i requires 0 <= i < 8 => NumberByte(bits, 7 - i))
  }

  function Padding(n: nat): (p: seq<Byte>)
    ensures (n + |p|) % 64 == 0
  {
    [0x80] + Zeros(ZeroCount(n)) + LengthField(8 * n)
  }

  function WordBytes(x: Word): seq<Byte> {
    [Octet(x, 0), Octet(x, 1), Octet(x, 2), Octet(x, 3)]
  }

  function Digest(h: Hash): seq<Byte> {
    WordBytes(h.a) + WordBytes(h.b) + WordBytes(h.c) + WordBytes(h.d) + WordBytes(h.e)
  }

  function Sha1(message: seq<Byte>): seq<Byte> {
    Digest(HashBlocks(message + Padding(|message|)))
  }


  // ----- Rotations and constants -----

  /** The rotations move every bit up, around the end. */
  lemma Rotl1Bit(x: Word, i: Word)
    requires i < 32
    ensures Bit(Rotl1(x), i) == Bit(x, if i < 1 then i + 31 else i - 1)
  {
  }

  lemma Rotl5Bit(x: Word, i: Word)
    requires i < 32
    ensures Bit(Rotl5(x), i) == Bit(x, if i < 5 then i + 27 else i - 5)
  {
  }

  lemma Rotl30Bit(x: Word, i: Word)
    requires i < 32
    ensures Bit(Rotl30(x), i) == Bit(x, if i < 30 then i + 2 else i - 30)
  {
  }

  /** The constants are the square roots of 2, 3, 5 and 10, times 2 to the 30. */
  lemma ConstantsAreRoots(t: nat)
    requires t < 80
    ensures var n, k := if t < 20 then 2 else if t < 40 then 3 else if t < 60 then 5 else 10, K(t) as int;
            k * k <= n * 0x1000_0000_0000_0000 < (k + 1) * (k + 1)
  {
    assert K(t) as int == if t < 20 then 0x5A827999 else if t < 40 then 0x6ED9EBA1
                          else if t < 60 then 0x8F1BBCDC else 0xCA62C1D6;
  }
}
