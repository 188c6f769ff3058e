/** The word operations of the SHA-1 code, on words of 64 bits, and what they come to in
    the low 32 bits. */
module Sha1Wide {
  import opened Sha1Spec

  type Wide = bv64

  function Low(x: Wide): Word {
    (x & 0xFFFF_FFFF) as bv32
  }

  function WidePlus(x: Wide, y: Wide): Wide {
    x + y
  }

  /** What a step adds to its last register, grouped as the code groups it. */
  function WideSum5(s: Wide, f: Wide, e: Wide, k: Wide, w: Wide): Wide {
    e + (((s + f) + k) + w)
  }

  function WideXor(x: Wide, y: Wide): Wide {
    x ^ y
  }

  function Shift1(x: Wide): Wide {
    (x << 1) | ((x & 0xFFFF_FFFF) >> 31)
  }

  function Shift5(x: Wide): Wide {
    (x << 5) | ((x & 0xFFFF_FFFF) >> 27)
  }

  function Shift30(x: Wide): Wide {
    (x << 30) | ((x & 0xFFFF_FFFF) >> 2)
  }

  function WideCh(x: Wide, y: Wide, z: Wide): Wide {
    z ^ (x & (y ^ z))
  }

  function WideParity(x: Wide, y: Wide, z: Wide): Wide {
    (x ^ y) ^ z
  }

  function WideMaj(x: Wide, y: Wide, z: Wide): Wide {
    (x & y) | (z & (x | y))
  }

  function WideF(t: nat, x: Wide, y: Wide, z: Wide): Wide {
    if t < 20 then WideCh(x, y, z) else if 40 <= t < 60 then WideMaj(x, y, z) else WideParity(x, y, z)
  }

  function WideK(t: nat): Wide {
    if t < 20 then 0x5A827999 else if t < 40 then 0x6ED9EBA1 else if t < 60 then 0x8F1BBCDC else 0xCA62C1D6
  }

  function GetWord(b0: Byte, b1: Byte, b2: Byte, b3: Byte): Wide {
    ((((b0 as bv64) << 24) | ((b1 as bv64) << 16)) | ((b2 as bv64) << 8)) | (b3 as bv64)
  }

  function PutByte(x: Wide, k: nat): Byte
    requires k < 4
  {
    match k
    case 0 => ((x >> 24) & 0xFF) as bv8
    case 1 => ((x >> 16) & 0xFF) as bv8
    case 2 => ((x >> 8) & 0xFF) as bv8
    case _ => (x & 0xFF) as bv8
  }

  // The relations the operations stand for, so that each proof sees only its own.

  predicate IsLow(x: Wide, a: Word) {
    a == (x & 0xFFFF_FFFF) as bv32
  }

  predicate IsWideSum(x: Wide, y: Wide, z: Wide) {
    z == x + y
  }

  predicate IsSum(a: Word, b: Word, c: Word) {
    c == a + b
  }

  lemma LowMeans(x: Wide)
    ensures IsLow(x, Low(x))
  {
  }

  lemma SumsMean(x: Wide, y: Wide, a: Word, b: Word)
    ensures IsWideSum(x, y, WidePlus(x, y)) && IsSum(a, b, Plus(a, b))
  {
  }

  lemma SumLow(x: Wide, y: Wide, z: Wide, a: Word, b: Word, c: Word, d: Word)
    requires IsLow(x, a) && IsLow(y, b) && IsLow(z, c) && IsWideSum(x, y, z) && IsSum(a, b, d)
    ensures c == d
  {
  }

  lemma LowOfPlus(x: Wide, y: Wide)
    ensures Low(WidePlus(x, y)) == Plus(Low(x), Low(y))
  {
    hide Low, Plus, WidePlus, IsLow, IsSum, IsWideSum;
    LowMeans(x);
    LowMeans(y);
    LowMeans(WidePlus(x, y));
    SumsMean(x, y, Low(x), Low(y));
    SumLow(x, y, WidePlus(x, y), Low(x), Low(y), Low(WidePlus(x, y)), Plus(Low(x), Low(y)));
  }

  predicate IsWideSum5(s: Wide, f: Wide, e: Wide, k: Wide, w: Wide, r: Wide) {
    r == e + (((s + f) + k) + w)
  }

  predicate IsSum5(s: Word, f: Word, e: Word, k: Word, w: Word, r: Word) {
    r == s + f + e + k + w
  }

  lemma WideSum5Means(s: Wide, f: Wide, e: Wide, k: Wide, w: Wide)
    ensures IsWideSum5(s, f, e, k, w, WideSum5(s, f, e, k, w))
  {
  }

  lemma Sum5Means(s: Word, f: Word, e: Word, k: Word, w: Word)
    ensures IsSum5(s, f, e, k, w, Sum5(s, f, e, k, w))
  {
  }

  lemma Sum5Low(s: Wide, f: Wide, e: Wide, k: Wide, w: Wide, r: Wide,
                ls: Word, lf: Word, le: Word, lk: Word, lw: Word, lr: Word, q: Word)
    requires IsLow(s, ls) && IsLow(f, lf) && IsLow(e, le) && IsLow(k, lk) && IsLow(w, lw) && IsLow(r, lr)
    requires IsWideSum5(s, f, e, k, w, r) && IsSum5(ls, lf, le, lk, lw, q)
    ensures lr == q
  {
  }

  lemma LowOfSum5(s: Wide, f: Wide, e: Wide, k: Wide, w: Wide)
    ensures Low(WideSum5(s, f, e, k, w)) == Sum5(Low(s), Low(f), Low(e), Low(k), Low(w))
  {
    hide Low, WideSum5, Sum5, IsLow, IsWideSum5, IsSum5;
    LowMeans(s);
    LowMeans(f);
    LowMeans(e);
    LowMeans(k);
    LowMeans(w);
    LowMeans(WideSum5(s, f, e, k, w));
    WideSum5Means(s, f, e, k, w);
    Sum5Means(Low(s), Low(f), Low(e), Low(k), Low(w));
    Sum5Low(s, f, e, k, w, WideSum5(s, f, e, k, w), Low(s), Low(f), Low(e), Low(k), Low(w),
            Low(WideSum5(s, f, e, k, w)), Sum5(Low(s), Low(f), Low(e), Low(k), Low(w)));
  }

  lemma LowOfXor(x: Wide, y: Wide)
    ensures Low(WideXor(x, y)) == Xor(Low(x), Low(y))
  {
  }

  predicate IsShift1(x: Wide, y: Wide) {
    y == (x << 1) | ((x & 0xFFFF_FFFF) >> 31)
  }

  predicate IsRotl1(a: Word, b: Word) {
    b == (a << 1) | (a >> 31)
  }

  lemma Shift1Means(x: Wide, a: Word)
    ensures IsShift1(x, Shift1(x)) && IsRotl1(a, Rotl1(a))
  {
  }

  lemma Shift1Low(x: Wide, y: Wide, a: Word, b: Word, c: Word)
    requires IsLow(x, a) && IsLow(y, b) && IsShift1(x, y) && IsRotl1(a, c)
    ensures b == c
  {
  }

  lemma LowOfShift1(x: Wide)
    ensures Low(Shift1(x)) == Rotl1(Low(x))
  {
    hide Low, Shift1, Rotl1, IsLow, IsShift1, IsRotl1;
    LowMeans(x);
    LowMeans(Shift1(x));
    Shift1Means(x, Low(x));
    Shift1Low(x, Shift1(x), Low(x), Low(Shift1(x)), Rotl1(Low(x)));
  }

  predicate IsShift5(x: Wide, y: Wide) {
    y == (x << 5) | ((x & 0xFFFF_FFFF) >> 27)
  }

  predicate IsRotl5(a: Word, b: Word) {
    b == (a << 5) | (a >> 27)
  }

  lemma Shift5Means(x: Wide, a: Word)
    ensures IsShift5(x, Shift5(x)) && IsRotl5(a, Rotl5(a))
  {
  }

  lemma Shift5Low(x: Wide, y: Wide, a: Word, b: Word, c: Word)
    requires IsLow(x, a) && IsLow(y, b) && IsShift5(x, y) && IsRotl5(a, c)
    ensures b == c
  {
  }

  lemma LowOfShift5(x: Wide)
    ensures Low(Shift5(x)) == Rotl5(Low(x))
  {
    hide Low, Shift5, Rotl5, IsLow, IsShift5, IsRotl5;
    LowMeans(x);
    LowMeans(Shift5(x));
    Shift5Means(x, Low(x));
    Shift5Low(x, Shift5(x), Low(x), Low(Shift5(x)), Rotl5(Low(x)));
  }

  predicate IsShift30(x: Wide, y: Wide) {
    y == (x << 30) | ((x & 0xFFFF_FFFF) >> 2)
  }

  predicate IsRotl30(a: Word, b: Word) {
    b == (a << 30) | (a >> 2)
  }

  lemma Shift30Means(x: Wide, a: Word)
    ensures IsShift30(x, Shift30(x)) && IsRotl30(a, Rotl30(a))
  {
  }

  lemma Shift30Low(x: Wide, y: Wide, a: Word, b: Word, c: Word)
    requires IsLow(x, a) && IsLow(y, b) && IsShift30(x, y) && IsRotl30(a, c)
    ensures b == c
  {
  }

  lemma LowOfShift30(x: Wide)
    ensures Low(Shift30(x)) == Rotl30(Low(x))
  {
    hide Low, Shift30, Rotl30, IsLow, IsShift30, IsRotl30;
    LowMeans(x);
    LowMeans(Shift30(x));
    Shift30Means(x, Low(x));
    Shift30Low(x, Shift30(x), Low(x), Low(Shift30(x)), Rotl30(Low(x)));
  }

  lemma LowOfCh(x: Wide, y: Wide, z: Wide)
    ensures Low(WideCh(x, y, z)) == Ch(Low(x), Low(y), Low(z))
  {
  }

  lemma LowOfParity(x: Wide, y: Wide, z: Wide)
    ensures Low(WideParity(x, y, z)) == Parity(Low(x), Low(y), Low(z))
  {
  }

  lemma LowOfMaj(x: Wide, y: Wide, z: Wide)
    ensures Low(WideMaj(x, y, z)) == Maj(Low(x), Low(y), Low(z))
  {
  }

  lemma LowOfK(t: nat)
    ensures Low(WideK(t)) == K(t)
  {
  }

  lemma LowOfGet(b0: Byte, b1: Byte, b2: Byte, b3: Byte)
    ensures Low(GetWord(b0, b1, b2, b3)) == BigEndian(b0, b1, b2, b3)
  {
  }

  lemma PutIsOctet(x: Wide, k: nat)
    requires k < 4
    ensures PutByte(x, k) == Octet(Low(x), k)
  {
  }
}
