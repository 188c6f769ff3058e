/** The chunky-to-planar converter: eight words of pixels in, eight words of bit planes
    out. A word is its 32 bits, lowest first. */
module ChunkyPlanar {
  type Word = seq<bool>

  predicate Words(b: seq<Word>) {
    |b| == 8 && forall k :: 0 <= k < 8 ==> |b[k]| == 32
  }

  /** Bit number i of all 256 pixel bits: words count down, bits count up. */
  function PixelBit(b: seq<Word>, i: nat): bool
    requires Words(b) && i < 256
  {
    b[7 - i / 32][i % 32]
  }

  /** Plane p holds bit p of every pixel byte, in the order of the pixels. */
  function Planar(b: seq<Word>): (r: seq<Word>)
    requires Words(b)
    ensures Words(r)
  {
    seq(8, p requires 0 <= p < 8 => Plane(b, p))
  }

  function Plane(b: seq<Word>, p: nat): (w: Word)
    requires Words(b) && p < 8
    ensures |w| == 32
  {
    seq(32, k requires 0 <= k < 32 => PixelBit(b, 8 * k + p))
  }

  /** The pixels of given planes. */
  function Chunky(r: seq<Word>): (b: seq<Word>)
    requires Words(r)
    ensures Words(b)
  {
    seq(8, j requires 0 <= j < 8 => Pixels(r, j))
  }

  function Pixels(r: seq<Word>, j: nat): (w: Word)
    requires Words(r) && j < 8
    ensures |w| == 32
  {
    seq(32, m requires 0 <= m < 32 => r[m % 8][4 * (7 - j) + m / 8])
  }

  lemma PlanarBit(b: seq<Word>, p: nat, k: nat)
    requires Words(b) && p < 8 && k < 32
    ensures Planar(b)[p][k] == b[7 - k / 4][8 * (k % 4) + p]
  {
    assert (8 * k + p) / 32 == k / 4 && (8 * k + p) % 32 == 8 * (k % 4) + p;
  }

  lemma ChunkyBit(r: seq<Word>, j: nat, m: nat)
    requires Words(r) && j < 8 && m < 32
    ensures Chunky(r)[j][m] == r[m % 8][4 * (7 - j) + m / 8]
  {
  }

  /** Nothing is lost: the pixels come back from the planes. */
  lemma ChunkyOfPlanar(b: seq<Word>)
    requires Words(b)
    ensures Chunky(Planar(b)) == b
  {
    forall j | 0 <= j < 8 ensures Chunky(Planar(b))[j] == b[j] {
      forall m | 0 <= m < 32 ensures Chunky(Planar(b))[j][m] == b[j][m] {
        ChunkyBit(Planar(b), j, m);
        var k := 4 * (7 - j) + m / 8;
        PlanarBit(b, m % 8, k);
        assert k / 4 == 7 - j && k % 4 == m / 8;
      }
    }
  }

  /** And every set of planes comes from some pixels. */
  lemma PlanarOfChunky(r: seq<Word>)
    requires Words(r)
    ensures Planar(Chunky(r)) == r
  {
    forall p | 0 <= p < 8 ensures Planar(Chunky(r))[p] == r[p] {
      forall k | 0 <= k < 32 ensures Planar(Chunky(r))[p][k] == r[p][k] {
        PlanarBit(Chunky(r), p, k);
        var m := 8 * (k % 4) + p;
        ChunkyBit(r, 7 - k / 4, m);
        assert m % 8 == p && m / 8 == k % 4;
      }
    }
  }

  function Zeros(): (w: Word)
    ensures |w| == 32
  {
    seq(32, _ => false)
  }

  /** The register pair of the converter and its eight-word buffers. */
  class Converter {
    const buffer: array<Word>
    const result: array<Word>
    var readOffset: int
    var writeOffset: int

    constructor (buffer: array<Word>, result: array<Word>)
      requires buffer.Length == 8 && result.Length == 8 && buffer != result
      ensures this.buffer == buffer && this.result == result && readOffset == -1 && writeOffset == 0
    {
      this.buffer, this.result := buffer, result;
      readOffset, writeOffset := -1, 0;
    }

    ghost predicate Valid()
      reads this, buffer, result
    {
      && buffer.Length == 8 && result.Length == 8 && buffer != result
      && Words(buffer[..]) && Words(result[..])
      && 0 <= writeOffset < 8 && -1 <= readOffset < 8
    }

    /** The plain conversion: one pixel bit at a time into its plane. */
    method ConvertPlainly()
      requires buffer.Length == 8 && result.Length == 8 && buffer != result && Words(buffer[..])
      modifies result
      ensures result[..] == Planar(buffer[..])
    {
      forall p | 0 <= p < 8 {
        result[p] := Zeros();
      }
      var i := 0;
      while i < 256
        invariant 0 <= i <= 256 && Words(result[..])
        invariant forall p, k :: 0 <= p < 8 && 0 <= k < 32 ==>
          result[p][k] == (8 * k + p < i && PixelBit(buffer[..], 8 * k + p))
      {
        if buffer[7 - i / 32][i % 32] {
          result[i % 8] := result[i % 8][i / 8 := true];
        }
        i := i + 1;
      }
      AllPlanes(buffer[..], result[..]);
    }

    /** The fast conversion: plane by plane, four bits from each of the eight words, put
        in place by a table. */
    method Convert()
      requires buffer.Length == 8 && result.Length == 8 && buffer != result && Words(buffer[..])
      modifies result
      ensures result[..] == Planar(buffer[..])
    {
      var i := 0;
      while i < 8
        invariant 0 <= i <= 8
        invariant forall p :: 0 <= p < i ==> result[p] == Plane(buffer[..], p)
      {
        result[i] := GatherPlane(i);
        i := i + 1;
      }
      assert forall p :: 0 <= p < 8 ==> result[..][p] == Planar(buffer[..])[p];
    }

    method GatherPlane(i: nat) returns (w: Word)
      requires buffer.Length == 8 && Words(buffer[..]) && i < 8
      ensures w == Plane(buffer[..], i)
    {
      hide PixelBit, Plane, ByteNumber, Words;
      w := Zeros();
      var n := 0;
      while n < 32
        invariant 0 <= n <= 32 && |w| == 32
        invariant forall k :: 0 <= k < 32 ==> w[k] == (Turn(k) < n && PixelBit(buffer[..], 8 * k + i))
      {
        var q, j := n / 8, n % 8;
        Gathered(buffer[..], i, q, j);
        if buffer[j][i + 8 * q] {
          w := w[ByteNumber(i + 8 * q, j) := true];
        }
        n := n + 1;
      }
      IsPlane(buffer[..], w, i);
    }

    /** A byte written to the port: byte 3, the lowest, starts a new word and byte 0 ends it. */
    method WriteByte(offset: nat, v: seq<bool>)
      requires Valid() && offset < 4 && |v| == 8
      modifies this`readOffset, this`writeOffset, buffer
      ensures Valid() && readOffset == -1
      ensures writeOffset == if offset == 0 then (old(writeOffset) + 1) % 8 else old(writeOffset)
      ensures forall k :: 0 <= k < 8 && k != old(writeOffset) ==> buffer[k] == old(buffer[k])
      ensures buffer[old(writeOffset)]
           == Merged(if offset == 3 then Zeros() else old(buffer[writeOffset]), 8 * (3 - offset), v)
    {
      if offset == 3 {
        buffer[writeOffset] := Zeros();
      }
      buffer[writeOffset] := Merged(buffer[writeOffset], 8 * (3 - offset), v);
      if offset == 0 {
        writeOffset := (writeOffset + 1) % 8;
      }
      readOffset := -1;
    }

    /** A long word, lowest byte first as the bus access does it. */
    method WriteLong(v: Word)
      requires Valid() && |v| == 32
      modifies this`readOffset, this`writeOffset, buffer
      ensures Valid() && readOffset == -1 && writeOffset == (old(writeOffset) + 1) % 8
      ensures buffer[..] == old(buffer[..])[old(writeOffset) := v]
    {
      WriteByte(3, v[0..8]);
      WriteByte(2, v[8..16]);
      WriteByte(1, v[16..24]);
      WriteByte(0, v[24..32]);
      FourBytes(v);
      assert buffer[old(writeOffset)] == v;
    }

    /** A byte read from the port; the first after a write converts. */
    method ReadByte(offset: nat) returns (v: seq<bool>)
      requires Valid() && offset < 4 && (readOffset >= 0 ==> result[..] == Planar(buffer[..]))
      modifies this`readOffset, this`writeOffset, result
      ensures Valid() && writeOffset == 0 && readOffset == (if old(readOffset) < 0 then 0 else old(readOffset))
      ensures result[..] == Planar(buffer[..]) && v == result[readOffset][8 * (3 - offset)..8 * (3 - offset) + 8]
    {
      if readOffset < 0 {
        Convert();
        readOffset := 0;
      }
      writeOffset := 0;
      v := result[readOffset][8 * (3 - offset)..8 * (3 - offset) + 8];
    }

    /** A long word, after which the port moves on to the next plane. */
    method ReadLong() returns (v: Word)
      requires Valid() && (readOffset >= 0 ==> result[..] == Planar(buffer[..]))
      modifies this`readOffset, this`writeOffset, result
      ensures Valid() && writeOffset == 0 && result[..] == Planar(buffer[..])
      ensures var at := if old(readOffset) < 0 then 0 else old(readOffset);
              v == Planar(buffer[..])[at] && readOffset == (at + 1) % 8
    {
      var b3 := ReadByte(3);
      var b2 := ReadByte(2);
      var b1 := ReadByte(1);
      var b0 := ReadByte(0);
      v := b3 + b2 + b1 + b0;
      assert v == result[readOffset];
      readOffset := (readOffset + 1) % 8;
    }

    /** Eight words in, eight planes out. */
    method ConvertThroughPort(b: seq<Word>) returns (r: seq<Word>)
      requires Valid() && writeOffset == 0 && Words(b)
      modifies this`readOffset, this`writeOffset, buffer, result
      ensures Valid() && r == Planar(b)
    {
      hide Planar;
      var k := 0;
      while k < 8
        invariant 0 <= k <= 8 && Valid() && writeOffset == k % 8 && (k > 0 ==> readOffset == -1)
        invariant forall j :: 0 <= j < k ==> buffer[j] == b[j]
      {
        WriteLong(b[k]);
        k := k + 1;
      }
      assert buffer[..] == b;
      r := [];
      k := 0;
      while k < 8
        invariant 0 <= k <= 8 && Valid() && buffer[..] == b && (k > 0 ==> result[..] == Planar(b))
        invariant readOffset == if k == 0 then -1 else k % 8
        invariant |r| == k && forall p :: 0 <= p < k ==> r[p] == Planar(b)[p]
      {
        var v := ReadLong();
        r := r + [v];
        k := k + 1;
      }
    }
  }

  /** Where the table puts bit i of word j. */
  function ByteNumber(i: nat, j: nat): (k: nat)
    requires i < 32 && j < 8
    ensures k < 32
  {
    i / 8 + (7 - j) * 4
  }

  /** When the fast conversion reaches bit k of a plane. */
  function Turn(k: nat): (n: int)
    requires k < 32
    ensures 0 <= n < 32
  {
    8 * (k % 4) + 7 - k / 4
  }

  lemma IsPlane(b: seq<Word>, w: Word, p: nat)
    requires Words(b) && |w| == 32 && p < 8
    requires forall k :: 0 <= k < 32 ==> w[k] == PixelBit(b, 8 * k + p)
    ensures w == Plane(b, p)
  {
  }

  /** The n-th contribution to a plane is the pixel bit of its place, and only the n-th. */
  lemma Gathered(b: seq<Word>, i: nat, q: nat, j: nat)
    requires Words(b) && i < 8 && q < 4 && j < 8
    ensures var k := ByteNumber(i + 8 * q, j);
            && k < 32 && |b[j]| == 32 && b[j][i + 8 * q] == PixelBit(b, 8 * k + i)
            && forall m: nat :: m < 32 ==> (Turn(m) == 8 * q + j <==> m == k)
  {
    assert (i + 8 * q) / 8 == q;
    var k := q + (7 - j) * 4;
    assert (8 * k + i) / 32 == 7 - j && (8 * k + i) % 32 == 8 * q + i;
  }

  lemma AllPlanes(b: seq<Word>, r: seq<Word>)
    requires Words(b) && Words(r)
    requires forall p, k :: 0 <= p < 8 && 0 <= k < 32 ==> r[p][k] == PixelBit(b, 8 * k + p)
    ensures r == Planar(b)
  {
    forall p | 0 <= p < 8 ensures r[p] == Planar(b)[p] {
      assert r[p] == Plane(b, p);
    }
  }

  /** The four bytes of a word put it together. */
  lemma FourBytes(v: Word)
    requires |v| == 32
    ensures Merged(Merged(Merged(Merged(Zeros(), 0, v[0..8]), 8, v[8..16]), 16, v[16..24]), 24, v[24..32]) == v
  {
  }

  /** Bits of v set in w from position at. */
  function Merged(w: Word, at: nat, v: seq<bool>): (r: Word)
    requires |w| == 32 && at + |v| <= 32
    ensures |r| == 32
  {
    seq(32, k requires 0 <= k < 32 => if at <= k < at + |v| then w[k] || v[k - at] else w[k])
  }
}
