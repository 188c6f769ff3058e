/** The SHA-1 context: a message taken in pieces, padded and finished in place. */
module Sha1Context {
  import opened Counting
  import opened Sha1Spec
  import Code = Sha1Code
  import opened Sha1Wide

  const WORD := 0x1_0000_0000
  const MAX_INT := 0x7FFF_FFFF

  /** The bytes of n that make whole blocks. */
  function Whole(n: nat): (w: nat)
    ensures w % 64 == 0 && w <= n < w + 64
  {
    n / 64 * 64
  }

  lemma OneMoreBlock(data: seq<Byte>, done: nat)
    requires done % 64 == 0 && done + 64 <= |data|
    ensures HashBlocks(data[..done + 64]) == Compress(HashBlocks(data[..done]), data[done..done + 64])
  {
    hide Compress;
    var longer := data[..done + 64];
    assert longer[..|longer| - 64] == data[..done] && longer[|longer| - 64..] == data[done..done + 64];
  }

  // ----- The length field -----

  /** The number as four bytes, as the code stores its low 32 bits. */
  function PutNumber(n: nat): (f: seq<Byte>)
    ensures |f| == 4
  {
    [NumberByte(n, 3), NumberByte(n, 2), NumberByte(n, 1), NumberByte(n, 0)]
  }

  lemma Powers()
    ensures PowerOf256(0) == 1 && PowerOf256(1) == 0x100 && PowerOf256(2) == 0x1_0000 && PowerOf256(3) == 0x100_0000
    ensures PowerOf256(4) == WORD && PowerOf256(5) == 0x100 * WORD && PowerOf256(6) == 0x1_0000 * WORD
    ensures PowerOf256(7) == 0x100_0000 * WORD
  {
    assert PowerOf256(2) == 256 * PowerOf256(1) && PowerOf256(3) == 256 * PowerOf256(2);
    assert PowerOf256(4) == 256 * PowerOf256(3) && PowerOf256(5) == 256 * PowerOf256(4);
    assert PowerOf256(6) == 256 * PowerOf256(5) && PowerOf256(7) == 256 * PowerOf256(6);
  }

  /** The two halves the code derives from its byte counters. */
  function HighHalf(n: nat): nat {
    n % WORD / 0x2000_0000 + n / WORD * 8
  }

  function LowHalf(n: nat): nat {
    n % WORD * 8
  }

  lemma HighHalfIs(n: nat)
    ensures HighHalf(n) == 8 * n / WORD
  {
  }

  lemma DivideTwice(x: nat, p: nat, q: nat)
    requires 0 < p && q == p * WORD
    ensures x / q == x / WORD / p
  {
    var y, r := x / WORD, x % WORD;
    var z, s := y / p, y % p;
    assert x == (z * p + s) * WORD + r;
    assert x == z * q + (s * WORD + r);
    assert 0 <= s * WORD + r < p * WORD;
    QuotientIsUnique(x, q, z, s * WORD + r);
  }

  lemma HighByte(n: nat, k: nat)
    requires k < 4
    ensures NumberByte(8 * n, k + 4) == NumberByte(HighHalf(n), k)
  {
    Powers();
    HighHalfIs(n);
    assert PowerOf256(k + 4) == PowerOf256(k) * WORD;
    DivideTwice(8 * n, PowerOf256(k), PowerOf256(k + 4));
    hide PowerOf256, HighHalf;
  }

  /** A multiple of 256 * p does not reach the byte above p. */
  lemma LowBytesOnly(x: nat, z: nat, p: nat, m: nat)
    requires 0 < p && m == z * p * 256
    ensures (x + m) / p % 256 == x / p % 256
  {
    Regrouped(z, p);
    QuotientGrows(x, z * 256, p);
    assert (x / p + z * 256) % 256 == x / p % 256;
  }

  lemma Regrouped(z: nat, p: nat)
    ensures z * p * 256 == z * 256 * p
  {
  }

  lemma QuotientGrows(x: nat, w: nat, p: nat)
    requires 0 < p
    ensures (x + w * p) / p == x / p + w
  {
    Spread(x / p, w, p);
    DivisionOf(x, p);
    QuotientIsUnique(x + w * p, p, x / p + w, x % p);
  }

  lemma DivisionOf(x: nat, p: nat)
    requires 0 < p
    ensures x == x / p * p + x % p && x % p < p
  {
  }

  lemma Spread(a: nat, b: nat, p: nat)
    ensures (a + b) * p == a * p + b * p
  {
  }

  lemma LowByte(n: nat, k: nat)
    requires k < 4
    ensures NumberByte(8 * n, k) == NumberByte(LowHalf(n), k)
  {
    Powers();
    hide PowerOf256;
    assert 8 * n == LowHalf(n) + 8 * WORD * (n / WORD);
    var p, y := PowerOf256(k), n / WORD;
    var z := if k == 0 then 0x800_0000 * y else if k == 1 then 0x8_0000 * y else if k == 2 then 0x800 * y else 8 * y;
    LowBytesOnly(LowHalf(n), z, p, 8 * WORD * y);
  }

  /** Together they are the bit length. */
  lemma HalvesAreLength(n: nat)
    ensures PutNumber(HighHalf(n)) + PutNumber(LowHalf(n)) == LengthField(8 * n)
  {
    hide NumberByte, HighHalf, LowHalf;
    HighByte(n, 0);
    HighByte(n, 1);
    HighByte(n, 2);
    HighByte(n, 3);
    LowByte(n, 0);
    LowByte(n, 1);
    LowByte(n, 2);
    LowByte(n, 3);
  }

  // ----- The context -----

  /** The padding table: a one bit, then zeros. */
  function PaddingTable(): (p: seq<Byte>)
    ensures |p| == 64
  {
    [0x80] + Zeros(63)
  }

  function WideWordBytes(x: Wide): (s: seq<Byte>)
    ensures |s| == 4
  {
    [PutByte(x, 0), PutByte(x, 1), PutByte(x, 2), PutByte(x, 3)]
  }

  /** A state and the first left bytes of a buffer stand for a message. */
  predicate Stands(state: Code.WideHash, buffer: seq<Byte>, message: seq<Byte>, done: nat, left: nat) {
    && done % 64 == 0 && done + left <= |message| && left <= |buffer|
    && Code.LowHash(state) == HashBlocks(message[..done])
    && buffer[..left] == message[done..done + left]
  }

  class Context {
    var total0: nat
    var total1: nat
    var state: Code.WideHash
    const buffer: array<Byte>
    ghost var message: seq<Byte>

    ghost predicate Valid()
      reads this, buffer
    {
      && buffer.Length == 64
      && total0 == |message| % WORD && total1 == |message| / WORD
      && Stands(state, buffer[..], message, Whole(|message|), |message| % 64)
    }

    constructor Starts()
      ensures Valid() && fresh(buffer) && message == []
    {
      total0, total1 := 0, 0;
      state := Code.WideHash(0x67452301, 0xEFCDAB89, 0x98BADCFE, 0x10325476, 0xC3D2E1F0);
      buffer := new Byte[64];
      message := [];
      new;
      hide Code.LowHash;
      InitialState();
    }

    /** More of the message. */
    method Update(input: seq<Byte>)
      requires Valid() && |input| <= MAX_INT
      modifies this`total0, this`total1, this`state, this`message, buffer
      ensures Valid() && message == old(message) + input
    {
      hide Stands;
      if |input| <= 0 {
        assert message + input == message;
        return;
      }
      ghost var was := message;
      LowCountIsPlace(|message|);
      var left := total0 % 64;
      CountBytes(|input|);
      message := message + input;
      TakeBytes(was, left, input);
    }

    /** The byte counters; total1 takes the carry. */
    method CountBytes(ilen: nat)
      requires ilen <= MAX_INT && total0 == |message| % WORD && total1 == |message| / WORD
      modifies this`total0, this`total1
      ensures total0 == (|message| + ilen) % WORD && total1 == (|message| + ilen) / WORD
    {
      total0 := (total0 + ilen) % WORD;
      if total0 < ilen {
        total1 := total1 + 1;
      }
    }

    /** memcpy into the buffer. */
    method CopyIn(at: nat, bytes: seq<Byte>)
      requires at + |bytes| <= buffer.Length
      modifies buffer
      ensures buffer[..] == old(buffer[..at]) + bytes + old(buffer[at + |bytes|..])
    {
      forall k | 0 <= k < |bytes| {
        buffer[at + k] := bytes[k];
      }
    }

    /** Completes a begun buffer from the front of the input and takes it as a block. */
    method CompleteBuffer(left: nat, input: seq<Byte>, ghost done: nat)
      requires left < buffer.Length == 64 && 64 - left <= |input|
      requires Stands(state, buffer[..], message, done, left) && done + left + |input| == |message|
      requires input == message[done + left..]
      modifies this`state, buffer
      ensures Stands(state, buffer[..], message, done + 64, 0)
    {
      hide Stands;
      var fill := 64 - left;
      ghost var before := buffer[..];
      CopyIn(left, input[..fill]);
      BufferGrows(state, before, buffer[..], message, done, left, input[..fill]);
      FullBuffer(state, buffer[..], message, done);
      var next := Code.Process(state, buffer[..]);
      BlockTaken(state, next, buffer[..], buffer[..], message, done, 64);
      state := next;
    }

    /** Takes whole blocks straight from the input. */
    method TakeBlocks(input: seq<Byte>, from: nat, left: nat, ghost start: nat)
        returns (pos: nat, ghost done: nat)
      requires buffer.Length == 64 && from <= |input| && start + left + (|input| - from) == |message|
      requires start % 64 == 0 && (left > 0 ==> |input| - from < 64 - left)
      requires Stands(state, buffer[..], message, start, left) && input[from..] == message[start + left..]
      modifies this`state
      ensures from <= pos <= |input| < pos + 64 - left && done + left + (|input| - pos) == |message| && done % 64 == 0
      ensures Stands(state, buffer[..], message, done, left) && input[pos..] == message[done + left..]
    {
      hide Stands;
      pos, done := from, start;
      while |input| - pos >= 64
        invariant from <= pos <= |input| && done + left + (|input| - pos) == |message|
        invariant done % 64 == 0 && (left > 0 ==> pos == from)
        invariant Stands(state, buffer[..], message, done, left) && input[pos..] == message[done + left..]
      {
        assert input[pos..pos + 64] == input[pos..][..64] == message[done..][..64] == message[done..done + 64];
        var next := Code.Process(state, input[pos..pos + 64]);
        BlockTaken(state, next, input[pos..pos + 64], buffer[..], message, done, 0);
        state := next;
        assert input[pos + 64..] == input[pos..][64..] == message[done..][64..];
        pos, done := pos + 64, done + 64;
      }
    }

    /** Completes a begun buffer, takes whole blocks from the input, keeps the rest. */
    method TakeBytes(ghost was: seq<Byte>, begun: nat, input: seq<Byte>)
      requires buffer.Length == 64 && message == was + input && 0 < |input| && begun == |was| % 64
      requires Stands(state, buffer[..], was, Whole(|was|), begun)
      modifies this`state, buffer
      ensures Stands(state, buffer[..], message, Whole(|message|), |message| % 64)
    {
      hide Stands;
      var left, from := begun, 0;
      ghost var start := Whole(|was|);
      StandsLonger(state, buffer[..], was, input, start, left);
      assert input == message[start + left..] && input[0..] == input;
      if left > 0 && |input| >= 64 - left {
        CompleteBuffer(left, input, start);
        from := 64 - left;
        assert input[from..] == message[start + 64..];
        left, start := 0, start + 64;
      }
      ghost var done;
      var pos;
      pos, done := TakeBlocks(input, from, left, start);
      KeepRest(input[pos..], left, done);
    }

    /** What is left of the input waits in the buffer. */
    method KeepRest(rest: seq<Byte>, left: nat, ghost done: nat)
      requires buffer.Length == 64 && left + |rest| < 64 && done + left + |rest| == |message| && done % 64 == 0
      requires Stands(state, buffer[..], message, done, left) && rest == message[done + left..]
      modifies buffer
      ensures Stands(state, buffer[..], message, Whole(|message|), |message| % 64)
    {
      hide Stands;
      ghost var before := buffer[..];
      if |rest| > 0 {
        CopyIn(left, rest);
        BufferGrows(state, before, buffer[..], message, done, left, rest);
      }
      assert Whole(|message|) == done && |message| % 64 == left + |rest|;
    }

    /** Pads the message to whole blocks. */
    method Pad()
      requires Valid()
      modifies this`total0, this`total1, this`state, this`message, buffer
      ensures Valid() && message == old(message) + Padding(old(|message|))
    {
      hide PutNumber, HighHalf, LowHalf, HashBlocks, Code.LowHash, Padding, Stands;
      var msglen := LengthBytes();
      LowCountIsPlace(|message|);
      var last := total0 % 64;
      var padn := if last < 56 then 56 - last else 120 - last;
      PaddingInPieces(|message|, padn);
      Update(PaddingTable()[..padn]);
      Update(msglen);
      assert old(message) + PaddingTable()[..padn] + msglen == old(message) + (PaddingTable()[..padn] + msglen);
    }

    /** Pads the message and stores its digest. */
    method Finish(output: array<Byte>)
      requires Valid() && output.Length >= 20 && output != buffer
      modifies this`total0, this`total1, this`state, this`message, buffer, output
      ensures output[..20] == Sha1(old(message)) && output[20..] == old(output[20..])
    {
      hide HashBlocks, Code.LowHash, Digest, Padding, Stands;
      Pad();
      Store(output);
    }

    /** The bit count in eight bytes, from the two counters. */
    method LengthBytes() returns (msglen: seq<Byte>)
      requires Valid()
      ensures |msglen| == 8 && msglen == PutNumber(HighHalf(|message|)) + PutNumber(LowHalf(|message|))
    {
      hide PutNumber;
      var high := total0 / 0x2000_0000 + total1 * 8;
      var low := total0 * 8;
      msglen := PutNumber(high) + PutNumber(low);
    }

    /** The state words to the output, big end first. */
    method Store(output: array<Byte>)
      requires Valid() && |message| % 64 == 0 && output.Length >= 20
      modifies output
      ensures output[..20] == Digest(HashBlocks(message)) && output[20..] == old(output[20..])
    {
      hide WideWordBytes, Digest, HashBlocks, Code.LowHash;
      assert message[..Whole(|message|)] == message;
      var bytes := WideWordBytes(state.a) + WideWordBytes(state.b) + WideWordBytes(state.c)
                 + WideWordBytes(state.d) + WideWordBytes(state.e);
      DigestBytes(state);
      forall k | 0 <= k < 20 {
        output[k] := bytes[k];
      }
      assert output[..20] == bytes;
    }
  }

  /** The digest of a whole buffer. */
  method GetSha1(input: seq<Byte>, out: array<Byte>)
    requires |input| <= MAX_INT && out.Length >= 20
    modifies out
    ensures out[..20] == Sha1(input) && out[20..] == old(out[20..])
  {
    hide Sha1;
    var ctx := new Context.Starts();
    ctx.Update(input);
    assert ctx.message == [] + input == input;
    ctx.Finish(out);
  }

  /** The low counter alone tells the place in the current block. */
  lemma LowCountIsPlace(n: nat)
    ensures n % WORD % 64 == n % 64
  {
  }

  lemma PaddingInPieces(n: nat, padn: nat)
    requires padn == if n % 64 < 56 then 56 - n % 64 else 120 - n % 64
    ensures padn <= 64 && PaddingTable()[..padn] == [0x80] + Zeros(ZeroCount(n))
    ensures PaddingTable()[..padn] + (PutNumber(HighHalf(n)) + PutNumber(LowHalf(n))) == Padding(n)
  {
    assert padn == 1 + ZeroCount(n);
    HalvesAreLength(n);
    hide PutNumber, LengthField;
  }

  lemma DigestBytes(state: Code.WideHash)
    ensures WideWordBytes(state.a) + WideWordBytes(state.b) + WideWordBytes(state.c) + WideWordBytes(state.d)
          + WideWordBytes(state.e) == Digest(Code.LowHash(state))
  {
    hide WideWordBytes, WordBytes, Low;
    WideBytes(state.a);
    WideBytes(state.b);
    WideBytes(state.c);
    WideBytes(state.d);
    WideBytes(state.e);
  }

  lemma WideBytes(x: Wide)
    ensures WideWordBytes(x) == WordBytes(Low(x))
  {
    hide PutByte, Octet, Low;
    PutIsOctet(x, 0);
    PutIsOctet(x, 1);
    PutIsOctet(x, 2);
    PutIsOctet(x, 3);
  }

  lemma FullBuffer(state: Code.WideHash, buffer: seq<Byte>, message: seq<Byte>, done: nat)
    requires |buffer| == 64 && Stands(state, buffer, message, done, 64)
    ensures buffer == message[done..done + 64]
  {
    hide Code.LowHash, HashBlocks;
    assert buffer[..64] == buffer;
  }

  lemma StandsLonger(state: Code.WideHash, buffer: seq<Byte>, was: seq<Byte>, input: seq<Byte>, done: nat, left: nat)
    requires Stands(state, buffer, was, done, left)
    ensures Stands(state, buffer, was + input, done, left)
  {
    hide Code.LowHash, HashBlocks;
    assert (was + input)[..done] == was[..done];
  }

  lemma BufferGrows(state: Code.WideHash, before: seq<Byte>, after: seq<Byte>, message: seq<Byte>, done: nat,
                    left: nat, bytes: seq<Byte>)
    requires Stands(state, before, message, done, left) && |before| == 64 && left + |bytes| <= 64
    requires after == before[..left] + bytes + before[left + |bytes|..]
    requires done + left + |bytes| <= |message| && bytes == message[done + left..done + left + |bytes|]
    ensures Stands(state, after, message, done, left + |bytes|)
  {
    hide Code.LowHash, HashBlocks;
    assert after[..left + |bytes|] == before[..left] + bytes;
  }

  lemma BlockTaken(state: Code.WideHash, next: Code.WideHash, block: seq<Byte>, buffer: seq<Byte>,
                   message: seq<Byte>, done: nat, left: nat)
    requires Stands(state, buffer, message, done, left) && done + 64 <= |message|
    requires block == message[done..done + 64] && Code.LowHash(next) == Compress(Code.LowHash(state), block)
    ensures Stands(next, buffer, message, done + 64, 0)
  {
    hide Code.LowHash, HashBlocks, Compress;
    OneMoreBlock(message, done);
  }

  lemma InitialState()
    ensures Code.LowHash(Code.WideHash(0x67452301, 0xEFCDAB89, 0x98BADCFE, 0x10325476, 0xC3D2E1F0)) == INITIAL
  {
  }
}
