/** The SHA-1 code: blocks through a rolling window of 16 words with renamed registers,
    and a context that takes a message in pieces. */
module Sha1Code {
  import opened Sha1Spec
  import opened Sha1Wide

  datatype WideHash = WideHash(a: Wide, b: Wide, c: Wide, d: Wide, e: Wide)

  function LowHash(h: WideHash): Hash {
    Hash(Low(h.a), Low(h.b), Low(h.c), Low(h.d), Low(h.e))
  }

  // ----- One round -----

  /** What one step leaves in its last register. */
  function StepSum(t: nat, a: Wide, b: Wide, c: Wide, d: Wide, e: Wide, x: Wide): Wide {
    WideSum5(Shift5(a), WideF(t, b, c, d), e, WideK(t), x)
  }

  /** The registers after a step, named as the next step names them. */
  function Renamed(h: WideHash, t: nat, x: Wide): WideHash {
    WideHash(StepSum(t, h.a, h.b, h.c, h.d, h.e, x), h.a, Shift30(h.b), h.c, h.d)
  }

  lemma LowOfF(t: nat, x: Wide, y: Wide, z: Wide)
    ensures Low(WideF(t, x, y, z)) == F(t, Low(x), Low(y), Low(z))
  {
    hide Low, WideCh, WideMaj, WideParity, Ch, Maj, Parity;
    LowOfCh(x, y, z);
    LowOfMaj(x, y, z);
    LowOfParity(x, y, z);
  }

  lemma LowOfStepSum(t: nat, h: WideHash, x: Wide)
    ensures Low(StepSum(t, h.a, h.b, h.c, h.d, h.e, x)) == Round(LowHash(h), t, Low(x)).a
  {
    hide Low, WideSum5, Sum5, Shift5, Rotl5, WideF, F, WideK, K;
    LowOfShift5(h.a);
    LowOfF(t, h.b, h.c, h.d);
    LowOfK(t);
    LowOfSum5(Shift5(h.a), WideF(t, h.b, h.c, h.d), h.e, WideK(t), x);
  }

  /** A step on wide words is a round on their low halves. */
  lemma LowOfRenamed(h: WideHash, t: nat, x: Wide)
    ensures LowHash(Renamed(h, t, x)) == Round(LowHash(h), t, Low(x))
  {
    hide Low, StepSum, Sum5, Shift30, Rotl5, Rotl30, F, K;
    LowOfStepSum(t, h, x);
    LowOfShift30(h.b);
  }

  // ----- The rolling window -----

  /** The window holds the last 16 words before word t, or the first 16. */
  predicate Window(w: seq<Wide>, block: seq<Byte>, t: nat)
    requires |block| == 64
  {
    && |w| == 16
    && forall s :: (if t < 16 then 0 else t - 16) <= s < (if t < 16 then 16 else t) ==> Low(w[s % 16]) == W(block, s)
  }

  lemma FirstWord(block: seq<Byte>, t: nat)
    requires |block| == 64 && t < 16
    ensures Low(GetWord(block[4 * t], block[4 * t + 1], block[4 * t + 2], block[4 * t + 3])) == W(block, t)
  {
    hide Low, GetWord, BigEndian;
    LowOfGet(block[4 * t], block[4 * t + 1], block[4 * t + 2], block[4 * t + 3]);
  }

  method LoadBlock(data: seq<Byte>) returns (w: array<Wide>)
    requires |data| == 64
    ensures fresh(w) && Window(w[..], data, 0)
  {
    hide Low, GetWord, W, Window;
    w := new Wide[16];
    for i := 0 to 16
      invariant forall s :: 0 <= s < i ==> Low(w[s]) == W(data, s)
    {
      FirstWord(data, i);
      w[i] := GetWord(data[4 * i], data[4 * i + 1], data[4 * i + 2], data[4 * i + 3]);
    }
    FirstWindow(w[..], data);
  }

  lemma FirstWindow(w: seq<Wide>, block: seq<Byte>)
    requires |block| == 64 && |w| == 16 && forall s :: 0 <= s < 16 ==> Low(w[s]) == W(block, s)
    ensures Window(w, block, 0)
  {
    hide Low, W;
  }

  /** The next word from four in the window. */
  function NextWord(w: seq<Wide>, t: nat): Wide
    requires |w| == 16 && 16 <= t
  {
    Shift1(WideXor(WideXor(WideXor(w[(t - 3) % 16], w[(t - 8) % 16]), w[(t - 14) % 16]), w[t % 16]))
  }

  lemma NextWordIsNext(w: seq<Wide>, block: seq<Byte>, t: nat)
    requires |block| == 64 && Window(w, block, t) && 16 <= t
    ensures Low(NextWord(w, t)) == W(block, t)
  {
    hide Low, WideXor, Xor, Shift1, Rotl1, BigEndian;
    var p, q, r, s := w[(t - 3) % 16], w[(t - 8) % 16], w[(t - 14) % 16], w[t % 16];
    assert t % 16 == (t - 16) % 16;
    assert Low(p) == W(block, t - 3) && Low(q) == W(block, t - 8);
    assert Low(r) == W(block, t - 14) && Low(s) == W(block, t - 16);
    LowOfXor(p, q);
    LowOfXor(WideXor(p, q), r);
    LowOfXor(WideXor(WideXor(p, q), r), s);
    LowOfShift1(WideXor(WideXor(WideXor(p, q), r), s));
  }

  lemma OtherSlot(s: nat, t: nat)
    requires s < t < s + 16
    ensures s % 16 != t % 16
  {
  }

  lemma WindowMoves(w: seq<Wide>, block: seq<Byte>, t: nat, x: Wide)
    requires |block| == 64 && Window(w, block, t) && 16 <= t && Low(x) == W(block, t)
    ensures Window(w[t % 16 := x], block, t + 1)
  {
    hide Low, W;
    forall s | t - 15 <= s < t + 1 ensures Low(w[t % 16 := x][s % 16]) == W(block, s) {
      if s < t {
        OtherSlot(s, t);
      }
    }
  }

  /** Word t, taken from the window or computed into it. */
  method TakeWord(w: array<Wide>, t: nat, ghost block: seq<Byte>) returns (x: Wide)
    requires |block| == 64 && Window(w[..], block, t)
    modifies w
    ensures Window(w[..], block, t + 1) && Low(x) == W(block, t)
  {
    hide Low, W, NextWord;
    if t < 16 {
      x := w[t];
    } else {
      ghost var before := w[..];
      x := NextWord(w[..], t);
      w[t % 16] := x;
      NextWordIsNext(before, block, t);
      WindowMoves(before, block, t, x);
      assert w[..] == before[t % 16 := x];
    }
  }

  // ----- One block -----

  /** Five steps, after which the registers have their own names again. */
  method FiveSteps(t: nat, w: array<Wide>, h: WideHash, ghost block: seq<Byte>, ghost start: Hash)
      returns (r: WideHash)
    requires |block| == 64 && Window(w[..], block, t) && LowHash(h) == Rounds(start, block, t)
    modifies w
    ensures Window(w[..], block, t + 5) && LowHash(r) == Rounds(start, block, t + 5)
  {
    hide StepSum, Shift30, W, Round, Window, LowHash;
    var A, B, C, D, E := h.a, h.b, h.c, h.d, h.e;
    var x := TakeWord(w, t, block);
    LowOfRenamed(WideHash(A, B, C, D, E), t, x);
    E, B := StepSum(t, A, B, C, D, E, x), Shift30(B);
    assert LowHash(WideHash(E, A, B, C, D)) == Rounds(start, block, t + 1);
    x := TakeWord(w, t + 1, block);
    LowOfRenamed(WideHash(E, A, B, C, D), t + 1, x);
    D, A := StepSum(t + 1, E, A, B, C, D, x), Shift30(A);
    assert LowHash(WideHash(D, E, A, B, C)) == Rounds(start, block, t + 2);
    x := TakeWord(w, t + 2, block);
    LowOfRenamed(WideHash(D, E, A, B, C), t + 2, x);
    C, E := StepSum(t + 2, D, E, A, B, C, x), Shift30(E);
    assert LowHash(WideHash(C, D, E, A, B)) == Rounds(start, block, t + 3);
    x := TakeWord(w, t + 3, block);
    LowOfRenamed(WideHash(C, D, E, A, B), t + 3, x);
    B, D := StepSum(t + 3, C, D, E, A, B, x), Shift30(D);
    assert LowHash(WideHash(B, C, D, E, A)) == Rounds(start, block, t + 4);
    x := TakeWord(w, t + 4, block);
    LowOfRenamed(WideHash(B, C, D, E, A), t + 4, x);
    A, C := StepSum(t + 4, B, C, D, E, A, x), Shift30(C);
    r := WideHash(A, B, C, D, E);
  }

  function WideSum(g: WideHash, h: WideHash): WideHash {
    WideHash(WidePlus(g.a, h.a), WidePlus(g.b, h.b), WidePlus(g.c, h.c), WidePlus(g.d, h.d), WidePlus(g.e, h.e))
  }

  lemma LowOfWideSum(g: WideHash, h: WideHash)
    ensures LowHash(WideSum(g, h)) == Sum(LowHash(g), LowHash(h))
  {
    hide Low, WidePlus, Plus;
    LowOfPlus(g.a, h.a);
    LowOfPlus(g.b, h.b);
    LowOfPlus(g.c, h.c);
    LowOfPlus(g.d, h.d);
    LowOfPlus(g.e, h.e);
  }

  /** One block into the state: in the low halves, the compression of FIPS 180-4. */
  method Process(state: WideHash, data: seq<Byte>) returns (r: WideHash)
    requires |data| == 64
    ensures LowHash(r) == Compress(LowHash(state), data)
  {
    hide LowHash, Window, Rounds, Round, WideSum, Sum;
    var w := LoadBlock(data);
    var h := state;
    assert LowHash(h) == Rounds(LowHash(state), data, 0) by {
      NoRounds(LowHash(state), data);
    }
    var t := 0;
    while t < 80
      invariant t % 5 == 0 && 0 <= t <= 80
      invariant Window(w[..], data, t) && LowHash(h) == Rounds(LowHash(state), data, t)
    {
      h := FiveSteps(t, w, h, data, LowHash(state));
      t := t + 5;
    }
    LowOfWideSum(state, h);
    r := WideSum(state, h);
  }

  lemma NoRounds(h: Hash, block: seq<Byte>)
    requires |block| == 64
    ensures Rounds(h, block, 0) == h
  {
  }
}
