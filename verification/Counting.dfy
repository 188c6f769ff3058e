/** Row and column arithmetic shared by everything that walks a rectangle of
    words one after the other. */
module Counting {

  lemma SmallMultipleIsZero(d: int, h: int)
    requires -h < d * h < h
    ensures d == 0
  {
    if d != 0 && h > 0 {
      MultiplyKeepsOrder(1, if d > 0 then d else -d, h);
    }
  }

  lemma MultiplyKeepsOrder(a: int, b: int, h: int)
    requires a <= b && 0 <= h
    ensures a * h <= b * h
  {
    assert (b - a) * h >= 0;
  }

  lemma QuotientIsUnique(x: int, h: int, q: int, r: int)
    requires h > 0 && 0 <= r < h && x == q * h + r
    ensures x / h == q && x % h == r
  {
    var q', r' := x / h, x % h;
    assert x == h * q' + r';
    assert (q' - q) * h == r - r' by {
      assert (q' - q) * h == q' * h - q * h;
    }
    SmallMultipleIsZero(q' - q, h);
  }

  /** Going from word k to word k + 1 in rows of h words. */
  lemma NextWord(k: nat, h: nat)
    requires h > 0
    ensures k % h == h - 1 ==> (k + 1) % h == 0 && (k + 1) / h == k / h + 1
    ensures k % h != h - 1 ==> (k + 1) % h == k % h + 1 && (k + 1) / h == k / h
    ensures 0 <= k % h < h && 0 <= k / h
  {
    var q, r := k / h, k % h;
    assert k == h * q + r;
    if r == h - 1 {
      assert k + 1 == (q + 1) * h + 0;
      QuotientIsUnique(k + 1, h, q + 1, 0);
    } else {
      assert k + 1 == q * h + (r + 1);
      QuotientIsUnique(k + 1, h, q, r + 1);
    }
  }

  /** A rectangle of h columns and v rows holds h * v words. */
  lemma RowsAndWords(k: nat, h: nat, v: nat)
    requires h > 0
    ensures k < h * v <==> k / h < v
    ensures k == h * v ==> k / h == v && k % h == 0
    ensures v > 0 ==> (k == h * v - 1 <==> k / h == v - 1 && k % h == h - 1)
  {
    var q, r := k / h, k % h;
    assert k == h * q + r && 0 <= r < h;
    if q < v {
      MultiplyKeepsOrder(q + 1, v, h);
      assert (q + 1) * h == h * q + h;
    } else {
      MultiplyKeepsOrder(v, q, h);
    }
    if k == h * v {
      QuotientIsUnique(k, h, v, 0);
    }
    if v > 0 {
      assert h * v - 1 == (v - 1) * h + (h - 1);
      if k == h * v - 1 {
        QuotientIsUnique(k, h, v - 1, h - 1);
      }
      assert h * (v - 1) + (h - 1) == h * v - 1;
    }
  }
}
