/** Chip memory as the Agnus side of the bus sees it: 16-bit words behind a
    power-of-two address mask.  Reads past the installed memory return the bus
    noise value (zero), writes past it are dropped. */
module ChipMemory {
  type Word = bv16

  const ADDRESS_SPACE: int := 0x1_0000_0000

  /** uae_u32 pointer arithmetic. */
  function Wrap(address: int): (r: int)
    ensures 0 <= r < ADDRESS_SPACE
  {
    address % ADDRESS_SPACE
  }

  lemma WrapOfSum(a: int, b: int)
    ensures Wrap(Wrap(a) + b) == Wrap(a + b)
  {
    var q := a / ADDRESS_SPACE;
    assert a == q * ADDRESS_SPACE + Wrap(a);
    var t := Wrap(a) + b;
    assert a + b == t + q * ADDRESS_SPACE;
    WrapShift(t, q);
  }

  lemma WrapShift(t: int, q: int)
    ensures Wrap(t + q * ADDRESS_SPACE) == Wrap(t)
  {
    var d := (t + q * ADDRESS_SPACE) / ADDRESS_SPACE - q - t / ADDRESS_SPACE;
    assert Wrap(t + q * ADDRESS_SPACE) - Wrap(t) == -d * ADDRESS_SPACE;
  }

  /** Index of the word behind an address, after masking with the bus width. */
  function WordIndex(span: nat, address: int): int
    requires span > 0
  {
    (address % span) / 2
  }

  function Get(memory: seq<Word>, span: nat, address: int): Word
    requires span > 0
  {
    var i := WordIndex(span, address);
    if 0 <= i < |memory| then memory[i] else 0
  }

  function Put(memory: seq<Word>, span: nat, address: int, w: Word): (r: seq<Word>)
    requires span > 0
    ensures |r| == |memory|
  {
    var i := WordIndex(span, address);
    if 0 <= i < |memory| then memory[i := w] else memory
  }
}
