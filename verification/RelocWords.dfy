/**
 The words that relocations put into command streams: the shift, the or and the truncation in
 submit_reloc of msm/msm_gem_submit.c, bit by bit.
 */
module RelocWords {

  /** A shift count of the interface: to the left, or to the right if negative. */
  datatype Shift = Left(n: bv6) | Right(n: bv6)

  /** With wrap-around. */
  function Sum(a: bv64, b: bv64): bv64 {
    a + b
  }

  lemma SumIs(a: bv64, b: bv64, c: bv64)
    requires c == a + b
    ensures Sum(a, b) == c
  {
  }

  function Shl(a: bv64, n: bv6): bv64 {
    a << n
  }

  function Shr(a: bv64, n: bv6): bv64 {
    a >> n
  }

  function Or(x: bv64, y: bv64): bv64 {
    x | y
  }

  function Low(x: bv64): (r: bv64)
    ensures r <= 0xFFFF_FFFF
  {
    x & 0xFFFF_FFFF
  }

  function Shifted(a: bv64, s: Shift): bv64 {
    match s
    case Left(n) => Shl(a, n)
    case Right(n) => Shr(a, n)
  }

  /** What is written for address `a`, before it is stored in 32 bits. */
  function Word(a: bv64, s: Shift, or: bv64): (r: bv64)
    ensures r <= 0xFFFF_FFFF
  {
    Low(Or(Shifted(a, s), or))
  }

  // ---------------------------------------------------------------- bits

  predicate Bit(x: bv64, i: bv6) {
    (x >> i) & 1 == 1
  }

  function Plus(i: bv6, n: bv6): bv6 {
    i + n
  }

  predicate Below64(i: bv6, n: bv6) {
    (i as bv7) + (n as bv7) < 64
  }

  lemma ShrBits(a: bv64, n: bv6, i: bv6)
    requires i < 32
    ensures Bit(a >> n, i) == ((i as bv7) + (n as bv7) < 64 && Bit(a, i + n))
  {
  }

  lemma ShlBits(a: bv64, n: bv6, i: bv6)
    requires i < 32
    ensures Bit(a << n, i) == (i >= n && Bit(a, i - n))
  {
  }

  lemma LowBits(x: bv64, i: bv6)
    requires i < 32
    ensures Bit(Low(x), i) == Bit(x, i)
  {
  }

  lemma RawOrBits(x: bv64, y: bv64, i: bv6)
    ensures Bit(x | y, i) == (Bit(x, i) || Bit(y, i))
  {
  }

  lemma OrBits(x: bv64, y: bv64, i: bv6)
    ensures Bit(Or(x, y), i) == (Bit(x, i) || Bit(y, i))
  {
    RawOrBits(x, y, i);
  }

  lemma OredBits(x: bv64, y: bv64, z: bv64, i: bv6)
    requires i < 32 && z == Or(x, y)
    ensures Bit(Low(z), i) == (Bit(x, i) || Bit(y, i))
  {
    LowBits(z, i);
    OrBits(x, y, i);
  }

  lemma WordBits(a: bv64, s: Shift, or: bv64, i: bv6)
    requires i < 32
    ensures Bit(Word(a, s, or), i) == (Bit(Shifted(a, s), i) || Bit(or, i))
  {
    OredBits(Shifted(a, s), or, Or(Shifted(a, s), or), i);
  }

  lemma RightShifted(a: bv64, n: bv6, i: bv6)
    requires i < 32
    ensures Bit(Shr(a, n), i) == (Below64(i, n) && Bit(a, Plus(i, n)))
  {
    ShrBits(a, n, i);
  }

  function Minus(i: bv6, n: bv6): bv6 {
    i - n
  }

  lemma LeftShifted(a: bv64, n: bv6, i: bv6)
    requires i < 32
    ensures Bit(Shl(a, n), i) == (i >= n && Bit(a, Minus(i, n)))
  {
    ShlBits(a, n, i);
  }

  /** With a shift to the right, bit `i` of the word is bit `i + n` of the address, or the bit to be
      or-ed in. */
  lemma RightWordBits(a: bv64, n: bv6, or: bv64, i: bv6)
    requires i < 32
    ensures Bit(Word(a, Right(n), or), i) == ((Below64(i, n) && Bit(a, Plus(i, n))) || Bit(or, i))
  {
    WordBits(a, Right(n), or, i);
    RightShifted(a, n, i);
  }

  /** With a shift to the left, it is bit `i - n` of the address, or the bit to be or-ed in. */
  lemma LeftWordBits(a: bv64, n: bv6, or: bv64, i: bv6)
    requires i < 32
    ensures Bit(Word(a, Left(n), or), i) == ((i >= n && Bit(a, Minus(i, n))) || Bit(or, i))
  {
    WordBits(a, Left(n), or, i);
    LeftShifted(a, n, i);
  }

  // ---------------------------------------------------------------- stored in 32 bits

  /** The word that ends up in the stream. */
  function Stored(a: bv64, s: Shift, or: bv32): (r: bv32)
    ensures r as bv64 == Word(a, s, or as bv64)
  {
    Word(a, s, or as bv64) as bv32
  }

  lemma OrStays(a: bv64, s: Shift, or: bv32)
    ensures Stored(a, s, or) & or == or
  {
  }

  function TwoWords(low: bv64, high: bv64): bv64 {
    (high << 32) | low
  }

  /** The low and the high half put together are the address. */
  lemma HalvesMakeAddress(a: bv64)
    ensures TwoWords(Word(a, Left(0), 0), Word(a, Right(32), 0)) == a
  {
  }

  /** What the hardware makes of two words of the stream. */
  function TwoStored(low: bv32, high: bv32): bv64 {
    TwoWords(low as bv64, high as bv64)
  }

  lemma StoredHalvesMakeAddress(a: bv64)
    ensures TwoStored(Stored(a, Left(0), 0), Stored(a, Right(32), 0)) == a
  {
    HalvesMakeAddress(a);
  }

  lemma PlainWords()
    ensures Stored(5, Left(0), 0) == 5 && Stored(0, Left(0), 0) == 0
  {
  }
}
