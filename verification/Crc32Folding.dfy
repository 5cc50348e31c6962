/** `clmul::update`: 64 bytes at a time by carry-less multiplication, then a
    reduction of 128 bits to 64, to 32 and, after Barrett, to the CRC. */
module Crc32Folding {
  import opened Binary
  import opened Crc32
  import opened Crc32Tables

  const LEAST := 128

  const K1: Word := Hex(0x1_5444_2bd4)
  const K2: Word := Hex(0x1_c6e4_1596)
  const K3: Word := Hex(0x1_7519_97d0)
  const K4: Word := Hex(0x0_ccaa_009e)
  const K5: Word := Hex(0x1_63cd_6124)
  const POLY: Word := Hex(0x1_db71_0641)
  const MU: Word := Hex(0x1_f701_1641)

  // ---------------------------------------------------------------- what a product runs to

  /** When `k` runs to what `v` does some steps longer, a product by `k` runs to what
      the product by `v` does as much longer. */
  lemma {:induction false} ProductRuns(a: Word, k: Word, v: Word, n: nat, m: nat, d: nat)
    requires Fits(a, n) && 0 < n <= m && n <= d
    requires Run(k, m - n + 1) == Run(v, d - n + 1)
    ensures Run(ClMul(a, k), m) == Run(ClMul(a, v), d)
    decreases n
  {
    RunSplit(k, m - n + 1, n - 1);
    RunSplit(v, d - n + 1, n - 1);
    if a.Zero? {
      RunZero(m);
      RunZero(d);
    } else {
      RunLinear(Pick(a.odd, k), ClMul(a.rest, Twice(k)), m);
      RunLinear(Pick(a.odd, v), ClMul(a.rest, Twice(v)), d);
      RunZero(m);
      RunZero(d);
      if n == 1 {
        RunZero(m);
        RunZero(d);
      } else {
        RunTwice(k, m - n + 1);
        RunTwice(v, d - n + 1);
        ProductRuns(a.rest, Twice(k), Twice(v), n - 1, m, d);
      }
    }
  }

  lemma RunTwice(w: Word, n: nat)
    ensures Run(Twice(w), n + 1) == Run(w, n)
  {
    assert Step(Twice(w)) == w;
  }

  /** A product by a power of x, which runs to what 1 does `far` steps longer, runs to
      what its factor does `far` steps longer. */
  lemma PowerRuns(a: Word, k: Word, far: nat, n: nat, m: nat)
    requires Fits(a, n) && 0 < n <= m
    requires Run(k, 1) == Run(ONE, far + 1)
    ensures Run(ClMul(a, k), m) == Run(a, m + far)
  {
    RunSplit(k, 1, m - n);
    RunSplit(ONE, far + 1, m - n);
    ProductRuns(a, k, ONE, n, m, m + far);
    ClMulOne(a);
  }

  // ---------------------------------------------------------------- the powers of x

  function BvStep(c: bv64): bv64 {
    if c & 1 == 1 then 0xedb8_8320 ^ (c >> 1) else c >> 1
  }

  function BvEight(c: bv64): bv64 {
    BvStep(BvStep(BvStep(BvStep(BvStep(BvStep(BvStep(BvStep(c))))))))
  }

  lemma HexMake(c: bv64)
    ensures Hex(c) == Make(c & 1 == 1, Hex(c >> 1))
  {}

  lemma XorBits(a: bv64, b: bv64)
    ensures (a ^ b) >> 1 == (a >> 1) ^ (b >> 1)
    ensures (a ^ b) & 1 == 1 <==> ((a & 1 == 1) != (b & 1 == 1))
  {}

  lemma {:induction false} HexXor(a: bv64, b: bv64)
    ensures Hex(a ^ b) == Xor(Hex(a), Hex(b))
    decreases a
  {
    if a == 0 {
      assert a ^ b == b;
    } else {
      XorBits(a, b);
      HexXor(a >> 1, b >> 1);
      HexMake(a);
      HexMake(b);
      HexMake(a ^ b);
      XorMake(a & 1 == 1, Hex(a >> 1), b & 1 == 1, Hex(b >> 1));
    }
  }

  lemma HexStep(c: bv64)
    ensures Step(Hex(c)) == Hex(BvStep(c))
  {
    HexMake(c);
    HexXor(0xedb8_8320, c >> 1);
  }

  lemma HexEight(c: bv64)
    ensures Run(Hex(c), 8) == Hex(BvEight(c))
  {
    var c1 := BvStep(c);
    var c2 := BvStep(c1);
    var c3 := BvStep(c2);
    var c4 := BvStep(c3);
    assert Run(Hex(c), 4) == Hex(c4) by {
      HexStep(c);
      HexStep(c1);
      HexStep(c2);
      HexStep(c3);
    }
    var c5 := BvStep(c4);
    var c6 := BvStep(c5);
    var c7 := BvStep(c6);
    assert Run(Hex(c4), 4) == Hex(BvStep(c7)) by {
      HexStep(c4);
      HexStep(c5);
      HexStep(c6);
      HexStep(c7);
    }
    RunSplit(Hex(c), 4, 4);
  }

  /** Each constant is the one before it, eight steps on. */
  lemma Next32(n: nat, c: bv64, c8: bv64, c16: bv64, c24: bv64, c32: bv64)
    requires Run(ONE, n) == Hex(c)
    requires BvEight(c) == c8 && BvEight(c8) == c16 && BvEight(c16) == c24 && BvEight(c24) == c32
    ensures Run(ONE, n + 32) == Hex(c32)
  {
    HexEight(c);
    RunSplit(ONE, n, 8);
    HexEight(c8);
    RunSplit(ONE, n + 8, 8);
    HexEight(c16);
    RunSplit(ONE, n + 16, 8);
    HexEight(c24);
    RunSplit(ONE, n + 24, 8);
  }

  lemma Power64()
    ensures Run(ONE, 32) == Hex(0xb8bc6765) && Run(ONE, 64) == Hex(0xccaa009e)
  {
    assert Run(ONE, 0) == Hex(1);
    Next32(0, 0x00000001, 0x77073096, 0x191b3141, 0x01c26a37, 0xb8bc6765);
    Next32(32, 0xb8bc6765, 0x3d6029b0, 0xcb5cd3a5, 0xa6770bb4, 0xccaa009e);
  }

  lemma Power128()
    ensures Run(ONE, 128) == Hex(0xae689191)
  {
    Power64();
    Next32(64, 0xccaa009e, 0x177b1443, 0xefc26b3e, 0xc18edfc0, 0x9ba54c6f);
    Next32(96, 0x9ba54c6f, 0xdd96d985, 0x9d0fe176, 0xb9fbdbe8, 0xae689191);
  }

  lemma Power256()
    ensures Run(ONE, 256) == Hex(0xf1da05aa)
  {
    Power128();
    Next32(128, 0xae689191, 0x87a6cb43, 0xef52b6e1, 0xd7e28058, 0x65673b46);
    Next32(160, 0x65673b46, 0x9fda839e, 0x172864c0, 0x9b73ead4, 0x81256527);
    Next32(192, 0x81256527, 0xa58b900e, 0xe71da697, 0x6e8c1b41, 0x01b5fd1d);
    Next32(224, 0x01b5fd1d, 0x6307d924, 0x3c60e308, 0x0ee7e8d1, 0xf1da05aa);
  }

  lemma Power384()
    ensures Run(ONE, 384) == Hex(0x3db1ecdc)
  {
    Power256();
    Next32(256, 0xf1da05aa, 0x36f290f3, 0x24825136, 0xcf9e17c8, 0x9570d495);
    Next32(288, 0x9570d495, 0x80f0171f, 0x8d88fde2, 0x4e890ba9, 0xaf449247);
    Next32(320, 0xaf449247, 0xe81790a1, 0xa13984ee, 0x4713f6fb, 0x2a283862);
    Next32(352, 0x2a283862, 0xa396284c, 0x7fc99b93, 0x69790b65, 0x3db1ecdc);
  }

  lemma Power512()
    ensures Run(ONE, 448) == Hex(0x1d9513d7) && Run(ONE, 512) == Hex(0x8f352d95)
  {
    Power384();
    Next32(384, 0x3db1ecdc, 0x8f582f13, 0x843119f1, 0xca3ef393, 0x69ccfc0d);
    Next32(416, 0x69ccfc0d, 0x7ed8b041, 0x01a5a9b6, 0x2203b310, 0x1d9513d7);
    Next32(448, 0x1d9513d7, 0x18aad264, 0x4ac70f93, 0x694c05f1, 0xcad38e8f);
    Next32(480, 0xcad38e8f, 0x7dcd4d3f, 0xb61be070, 0x50b36adc, 0x8f352d95);
  }

  /** `k` is the power of x its place needs: one step of both is enough to see it. */
  lemma IsPower(k: bv64, far: nat, c: bv64)
    requires Run(ONE, far) == Hex(c) && BvStep(k) == BvStep(c)
    ensures Run(Hex(k), 1) == Run(ONE, far + 1)
  {
    HexStep(k);
    HexStep(c);
    RunSplit(ONE, far, 1);
  }

  lemma PolyDigits()
    ensures POLY == Make(true, POLYNOMIAL)
  {
    HexMake(0x1_db71_0641);
  }

  lemma Constants()
    ensures Run(K1, 1) == Run(ONE, 512 + 1) && Run(K2, 1) == Run(ONE, 448 + 1)
    ensures Run(K3, 1) == Run(ONE, 128 + 1) && Run(K4, 1) == Run(ONE, 64 + 1)
    ensures Run(K5, 1) == Run(ONE, 32 + 1)
    ensures POLY == Make(true, POLYNOMIAL)
  {
    PolyDigits();
    Power512();
    IsPower(0x1_5444_2bd4, 512, 0x8f352d95);
    IsPower(0x1_c6e4_1596, 448, 0x1d9513d7);
    Power128();
    IsPower(0x1_7519_97d0, 128, 0xae689191);
    Power64();
    IsPower(0x0_ccaa_009e, 64, 0xccaa009e);
    IsPower(0x1_63cd_6124, 32, 0xb8bc6765);
  }

  lemma K1Fits()
    ensures Fits(K1, 33)
  {
    assert Short(0x1, 1) && Short(0x15, 5) && Short(0x154, 9) && Short(0x1544, 13);
    assert Short(0x15444, 17) && Short(0x154442, 21) && Short(0x154442b, 25) && Short(0x154442bd, 29);
    HexFits(0x154442bd4, 33);
  }

  lemma K2Fits()
    ensures Fits(K2, 33)
  {
    assert Short(0x1, 1) && Short(0x1c, 5) && Short(0x1c6, 9) && Short(0x1c6e, 13);
    assert Short(0x1c6e4, 17) && Short(0x1c6e41, 21) && Short(0x1c6e415, 25) && Short(0x1c6e4159, 29);
    HexFits(0x1c6e41596, 33);
  }

  lemma K3Fits()
    ensures Fits(K3, 33)
  {
    assert Short(0x1, 1) && Short(0x17, 5) && Short(0x175, 9) && Short(0x1751, 13);
    assert Short(0x17519, 17) && Short(0x175199, 21) && Short(0x1751997, 25) && Short(0x1751997d, 29);
    HexFits(0x1751997d0, 33);
  }

  lemma K4Fits()
    ensures Fits(K4, 32)
  {
    assert Short(0xc, 4) && Short(0xcc, 8) && Short(0xcca, 12) && Short(0xccaa, 16);
    assert Short(0xccaa0, 20) && Short(0xccaa00, 24) && Short(0xccaa009, 28);
    HexFits(0xccaa009e, 32);
  }

  lemma K5Fits()
    ensures Fits(K5, 33)
  {
    assert Short(0x1, 1) && Short(0x16, 5) && Short(0x163, 9) && Short(0x163c, 13);
    assert Short(0x163cd, 17) && Short(0x163cd6, 21) && Short(0x163cd61, 25) && Short(0x163cd612, 29);
    HexFits(0x163cd6124, 33);
  }

  lemma POLYFits()
    ensures Fits(POLY, 33)
  {
    assert Short(0x1, 1) && Short(0x1d, 5) && Short(0x1db, 9) && Short(0x1db7, 13);
    assert Short(0x1db71, 17) && Short(0x1db710, 21) && Short(0x1db7106, 25) && Short(0x1db71064, 29);
    HexFits(0x1db710641, 33);
  }

  // ---------------------------------------------------------------- folding

  /** The two halves of a register. */
  function Set64(hi: Word, lo: Word): Word {
    Xor(lo, Shl(hi, 64))
  }

  lemma SetHalves(hi: Word, lo: Word)
    requires Fits(lo, 64)
    ensures Low(Set64(hi, lo), 64) == lo && High(Set64(hi, lo), 64) == hi
  {
    XorHigh(lo, Shl(hi, 64), 64);
    HighShl(hi, 64);
    LowFits(lo, 64);
    XorComm(lo, Zero);
  }

  /** `a` folded ahead onto `b` by the powers `k`. */
  function Fold(a: Word, b: Word, k: Word): Word {
    Xor(Xor(b, ClMul(Low(a, 64), Low(k, 64))), ClMul(High(a, 64), High(k, 64)))
  }

  lemma FoldFits(a: Word, b: Word, k: Word)
    requires Fits(a, 128) && Fits(b, 128) && Fits(k, 128)
    ensures Fits(Fold(a, b, k), 128)
  {
    hide Run, Xor, ClMul, Low, High, Hex, Shl;
    HalvesFit(a);
    HalvesFit(k);
    var (p, q) := (ClMul(Low(a, 64), Low(k, 64)), ClMul(High(a, 64), High(k, 64)));
    ClMulFits(Low(a, 64), Low(k, 64), 64, 64);
    ClMulFits(High(a, 64), High(k, 64), 64, 64);
    FitsMore(p, 127, 128);
    FitsMore(q, 127, 128);
    XorFits(b, p, 128);
    XorFits(Xor(b, p), q, 128);
  }

  lemma HalvesFit(a: Word)
    requires Fits(a, 128)
    ensures Fits(Low(a, 64), 64) && Fits(High(a, 64), 64)
  {
    LowFits(a, 64);
    HighHigh(a, 64, 64);
  }

  /** A register folded `far` bits ahead counts as it would have there. */
  lemma FoldRuns(a: Word, b: Word, k1: Word, k2: Word, far: nat, m: nat)
    requires Fits(a, 128) && Fits(k1, 64) && far >= 64 && m >= 64
    requires Run(k1, 1) == Run(ONE, far + 1) && Run(k2, 1) == Run(ONE, far - 64 + 1)
    ensures Run(Fold(a, b, Set64(k2, k1)), m) == Xor(Run(b, m), Run(a, m + far))
  {
    hide Run, Xor, ClMul, Low, High, Shl;
    var (l, h) := (Low(a, 64), High(a, 64));
    var (p, q) := (ClMul(l, k1), ClMul(h, k2));
    assert Fold(a, b, Set64(k2, k1)) == Xor(Xor(b, p), q) by { SetHalves(k2, k1); }
    assert Run(p, m) == Run(l, m + far) && Run(q, m) == Run(h, m + far - 64) by {
      HalvesFit(a);
      PowerRuns(l, k1, far, 64, m);
      PowerRuns(h, k2, far - 64, 64, m);
    }
    assert Run(a, m + far) == Xor(Run(l, m + far), Run(h, m + far - 64)) by { RunApart(a, 64, m + far - 64); }
    RunSum3(b, p, q, m);
  }

  lemma RunSum3(b: Word, p: Word, q: Word, m: nat)
    ensures Run(Xor(Xor(b, p), q), m) == Xor(Run(b, m), Xor(Run(p, m), Run(q, m)))
  {
    hide Run, Xor, ClMul, Low, High, Hex, Shl;
    RunLinear(Xor(b, p), q, m);
    RunLinear(b, p, m);
    XorAssoc(Run(b, m), Run(p, m), Run(q, m));
  }

  function Ahead(): Word { Set64(K2, K1) }
  function Next(): Word { Set64(K4, K3) }

  lemma PowersFit()
    ensures Fits(Ahead(), 128) && Fits(Next(), 128) && Fits(K1, 64) && Fits(K3, 64)
  {
    K1Fits();
    K2Fits();
    K3Fits();
    K4Fits();
    FitsMore(K1, 33, 64);
    FitsMore(K2, 33, 64);
    FitsMore(K3, 33, 64);
    FitsMore(K4, 32, 64);
    SetFits(K2, K1);
    SetFits(K4, K3);
  }

  lemma SetFits(hi: Word, lo: Word)
    requires Fits(hi, 64) && Fits(lo, 64)
    ensures Fits(Set64(hi, lo), 128)
  {
    SetHalves(hi, lo);
    HighHigh(Set64(hi, lo), 64, 64);
  }

  lemma AheadPowers()
    ensures Fits(K1, 64) && Run(K1, 1) == Run(ONE, 512 + 1) && Run(K2, 1) == Run(ONE, 512 - 64 + 1)
  {
    Constants();
    PowersFit();
  }

  lemma NextPowers()
    ensures Fits(K3, 64) && Run(K3, 1) == Run(ONE, 128 + 1) && Run(K4, 1) == Run(ONE, 128 - 64 + 1)
  {
    Constants();
    PowersFit();
  }

  /** `x` stands for `b` and, `far` bits before it, `a`. */
  ghost predicate Folded(x: Word, a: Word, b: Word, far: nat) {
    Fits(x, 128) && forall m :: m >= 64 ==> Run(x, m) == Xor(Run(b, m), Run(a, m + far))
  }

  lemma FoldAhead(a: Word, b: Word)
    requires Fits(a, 128) && Fits(b, 128)
    ensures Folded(Fold(a, b, Ahead()), a, b, 512)
  {
    hide Run, Xor, ClMul, Low, High, Hex, Shl;
    forall m: nat | m >= 64 ensures Run(Fold(a, b, Ahead()), m) == Xor(Run(b, m), Run(a, m + 512)) {
      AheadPowers();
      FoldRuns(a, b, K1, K2, 512, m);
    }
    PowersFit();
    FoldFits(a, b, Ahead());
  }

  lemma FoldNext(a: Word, b: Word)
    requires Fits(a, 128) && Fits(b, 128)
    ensures Folded(Fold(a, b, Next()), a, b, 128)
  {
    hide Run, Xor, ClMul, Low, High, Hex, Shl;
    forall m: nat | m >= 64 ensures Run(Fold(a, b, Next()), m) == Xor(Run(b, m), Run(a, m + 128)) {
      NextPowers();
      FoldRuns(a, b, K3, K4, 128, m);
    }
    PowersFit();
    FoldFits(a, b, Next());
  }

  // ---------------------------------------------------------------- the four lanes

  /** The register four lanes of 16 bytes stand for, the first the earliest. */
  ghost function LanesRun(a: Word, b: Word, c: Word, d: Word): Word {
    Xor(Xor(Run(a, 512), Run(b, 384)), Xor(Run(c, 256), Run(d, 128)))
  }

  lemma BlockRuns(s: Word, block: seq<Byte>)
    requires |block| == 16
    ensures Bitwise(s, block) == Xor(Run(s, 128), Run(Load(block), 128))
  {
    hide Run, Xor, ClMul, Low, High, Hex, Shl;
    RunLoad(s, block);
    RunLinear(s, Load(block), 128);
  }

  /** Two blocks, the state before them run past both. */
  lemma PairRuns(s: Word, pair: seq<Byte>)
    requires |pair| == 32
    ensures Bitwise(s, pair) == Xor(Run(s, 256), Xor(Run(Load(pair[..16]), 256), Run(Load(pair[16..]), 128)))
  {
    hide Run, Xor, ClMul, Low, High, Hex, Shl;
    var (a, b) := (Load(pair[..16]), Load(pair[16..]));
    assert pair == pair[..16] + pair[16..];
    BitwiseAppend(s, pair[..16], pair[16..]);
    BlockRuns(s, pair[..16]);
    BlockRuns(Xor(Run(s, 128), Run(a, 128)), pair[16..]);
    RunLinear(Run(s, 128), Run(a, 128), 128);
    RunSplit(s, 128, 128);
    RunSplit(a, 128, 128);
    XorAssoc(Run(s, 256), Run(a, 256), Run(b, 128));
  }

  lemma QuadRuns(s: Word, quad: seq<Byte>)
    requires |quad| == 64
    ensures Bitwise(s, quad) ==
            Xor(Run(s, 512), LanesRun(Load(quad[..16]), Load(quad[16..32]), Load(quad[32..48]), Load(quad[48..])))
  {
    hide Run, Xor, ClMul, Low, High, Hex, Shl;
    var (first, last) := (quad[..32], quad[32..]);
    assert quad == first + last;
    assert first[..16] == quad[..16] && first[16..] == quad[16..32];
    assert last[..16] == quad[32..48] && last[16..] == quad[48..];
    var (a, b) := (Load(quad[..16]), Load(quad[16..32]));
    var (c, d) := (Load(quad[32..48]), Load(quad[48..]));
    BitwiseAppend(s, first, last);
    PairRuns(s, first);
    var ab := Xor(Run(a, 256), Run(b, 128));
    PairRuns(Xor(Run(s, 256), ab), last);
    RunLinear(Run(s, 256), ab, 256);
    RunLinear(Run(a, 256), Run(b, 128), 256);
    RunSplit(s, 256, 256);
    RunSplit(a, 256, 256);
    RunSplit(b, 128, 256);
    XorAssoc(Run(s, 512), Xor(Run(a, 512), Run(b, 384)), Xor(Run(c, 256), Run(d, 128)));
  }

  /** Four lanes folded 64 bytes ahead stand for the register after those bytes. */
  lemma LanesAhead(l: seq<Word>, n: seq<Word>, p: Word, q: Word, r: Word, t: Word)
    requires |l| == 4 && |n| == 4
    requires Folded(n[0], l[0], p, 512) && Folded(n[1], l[1], q, 512)
    requires Folded(n[2], l[2], r, 512) && Folded(n[3], l[3], t, 512)
    ensures LanesRun(n[0], n[1], n[2], n[3]) ==
            Xor(Run(LanesRun(l[0], l[1], l[2], l[3]), 512), LanesRun(p, q, r, t))
  {
    hide Run, Xor, ClMul, Low, High, Hex, Shl;
    LanesLater(l[0], l[1], l[2], l[3]);
    Swap8(Run(p, 512), Run(l[0], 1024), Run(q, 384), Run(l[1], 896),
          Run(r, 256), Run(l[2], 768), Run(t, 128), Run(l[3], 640));
  }

  lemma Swap8(p: Word, a: Word, q: Word, b: Word, r: Word, c: Word, t: Word, d: Word)
    ensures Xor(Xor(Xor(p, a), Xor(q, b)), Xor(Xor(r, c), Xor(t, d)))
         == Xor(Xor(Xor(a, b), Xor(c, d)), Xor(Xor(p, q), Xor(r, t)))
  {
    hide Run, Xor, ClMul, Low, High, Hex, Shl;
    XorSwap(p, a, q, b);
    XorSwap(r, c, t, d);
    XorSwap(Xor(p, q), Xor(a, b), Xor(r, t), Xor(c, d));
    XorComm(Xor(Xor(p, q), Xor(r, t)), Xor(Xor(a, b), Xor(c, d)));
  }

  lemma LanesLater(a: Word, b: Word, c: Word, d: Word)
    ensures Run(LanesRun(a, b, c, d), 512)
         == Xor(Xor(Run(a, 1024), Run(b, 896)), Xor(Run(c, 768), Run(d, 640)))
  {
    hide Run, Xor, ClMul, Low, High, Hex, Shl;
    RunLinear(Xor(Run(a, 512), Run(b, 384)), Xor(Run(c, 256), Run(d, 128)), 512);
    RunLinear(Run(a, 512), Run(b, 384), 512);
    RunLinear(Run(c, 256), Run(d, 128), 512);
    RunSplit(a, 512, 512);
    RunSplit(b, 384, 512);
    RunSplit(c, 256, 512);
    RunSplit(d, 128, 512);
  }

  /** The lanes folded into one. */
  lemma LanesMerge(a: Word, b: Word, c: Word, d: Word, ab: Word, abc: Word, x: Word)
    requires Folded(ab, a, b, 128) && Folded(abc, ab, c, 128) && Folded(x, abc, d, 128)
    ensures Run(x, 128) == LanesRun(a, b, c, d)
  {
    hide Run, Xor, ClMul, Low, High, Hex, Shl;
    assert Run(abc, 256) == Xor(Run(c, 256), Run(ab, 384));
    assert Run(ab, 384) == Xor(Run(b, 384), Run(a, 512));
    Reorder4(Run(a, 512), Run(b, 384), Run(c, 256), Run(d, 128));
  }

  lemma Reorder4(a: Word, b: Word, c: Word, d: Word)
    ensures Xor(d, Xor(c, Xor(b, a))) == Xor(Xor(a, b), Xor(c, d))
  {
    hide Run, Xor, ClMul, Low, High, Hex, Shl;
    XorComm(b, a);
    XorComm(c, Xor(a, b));
    XorComm(d, Xor(Xor(a, b), c));
    XorAssoc(Xor(a, b), c, d);
  }

  // ---------------------------------------------------------------- the reduction

  function Reduced64(x: Word): Word {
    Xor(ClMul(Low(x, 64), K4), High(x, 64))
  }

  function Reduced32(x: Word): Word {
    Xor(ClMul(Low(x, 32), K5), High(x, 32))
  }

  function Barrett(x: Word): Word {
    var t1 := ClMul(Low(x, 32), MU);
    var t2 := ClMul(Low(t1, 32), POLY);
    Low(High(Xor(x, t2), 32), 32)
  }

  /** The low `p` digits of a register replaced by their product with a power of x. */
  lemma ReductionRuns(x: Word, k: Word, p: nat, m: nat)
    requires 0 < p <= m && Run(k, 1) == Run(ONE, p + 1)
    ensures Run(Xor(ClMul(Low(x, p), k), High(x, p)), m) == Run(x, p + m)
  {
    var (l, h) := (Low(x, p), High(x, p));
    LowFits(x, p);
    PowerRuns(l, k, p, p, m);
    RunLinear(ClMul(l, k), h, m);
    RunApart(x, p, m);
  }

  lemma ReductionFits(x: Word, k: Word, p: nat, n: nat, width: nat)
    requires 0 < n && p + n - 1 <= width && Fits(k, n) && Fits(x, p + width)
    ensures Fits(Xor(ClMul(Low(x, p), k), High(x, p)), width)
  {
    LowFits(x, p);
    HighHigh(x, p, width);
    ClMulFits(Low(x, p), k, p, n);
    FitsMore(ClMul(Low(x, p), k), p + n - 1, width);
    XorFits(ClMul(Low(x, p), k), High(x, p), width);
  }

  lemma Reduces64(x: Word)
    requires Fits(x, 128)
    ensures Run(Reduced64(x), 64) == Run(x, 128) && Fits(Reduced64(x), 96)
  {
    hide Run, Xor, ClMul, Low, High, Hex, Shl, Fits;
    Constants();
    ReductionRuns(x, K4, 64, 64);
    K4Fits();
    FitsMore(x, 128, 160);
    ReductionFits(x, K4, 64, 32, 96);
  }

  lemma Reduces32(x: Word)
    requires Fits(x, 96)
    ensures Run(Reduced32(x), 32) == Run(x, 64) && Fits(Reduced32(x), 64)
  {
    hide Run, Xor, ClMul, Low, High, Hex, Shl, Fits;
    Constants();
    ReductionRuns(x, K5, 32, 32);
    K5Fits();
    ReductionFits(x, K5, 32, 33, 64);
  }

  /** Which of `n` steps from `w` subtract the polynomial: the quotient of `w` by it. */
  function Quotient(w: Word, n: nat): Word
    decreases n
  {
    if n == 0 then Zero else Make(Odd(w), Quotient(Step(w), n - 1))
  }

  lemma {:induction false} QuotientDivides(w: Word, n: nat)
    ensures Xor(w, ClMul(Quotient(w, n), POLY)) == Shl(Run(w, n), n)
    decreases n
  {
    if n == 0 {
      XorComm(w, Zero);
    } else {
      var q := Quotient(Step(w), n - 1);
      var product := ClMul(q, POLY);
      ClMulTwice(q, POLY);
      ClMulStep(Make(Odd(w), q), POLY);
      QuotientDivides(Step(w), n - 1);
      ShlInner(Run(Step(w), n - 1), n - 1);
      assert Xor(w, Pick(Odd(w), POLY)) == Twice(Step(w)) by {
        PolyDigits();
        MakeHalf(w);
        XorMake(Odd(w), Half(w), Odd(w), if Odd(w) then POLYNOMIAL else Zero);
        XorComm(Half(w), POLYNOMIAL);
        XorComm(Half(w), Zero);
        XorComm(w, Zero);
      }
      XorAssoc(w, Pick(Odd(w), POLY), Twice(product));
      XorMake(false, Step(w), false, product);
    }
  }

  lemma ShlInner(a: Word, n: nat)
    ensures Twice(Shl(a, n)) == Shl(a, n + 1)
  {}

  /** The low digits of `mu` are those of the quotient. */
  predicate Agrees(mu: bv64, c: bv64, n: nat)
    decreases n
  {
    n == 0 || (mu & 1 == c & 1 && Agrees(mu >> 1, BvStep(c), n - 1))
  }

  lemma {:induction false} AgreesQuotient(mu: bv64, c: bv64, n: nat)
    requires Agrees(mu, c, n)
    ensures Low(Hex(mu), n) == Quotient(Hex(c), n)
    decreases n
  {
    if n > 0 {
      HexMake(mu);
      HexMake(c);
      HexStep(c);
      AgreesQuotient(mu >> 1, BvStep(c), n - 1);
    }
  }

  /** The Barrett constant is the quotient of 1. */
  lemma MuIsQuotient()
    ensures Low(MU, 32) == Quotient(ONE, 32)
  {
    assert Agrees(0x1f, 0x5019579f, 4) && Agrees(0x1f7, 0x1c26a37, 8) && Agrees(0x1f70, 0x1c26a370, 12);
    assert Agrees(0x1f701, 0x191b3141, 16) && Agrees(0x1f7011, 0x4ac21251, 20) && Agrees(0x1f70116, 0x77073096, 24);
    assert Agrees(0x1f701164, 0x1db71064, 28) && Agrees(0x1f7011641, 0x1, 32);
    assert Hex(1) == ONE;
    AgreesQuotient(0x1_f701_1641, 1, 32);
  }

  /** The product by `MU` and then by the polynomial gives the low 32 digits back. */
  lemma MuInverts(l: Word)
    requires Fits(l, 32)
    ensures Low(ClMul(Low(ClMul(l, MU), 32), POLY), 32) == l
  {
    var (q, h) := (Low(MU, 32), High(MU, 32));
    LowProduct(l, q, h, MU);
    ClMulLow(ClMul(l, MU), POLY, 32);
    ClMulLow(ClMul(l, q), POLY, 32);
    ClMulAssoc(l, q, POLY);
    MuIsQuotient();
    QuotientDivides(ONE, 32);
    var (u, r) := (ClMul(q, POLY), Run(ONE, 32));
    assert u == Xor(ONE, Shl(r, 32)) by {
      XorAssoc(ONE, ONE, u);
      XorSelf(ONE);
    }
    ClMulOne(l);
    LowProduct(l, ONE, r, u);
    LowFits(l, 32);
  }

  lemma LowProduct(l: Word, q: Word, h: Word, k: Word)
    requires k == Xor(q, Shl(h, 32)) || (q == Low(k, 32) && h == High(k, 32))
    ensures Low(ClMul(l, k), 32) == Low(ClMul(l, q), 32)
  {
    XorHalves(k, 32);
    ClMulLinearRight(l, q, Shl(h, 32));
    ClMulShl(l, h, 32);
    XorHigh(ClMul(l, q), Shl(ClMul(l, h), 32), 32);
    HighShl(ClMul(l, h), 32);
    XorComm(Low(ClMul(l, q), 32), Zero);
  }

  /** The Barrett step is the last 32 steps of the register. */
  lemma BarrettRuns(x: Word)
    requires Fits(x, 64)
    ensures Barrett(x) == Run(x, 32)
  {
    hide Run, Xor, ClMul, Hex, Shl, Low, High;
    var l := Low(x, 32);
    var q := Low(ClMul(l, MU), 32);
    var t2 := ClMul(q, POLY);
    var y := Xor(x, t2);
    LowFits(x, 32);
    LowFits(ClMul(l, MU), 32);
    assert Low(y, 32) == Zero by {
      MuInverts(l);
      XorHigh(x, t2, 32);
      XorSelf(l);
    }
    assert Run(y, 32) == High(y, 32) by {
      LowAtOnce(y, 32);
      RunZero(32);
      XorZero(High(y, 32));
    }
    assert Run(y, 32) == Run(x, 32) by {
      MultipleRuns(q);
      RunLinear(x, t2, 32);
      XorComm(Run(x, 32), Zero);
      XorZero(Run(x, 32));
    }
    assert Low(High(y, 32), 32) == High(y, 32) by {
      POLYFits();
      ClMulFits(q, POLY, 32, 33);
      XorFits(x, t2, 64);
      HighHigh(y, 32, 32);
      LowFits(High(y, 32), 32);
    }
  }

  lemma XorZero(a: Word)
    ensures Xor(Zero, a) == a
  {}

  /** A multiple of the polynomial runs to nothing. */
  lemma MultipleRuns(q: Word)
    requires Fits(q, 32)
    ensures Run(ClMul(q, POLY), 32) == Zero
  {
    PolyDigits();
    XorSelf(POLYNOMIAL);
    assert Run(POLY, 1) == Zero && Run(Zero, 1) == Zero;
    ProductRuns(q, POLY, Zero, 32, 32, 32);
    ClMulOne(q);
    RunZero(32);
  }

  // ---------------------------------------------------------------- the whole update

  ghost predicate LanesFit(lanes: seq<Word>) {
    |lanes| == 4 && forall k :: 0 <= k < 4 ==> Fits(lanes[k], 128)
  }

  /** What the lanes stand for, between two turns of the loop. */
  ghost predicate Stands(lanes: seq<Word>, c: Word) {
    LanesFit(lanes) && LanesRun(lanes[0], lanes[1], lanes[2], lanes[3]) == c
  }

  function BlockOf(bytes: seq<Byte>, at: nat): Word
    requires at + 16 <= |bytes|
  {
    Load(bytes[at..at + 16])
  }

  lemma BlockFits(bytes: seq<Byte>, at: nat)
    requires at + 16 <= |bytes|
    ensures Fits(BlockOf(bytes, at), 128)
  {
    LoadFits(bytes[at..at + 16]);
  }

  lemma SliceOfSlice<T>(s: seq<T>, a: nat, b: nat, i: nat, j: nat)
    requires a <= b <= |s| && i <= j <= b - a
    ensures s[a..b][i..j] == s[a + i..a + j]
  {
    forall k | 0 <= k < j - i ensures s[a..b][i..j][k] == s[a + i..a + j][k] {
      assert s[a..b][i + k] == s[a + i + k];
    }
  }

  /** The register after the four blocks at `at`. */
  lemma QuadAfter(state: Word, bytes: seq<Byte>, at: nat)
    requires at + 64 <= |bytes|
    ensures Bitwise(state, bytes[..at + 64]) ==
            Xor(Run(Bitwise(state, bytes[..at]), 512),
                LanesRun(BlockOf(bytes, at), BlockOf(bytes, at + 16), BlockOf(bytes, at + 32), BlockOf(bytes, at + 48)))
  {
    hide Run, Xor, LanesRun, Load, Bitwise;
    var quad := bytes[at..at + 64];
    SliceOfSlice(bytes, at, at + 64, 0, 16);
    SliceOfSlice(bytes, at, at + 64, 16, 32);
    SliceOfSlice(bytes, at, at + 64, 32, 48);
    SliceOfSlice(bytes, at, at + 64, 48, 64);
    assert quad[..16] == quad[0..16] && quad[48..] == quad[48..64];
    assert bytes[..at + 64] == bytes[..at] + quad;
    BitwiseAppend(state, bytes[..at], quad);
    QuadRuns(Bitwise(state, bytes[..at]), quad);
  }

  /** The first four blocks, the state added to the first. */
  lemma FirstLanes(state: Word, bytes: seq<Byte>, lanes: seq<Word>)
    requires Fits(state, 32) && |bytes| >= 64
    requires lanes == [Xor(BlockOf(bytes, 0), state), BlockOf(bytes, 16), BlockOf(bytes, 32), BlockOf(bytes, 48)]
    ensures Stands(lanes, Bitwise(state, bytes[..64]))
  {
    hide Run, Xor, Load, High;
    var (a, b, c, d) := (BlockOf(bytes, 0), BlockOf(bytes, 16), BlockOf(bytes, 32), BlockOf(bytes, 48));
    assert Bitwise(state, bytes[..0]) == state;
    QuadAfter(state, bytes, 0);
    RunLinear(a, state, 512);
    XorComm(Run(a, 512), Run(state, 512));
    XorAssoc(Run(state, 512), Run(a, 512), Run(b, 384));
    XorAssoc(Run(state, 512), Xor(Run(a, 512), Run(b, 384)), Xor(Run(c, 256), Run(d, 128)));
    BlockFits(bytes, 0);
    BlockFits(bytes, 16);
    BlockFits(bytes, 32);
    BlockFits(bytes, 48);
    FitsMore(state, 32, 128);
    XorFits(a, state, 128);
  }

  lemma NextLanes(state: Word, bytes: seq<Byte>, at: nat, before: seq<Word>, after: seq<Word>)
    requires at + 64 <= |bytes| && Stands(before, Bitwise(state, bytes[..at])) && |after| == 4
    requires forall k :: 0 <= k < 4 ==> Folded(after[k], before[k], BlockOf(bytes, at + 16 * k), 512)
    ensures Stands(after, Bitwise(state, bytes[..at + 64]))
  {
    hide Run, Xor, Load, Bitwise, BlockOf, High;
    var (p, q, r, t) := (BlockOf(bytes, at), BlockOf(bytes, at + 16), BlockOf(bytes, at + 32), BlockOf(bytes, at + 48));
    assert Folded(after[0], before[0], p, 512) && Folded(after[1], before[1], q, 512);
    assert Folded(after[2], before[2], r, 512) && Folded(after[3], before[3], t, 512);
    QuadAfter(state, bytes, at);
    LanesAhead(before, after, p, q, r, t);
  }

  lemma NextSingle(state: Word, bytes: seq<Byte>, at: nat, x: Word, y: Word)
    requires at + 16 <= |bytes| && Run(x, 128) == Bitwise(state, bytes[..at])
    requires Folded(y, x, BlockOf(bytes, at), 128)
    ensures Run(y, 128) == Bitwise(state, bytes[..at + 16])
  {
    hide Run, Xor, ClMul, Low, High, Hex, Shl;
    var block := bytes[at..at + 16];
    assert bytes[..at + 16] == bytes[..at] + block;
    BitwiseAppend(state, bytes[..at], block);
    BlockRuns(Run(x, 128), block);
    RunSplit(x, 128, 128);
    XorComm(Run(Load(block), 128), Run(x, 256));
  }

  /** `state` continued over the whole 16-byte blocks of `bytes`, and the bytes left
      after them; nothing is taken of fewer than four blocks. */
  method Update(state: Word, bytes: seq<Byte>) returns (c: Word, rest: seq<Byte>)
    requires Fits(state, 32)
    ensures Bitwise(c, rest) == Bitwise(state, bytes) && Fits(c, 32)
    ensures if |bytes| < 64 then rest == bytes else rest == bytes[|bytes| / 16 * 16..]
  {
    hide Run, Xor, ClMul, Low, High, Hex, Shl;
    var end := |bytes| / 16 * 16;
    if end < 64 {
      return state, bytes;
    }
    var lanes := new Word[4];
    lanes[0], lanes[1] := Xor(BlockOf(bytes, 0), state), BlockOf(bytes, 16);
    lanes[2], lanes[3] := BlockOf(bytes, 32), BlockOf(bytes, 48);
    FirstLanes(state, bytes, lanes[..]);
    var at := 64;
    while at + 64 <= end
      invariant 64 <= at <= end && at % 16 == 0
      invariant Stands(lanes[..], Bitwise(state, bytes[..at]))
    {
      ghost var before := lanes[..];
      FoldQuad(lanes, bytes, at);
      NextLanes(state, bytes, at, before, lanes[..]);
      at := at + 64;
    }
    var x := Merge(lanes);
    x := FoldSingles(x, bytes, at, end, state);
    c := Reduce(x);
    rest := bytes[end..];
    assert bytes == bytes[..end] + rest;
    BitwiseAppend(state, bytes[..end], rest);
    BitwiseFits(state, bytes[..end]);
  }

  /** The loop over the lanes: each takes its block of the next 64 bytes. */
  method FoldQuad(lanes: array<Word>, bytes: seq<Byte>, at: nat)
    requires lanes.Length == 4 && at + 64 <= |bytes|
    requires LanesFit(lanes[..])
    modifies lanes
    ensures forall k :: 0 <= k < 4 ==> Folded(lanes[k], old(lanes[k]), BlockOf(bytes, at + 16 * k), 512)
  {
    hide Run, Xor, ClMul, Low, High, Hex, Shl, Load, Fold, BlockOf, Ahead, Folded, Fits;
    for i := 0 to 4
      invariant forall k :: 0 <= k < i ==> Folded(lanes[k], old(lanes[k]), BlockOf(bytes, at + 16 * k), 512)
      invariant forall k :: i <= k < 4 ==> lanes[k] == old(lanes[k])
    {
      assert lanes[i] == old(lanes[..])[i];
      BlockFits(bytes, at + 16 * i);
      FoldAhead(lanes[i], BlockOf(bytes, at + 16 * i));
      lanes[i] := Fold(lanes[i], BlockOf(bytes, at + 16 * i), Ahead());
    }
  }

  method Merge(lanes: array<Word>) returns (x: Word)
    requires lanes.Length == 4 && LanesFit(lanes[..])
    ensures Fits(x, 128) && Run(x, 128) == LanesRun(lanes[0], lanes[1], lanes[2], lanes[3])
  {
    hide Run, Xor, ClMul, Low, High, Hex, Shl;
    var a: Word, b: Word, c: Word, d: Word := lanes[0], lanes[1], lanes[2], lanes[3];
    assert lanes[..] == [a, b, c, d];
    FoldNext(a, b);
    var ab: Word := Fold(a, b, Next());
    FoldNext(ab, c);
    var abc: Word := Fold(ab, c, Next());
    FoldNext(abc, d);
    x := Fold(abc, d, Next());
    LanesMerge(a, b, c, d, ab, abc, x);
  }

  /** The loop over the blocks left after the last four. */
  method FoldSingles(first: Word, bytes: seq<Byte>, from: nat, end: nat, ghost state: Word) returns (x: Word)
    requires from <= end <= |bytes| && (end - from) % 16 == 0
    requires Fits(first, 128) && Run(first, 128) == Bitwise(state, bytes[..from])
    ensures Fits(x, 128) && Run(x, 128) == Bitwise(state, bytes[..end])
  {
    hide Run, Xor, ClMul, Low, High, Hex, Shl;
    x := first;
    var at := from;
    while at < end
      invariant from <= at <= end && (end - at) % 16 == 0
      invariant Fits(x, 128) && Run(x, 128) == Bitwise(state, bytes[..at])
    {
      BlockFits(bytes, at);
      FoldNext(x, BlockOf(bytes, at));
      var y: Word := Fold(x, BlockOf(bytes, at), Next());
      NextSingle(state, bytes, at, x, y);
      x, at := y, at + 16;
    }
  }

  /** 128 bits to 64, then to 32, then to the CRC. */
  method Reduce(x: Word) returns (c: Word)
    requires Fits(x, 128)
    ensures c == Run(x, 128)
  {
    hide Run, Xor, ClMul, Low, High, Hex, Shl;
    Reduces64(x);
    Reduces32(Reduced64(x));
    BarrettRuns(Reduced32(Reduced64(x)));
    c := Barrett(Reduced32(Reduced64(x)));
  }

  /** `crc32_update`: the CRC over `bytes` continued from `state`, whether or not the
      processor multiplies without carries. */
  method Crc32Update(t: array2<Word>, available: bool, state: Word, bytes: seq<Byte>) returns (c: Word)
    requires Filled(t) && Fits(state, 32)
    ensures c == Bitwise(state, bytes) && Fits(c, 32)
  {
    hide Run, Xor, ClMul, Low, High, Hex, Shl;
    if |bytes| >= LEAST && available {
      var next, rest := Update(state, bytes);
      c := CrcTables(t, next, rest);
    } else {
      c := CrcTables(t, state, bytes);
    }
  }

  /** `!a` of 32 bits. */
  function Not(a: Word): Word {
    Xor(a, Hex(0xffff_ffff))
  }

  function Ones(n: nat): Word {
    if n == 0 then Zero else Make(true, Ones(n - 1))
  }

  lemma FourOnes(n: nat, c: bv64, x: bv64, y: bv64, z: bv64, next: bv64)
    requires Hex(c) == Ones(n) && x >> 1 == c && y >> 1 == x && z >> 1 == y && next >> 1 == z
    requires x & 1 == 1 && y & 1 == 1 && z & 1 == 1 && next & 1 == 1
    ensures Hex(next) == Ones(n + 4)
  {
    HexMake(x);
    HexMake(y);
    assert Hex(y) == Ones(n + 2);
    HexMake(z);
    HexMake(next);
    assert Ones(n + 4) == Make(true, Make(true, Ones(n + 2)));
  }

  lemma OnesHex()
    ensures Hex(0xffff_ffff) == Ones(32)
  {
    FourOnes(0, 0, 0x1, 0x3, 0x7, 0xf);
    FourOnes(4, 0xf, 0x1f, 0x3f, 0x7f, 0xff);
    FourOnes(8, 0xff, 0x1ff, 0x3ff, 0x7ff, 0xfff);
    FourOnes(12, 0xfff, 0x1fff, 0x3fff, 0x7fff, 0xffff);
    FourOnes(16, 0xffff, 0x1_ffff, 0x3_ffff, 0x7_ffff, 0xf_ffff);
    FourOnes(20, 0xf_ffff, 0x1f_ffff, 0x3f_ffff, 0x7f_ffff, 0xff_ffff);
    FourOnes(24, 0xff_ffff, 0x1ff_ffff, 0x3ff_ffff, 0x7ff_ffff, 0xfff_ffff);
    FourOnes(28, 0xfff_ffff, 0x1fff_ffff, 0x3fff_ffff, 0x7fff_ffff, 0xffff_ffff);
  }

  lemma {:induction false} OppositeDigits(a: Word, n: nat)
    requires Fits(a, n)
    ensures Fits(Xor(a, Ones(n)), n) && Value(Xor(a, Ones(n))) + Value(a) == Pow2(n) - 1
    decreases n
  {
    if n > 0 {
      OppositeDigits(Half(a), n - 1);
      XorDigits(a, Ones(n));
    }
  }

  lemma Pow2Eight(n: nat)
    ensures Pow2(n + 8) == 0x100 * Pow2(n)
  {
    assert Pow2(n + 2) == 4 * Pow2(n) && Pow2(n + 4) == 4 * Pow2(n + 2);
    assert Pow2(n + 6) == 4 * Pow2(n + 4) && Pow2(n + 8) == 4 * Pow2(n + 6);
  }

  lemma Pow2Word()
    ensures Pow2(32) == 0x1_0000_0000
  {
    hide Pow2;
    Pow2Eight(0);
    Pow2Eight(8);
    Pow2Eight(16);
    Pow2Eight(24);
    PowNone();
  }

  lemma PowNone()
    ensures Pow2(0) == 1
  {}

  /** Each of the 32 digits is the opposite one: the two numbers add up to `u32::MAX`. */
  lemma Opposite(a: Word)
    requires Fits(a, 32)
    ensures Fits(Not(a), 32) && Value(Not(a)) + Value(a) == 0xffff_ffff
  {
    hide Pow2, Ones, Xor, Value, Fits, Hex;
    OnesHex();
    OppositeDigits(a, 32);
    Pow2Word();
  }

  /** The nine digits from 1 on, whose CRC is the standard's check value. */
  const CHECK: seq<Byte> := [0x31, 0x32, 0x33, 0x34, 0x35, 0x36, 0x37, 0x38, 0x39]

  /** One more byte of the check. */
  lemma NextByte(k: nat, b: Byte, c: bv64, x: bv64, next: bv64)
    requires k < |CHECK| && CHECK[k] == b && Of(b) == Hex(x) && BvEight(c ^ x) == next
    requires Bitwise(Hex(0xffff_ffff), CHECK[..k]) == Hex(c)
    ensures Bitwise(Hex(0xffff_ffff), CHECK[..k + 1]) == Hex(next)
  {
    hide Run, BvEight, BvStep, Xor, Hex, Of;
    assert CHECK[..k + 1] == CHECK[..k] + [b];
    BitwiseAppend(Hex(0xffff_ffff), CHECK[..k], [b]);
    BitwiseOne(Hex(c), b);
    HexXor(c, x);
    HexEight(c ^ x);
  }

  lemma BitwiseOne(state: Word, b: Byte)
    ensures Bitwise(state, [b]) == Run(Xor(state, Of(b)), 8)
  {
    hide Run;
  }

  lemma OfHex(n: nat, x: bv64)
    requires Of(n / 2) == Hex(x >> 1) && (n % 2 == 1 <==> x & 1 == 1)
    ensures Of(n) == Hex(x)
  {
    HexMake(x);
  }

  lemma OfNone()
    ensures Of(0) == Hex(0)
  {}

  /** The check's bytes as digits. */
  lemma Ascii()
    ensures Of(0x31) == Hex(0x31) && Of(0x32) == Hex(0x32)
    ensures Of(0x33) == Hex(0x33) && Of(0x34) == Hex(0x34)
    ensures Of(0x35) == Hex(0x35) && Of(0x36) == Hex(0x36)
    ensures Of(0x37) == Hex(0x37) && Of(0x38) == Hex(0x38)
    ensures Of(0x39) == Hex(0x39)
  {
    hide Of, Hex;
    OfNone();
    OfHex(0x1, 0x1);
    OfHex(0x3, 0x3);
    OfHex(0x6, 0x6);
    OfHex(0x7, 0x7);
    OfHex(0xc, 0xc);
    OfHex(0xd, 0xd);
    OfHex(0xe, 0xe);
    OfHex(0x18, 0x18);
    OfHex(0x19, 0x19);
    OfHex(0x1a, 0x1a);
    OfHex(0x1b, 0x1b);
    OfHex(0x1c, 0x1c);
    OfHex(0x31, 0x31);
    OfHex(0x32, 0x32);
    OfHex(0x33, 0x33);
    OfHex(0x34, 0x34);
    OfHex(0x35, 0x35);
    OfHex(0x36, 0x36);
    OfHex(0x37, 0x37);
    OfHex(0x38, 0x38);
    OfHex(0x39, 0x39);
  }

  lemma FirstFour()
    ensures Bitwise(Hex(0xffff_ffff), CHECK[..4]) == Hex(0x641c_1f5c)
  {
    hide Run, Of, Bitwise, Hex;
    Ascii();
    NoBytes(Hex(0xffff_ffff));
    NextByte(0, 0x31, 0xffff_ffff, 0x31, 0x7c23_1048);
    NextByte(1, 0x32, 0x7c23_1048, 0x32, 0xb0ac_bb32);
    NextByte(2, 0x33, 0xb0ac_bb32, 0x33, 0x77b7_9c2d);
    NextByte(3, 0x34, 0x77b7_9c2d, 0x34, 0x641c_1f5c);
  }

  /** The register after the standard's check. */
  lemma CheckRegister()
    ensures Bitwise(Hex(0xffff_ffff), CHECK) == Hex(0x340b_c6d9)
  {
    hide Run, Of, Bitwise, Hex;
    Ascii();
    FirstFour();
    NextByte(4, 0x35, 0x641c_1f5c, 0x35, 0x340a_c5e3);
    NextByte(5, 0x36, 0x340a_c5e3, 0x36, 0xf68d_2c9e);
    NextByte(6, 0x37, 0xf68d_2c9e, 0x37, 0xaffc_9660);
    NextByte(7, 0x38, 0xaffc_9660, 0x38, 0x651f_2550);
    NextByte(8, 0x39, 0x651f_2550, 0x39, 0x340b_c6d9);
    assert CHECK[..9] == CHECK;
  }

  lemma NoBytes(state: Word)
    ensures Bitwise(state, CHECK[..0]) == state && Bitwise(state, []) == state
  {}

  /** What `crc32` answers for nothing, and for the standard's check. */
  lemma CheckValue()
    ensures Not(Bitwise(Hex(0xffff_ffff), [])) == Zero
    ensures Not(Bitwise(Hex(0xffff_ffff), CHECK)) == Hex(0xcbf4_3926)
  {
    hide Run, Of, Bitwise, Hex;
    CheckRegister();
    NoBytes(Hex(0xffff_ffff));
    HexXor(0x340b_c6d9, 0xffff_ffff);
    XorSelf(Hex(0xffff_ffff));
  }

  /** `crc32`: the opposite of the register, digit by digit, after all bytes from all ones. */
  method Checksum(t: array2<Word>, available: bool, bytes: seq<Byte>) returns (c: Word)
    requires Filled(t)
    ensures c == Not(Bitwise(Hex(0xffff_ffff), bytes))
    ensures Fits(c, 32) && Value(c) + Value(Bitwise(Hex(0xffff_ffff), bytes)) == 0xffff_ffff
    ensures bytes == [] ==> c == Zero
    ensures bytes == CHECK ==> c == Hex(0xcbf4_3926)
  {
    hide Not, Value, Bitwise, Hex;
    AllOnesFit();
    var state := Crc32Update(t, available, Hex(0xffff_ffff), bytes);
    Opposite(state);
    CheckValue();
    c := Not(state);
  }

  lemma AllOnesFit()
    ensures Fits(Hex(0xffff_ffff), 32)
  {
    assert Short(0xf, 4) && Short(0xff, 8) && Short(0xfff, 12) && Short(0xffff, 16);
    assert Short(0xf_ffff, 20) && Short(0xff_ffff, 24) && Short(0xfff_ffff, 28);
    HexFits(0xffff_ffff, 32);
  }

  /** Fed in two pieces, as a names file is, the CRC is that of the whole, by whichever
      form either piece goes. */
  method InTwoPieces(t: array2<Word>, available: bool, state: Word, a: seq<Byte>, b: seq<Byte>) returns (c: Word)
    requires Filled(t) && Fits(state, 32)
    ensures c == Bitwise(state, a + b)
  {
    c := Crc32Update(t, available, state, a);
    c := Crc32Update(t, available, c, b);
    BitwiseAppend(state, a, b);
  }
}
