/** Unsigned machine words by their binary digits, the least first: the masks and
    shifts, exclusive or, and the product without carries. As polynomials over the
    field of two elements, `Xor` is the sum and `ClMul` the product. */
module Binary {
  datatype Digits = Zero | Digit(odd: bool, rest: Digits)

  /** No zero digits lead, so that equal numbers are equal words. */
  predicate Canonical(a: Digits) {
    a.Digit? ==> Canonical(a.rest) && (a.odd || a.rest.Digit?)
  }

  type Word = a: Digits | Canonical(a) witness Zero

  function Make(odd: bool, rest: Word): Word {
    if !odd && rest.Zero? then Zero else Digit(odd, rest)
  }

  predicate Odd(a: Word) {
    a.Digit? && a.odd
  }

  /** `a >> 1`. */
  function Half(a: Word): Word {
    if a.Zero? then Zero else a.rest
  }

  /** `a << 1`, in as many digits as it takes. */
  function Twice(a: Word): Word {
    Make(false, a)
  }

  /** `a << n`, in as many digits as it takes. */
  function Shl(a: Word, n: nat): Word {
    if n == 0 then a else Twice(Shl(a, n - 1))
  }

  /** `a >> n`. */
  function High(a: Word, n: nat): Word
    decreases n
  {
    if n == 0 then a else High(Half(a), n - 1)
  }

  /** `a & (2^n - 1)`: the low `n` digits. */
  function Low(a: Word, n: nat): Word
    decreases n
  {
    if n == 0 then Zero else Make(Odd(a), Low(Half(a), n - 1))
  }

  predicate Fits(a: Word, n: nat) {
    High(a, n) == Zero
  }

  function Xor(a: Word, b: Word): Word {
    if a.Zero? then b
    else if b.Zero? then a
    else Make(a.odd != b.odd, Xor(a.rest, b.rest))
  }

  function Pick(bit: bool, a: Word): Word {
    if bit then a else Zero
  }

  /** The product without carries: `b` shifted to each digit of `a`, added without
      carries, as PCLMULQDQ computes it. */
  function ClMul(a: Word, b: Word): Word
    decreases a
  {
    if a.Zero? then Zero else Xor(Pick(a.odd, b), ClMul(a.rest, Twice(b)))
  }

  // ---------------------------------------------------------------- numbers

  function Of(n: nat): Word {
    if n == 0 then Zero else Make(n % 2 == 1, Of(n / 2))
  }

  function Value(a: Word): nat {
    if a.Zero? then 0 else (if a.odd then 1 else 0) + 2 * Value(a.rest)
  }

  function Pow2(n: nat): (p: nat)
    ensures p > 0
  {
    if n == 0 then 1 else 2 * Pow2(n - 1)
  }

  lemma {:induction false} ValueOf(n: nat)
    ensures Value(Of(n)) == n
  {
    if n > 0 {
      ValueOf(n / 2);
    }
  }

  lemma {:induction false} OfValue(a: Word)
    ensures Of(Value(a)) == a
  {
    if a.Digit? {
      OfValue(a.rest);
      ValueZero(a.rest);
    }
  }

  lemma ValueZero(a: Word)
    ensures Value(a) == 0 <==> a.Zero?
  {}

  /** A word has at most `n` digits exactly when its number is below `2^n`. */
  lemma {:induction false} FitsBelow(a: Word, n: nat)
    ensures Fits(a, n) <==> Value(a) < Pow2(n)
    decreases n
  {
    ValueZero(a);
    if n > 0 {
      FitsBelow(Half(a), n - 1);
    }
  }

  // ---------------------------------------------------------------- digits

  lemma MakeHalf(a: Word)
    ensures a == Make(Odd(a), Half(a))
  {}

  lemma {:induction false} HighZero(n: nat)
    ensures High(Zero, n) == Zero && Low(Zero, n) == Zero && Shl(Zero, n) == Zero
    decreases n
  {
    if n > 0 {
      HighZero(n - 1);
    }
  }

  lemma {:induction false} HighHigh(a: Word, m: nat, n: nat)
    ensures High(a, m + n) == High(High(a, m), n)
    decreases m
  {
    if m > 0 {
      HighHigh(Half(a), m - 1, n);
    }
  }

  lemma FitsMore(a: Word, m: nat, n: nat)
    requires m <= n && Fits(a, m)
    ensures Fits(a, n)
  {
    HighHigh(a, m, n - m);
    HighZero(n - m);
  }

  lemma {:induction false} HighShl(a: Word, n: nat)
    ensures High(Shl(a, n), n) == a && Low(Shl(a, n), n) == Zero
    decreases n
  {
    if n > 0 {
      HighShl(a, n - 1);
    }
  }

  lemma {:induction false} LowFits(a: Word, n: nat)
    ensures Fits(Low(a, n), n)
    ensures Fits(a, n) ==> Low(a, n) == a
    decreases n
  {
    if n > 0 {
      LowFits(Half(a), n - 1);
      MakeHalf(a);
    }
  }

  // ---------------------------------------------------------------- exclusive or

  lemma XorMake(x: bool, a: Word, y: bool, b: Word)
    ensures Xor(Make(x, a), Make(y, b)) == Make(x != y, Xor(a, b))
  {}

  lemma XorDigits(a: Word, b: Word)
    ensures Odd(Xor(a, b)) == (Odd(a) != Odd(b)) && Half(Xor(a, b)) == Xor(Half(a), Half(b))
  {}

  lemma {:induction false} XorComm(a: Word, b: Word)
    ensures Xor(a, b) == Xor(b, a)
  {
    if a.Digit? && b.Digit? {
      XorComm(a.rest, b.rest);
    }
  }

  lemma {:induction false} XorAssoc(a: Word, b: Word, c: Word)
    ensures Xor(Xor(a, b), c) == Xor(a, Xor(b, c))
  {
    if a.Digit? && b.Digit? && c.Digit? {
      XorAssoc(a.rest, b.rest, c.rest);
      XorMake(a.odd != b.odd, Xor(a.rest, b.rest), c.odd, c.rest);
      XorMake(a.odd, a.rest, b.odd != c.odd, Xor(b.rest, c.rest));
    }
  }

  lemma {:induction false} XorSelf(a: Word)
    ensures Xor(a, a) == Zero
  {
    if a.Digit? {
      XorSelf(a.rest);
    }
  }

  /** The middle two of four terms change places. */
  lemma XorSwap(a: Word, b: Word, c: Word, d: Word)
    ensures Xor(Xor(a, b), Xor(c, d)) == Xor(Xor(a, c), Xor(b, d))
  {
    XorAssoc(a, b, Xor(c, d));
    XorAssoc(b, c, d);
    XorComm(b, c);
    XorAssoc(c, b, d);
    XorAssoc(a, c, Xor(b, d));
  }

  lemma {:induction false} XorHigh(a: Word, b: Word, n: nat)
    ensures High(Xor(a, b), n) == Xor(High(a, n), High(b, n))
    ensures Low(Xor(a, b), n) == Xor(Low(a, n), Low(b, n))
    decreases n
  {
    if n > 0 {
      XorDigits(a, b);
      XorHigh(Half(a), Half(b), n - 1);
      XorMake(Odd(a), Low(Half(a), n - 1), Odd(b), Low(Half(b), n - 1));
    }
  }

  lemma XorFits(a: Word, b: Word, n: nat)
    requires Fits(a, n) && Fits(b, n)
    ensures Fits(Xor(a, b), n)
  {
    XorHigh(a, b, n);
  }

  lemma {:induction false} XorShl(a: Word, b: Word, n: nat)
    ensures Xor(Shl(a, n), Shl(b, n)) == Shl(Xor(a, b), n)
    decreases n
  {
    if n > 0 {
      XorShl(a, b, n - 1);
      XorMake(false, Shl(a, n - 1), false, Shl(b, n - 1));
    }
  }

  lemma {:induction false} XorHalves(a: Word, n: nat)
    ensures a == Xor(Low(a, n), Shl(High(a, n), n))
    decreases n
  {
    if n > 0 {
      XorHalves(Half(a), n - 1);
      XorMake(Odd(a), Low(Half(a), n - 1), false, Shl(High(a, n), n - 1));
      MakeHalf(a);
    }
  }

  // ---------------------------------------------------------------- the product

  lemma ClMulStep(a: Word, b: Word)
    ensures ClMul(a, b) == Xor(Pick(Odd(a), b), ClMul(Half(a), Twice(b)))
  {}

  lemma PickXor(x: bool, y: bool, b: Word)
    ensures Pick(x != y, b) == Xor(Pick(x, b), Pick(y, b))
  {
    XorSelf(b);
  }

  lemma {:induction false} ClMulLinear(a: Word, c: Word, b: Word)
    ensures ClMul(Xor(a, c), b) == Xor(ClMul(a, b), ClMul(c, b))
    decreases a
  {
    if a.Digit? && c.Digit? {
      ClMulLinear(a.rest, c.rest, Twice(b));
      XorDigits(a, c);
      ClMulStep(Xor(a, c), b);
      PickXor(a.odd, c.odd, b);
      XorSwap(Pick(a.odd, b), ClMul(a.rest, Twice(b)), Pick(c.odd, b), ClMul(c.rest, Twice(b)));
    }
  }

  lemma {:induction false} ClMulLinearRight(a: Word, b: Word, c: Word)
    ensures ClMul(a, Xor(b, c)) == Xor(ClMul(a, b), ClMul(a, c))
    decreases a
  {
    if a.Digit? {
      XorMake(false, b, false, c);
      ClMulLinearRight(a.rest, Twice(b), Twice(c));
      XorSwap(Pick(a.odd, b), ClMul(a.rest, Twice(b)), Pick(a.odd, c), ClMul(a.rest, Twice(c)));
    }
  }

  lemma {:induction false} ClMulTwice(a: Word, b: Word)
    ensures ClMul(a, Twice(b)) == Twice(ClMul(a, b)) && ClMul(Twice(a), b) == Twice(ClMul(a, b))
    decreases a
  {
    if a.Digit? {
      ClMulTwice(a.rest, Twice(b));
      XorMake(false, Pick(a.odd, b), false, ClMul(a.rest, Twice(b)));
    }
  }

  lemma {:induction false} ClMulShl(a: Word, b: Word, n: nat)
    ensures ClMul(a, Shl(b, n)) == Shl(ClMul(a, b), n) && ClMul(Shl(a, n), b) == Shl(ClMul(a, b), n)
    decreases n
  {
    if n > 0 {
      ClMulShl(a, b, n - 1);
      ClMulTwice(a, Shl(b, n - 1));
      ClMulTwice(Shl(a, n - 1), b);
    }
  }

  const ONE: Word := Digit(true, Zero)

  lemma {:induction false} ClMulOne(a: Word)
    ensures ClMul(a, ONE) == a && ClMul(a, Zero) == Zero
  {
    if a.Digit? {
      ClMulOne(a.rest);
      ClMulTwice(a.rest, ONE);
      XorMake(a.odd, Zero, false, a.rest);
    }
  }

  lemma {:induction false} ClMulAssoc(a: Word, b: Word, c: Word)
    ensures ClMul(ClMul(a, b), c) == ClMul(a, ClMul(b, c))
    decreases a
  {
    if a.Digit? {
      ClMulAssoc(a.rest, Twice(b), c);
      ClMulTwice(b, c);
      ClMulLinear(Pick(a.odd, b), ClMul(a.rest, Twice(b)), c);
    }
  }

  /** The low digits of a product depend on the low digits of its factor alone. */
  lemma ClMulLow(a: Word, b: Word, n: nat)
    ensures Low(ClMul(Low(a, n), b), n) == Low(ClMul(a, b), n)
  {
    var (l, h) := (Low(a, n), High(a, n));
    XorHalves(a, n);
    ClMulLinear(l, Shl(h, n), b);
    ClMulShl(h, b, n);
    XorHigh(ClMul(l, b), Shl(ClMul(h, b), n), n);
    HighShl(ClMul(h, b), n);
    XorComm(Low(ClMul(l, b), n), Zero);
  }

  lemma {:induction false} ClMulFits(a: Word, b: Word, m: nat, n: nat)
    requires n > 0 && Fits(a, m) && Fits(b, n)
    ensures Fits(ClMul(a, b), m + n - 1)
    decreases a
  {
    if a.Zero? {
      HighZero(m + n - 1);
    } else if m > 0 {
      ClMulFits(a.rest, Twice(b), m - 1, n + 1);
      HighZero(m + n - 1);
      FitsMore(b, n, m + n - 1);
      XorFits(Pick(a.odd, b), ClMul(a.rest, Twice(b)), m + n - 1);
    }
  }
}
