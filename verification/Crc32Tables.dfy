/** `crc32_tables` and the tables it reads: eight bytes at a time is a bit at a time. */
module Crc32Tables {
  import opened Binary
  import opened Crc32

  /** `TABLES[k][i]` is the register after byte `i` and then `k` zero bytes. */
  ghost predicate Filled(t: array2<Word>)
    reads t
  {
    && t.Length0 == 8 && t.Length1 == 256
    && forall k, i {:trigger t[k, i]} :: 0 <= k < 8 && 0 <= i < 256 ==> t[k, i] == Run(Of(i), 8 * k + 8)
  }

  /** What an entry of the tables is, in bytes. */
  lemma {:induction false} EntryIsZeroBytes(i: Byte, k: nat)
    ensures Run(Of(i), 8 * k + 8) == Bitwise(Zero, [i] + seq(k, _ => 0))
  {
    var zeros: seq<Byte> := seq(k, _ => 0);
    assert ([i] + zeros)[1..] == zeros;
    ZeroBytes(Run(Of(i), 8), k);
    RunSplit(Of(i), 8, 8 * k);
  }

  lemma {:induction false} ZeroBytes(c: Word, k: nat)
    ensures Bitwise(c, seq(k, _ => 0)) == Run(c, 8 * k)
    decreases k
  {
    if k > 0 {
      var zeros: seq<Byte> := seq(k, _ => 0);
      assert zeros[1..] == seq(k - 1, _ => 0);
      XorComm(c, Zero);
      ZeroBytes(Run(c, 8), k - 1);
      RunSplit(c, 8, 8 * (k - 1));
    }
  }

  lemma ByteIndex(x: Word)
    requires Fits(x, 8)
    ensures Value(x) < 256 && Of(Value(x)) == x
  {
    FitsBelow(x, 8);
    assert Pow2(8) == 256;
    OfValue(x);
  }

  /** Eight steps take the low byte through the first table. */
  lemma ByteAtOnce(x: Word)
    ensures Run(x, 8) == Xor(Run(Low(x, 8), 8), High(x, 8)) && Fits(Low(x, 8), 8)
  {
    LowAtOnce(x, 8);
    LowFits(x, 8);
  }

  method BuildTables() returns (t: array2<Word>)
    ensures fresh(t) && Filled(t)
  {
    t := new Word[8, 256];
    for i := 0 to 256
      invariant forall j {:trigger t[0, j]} :: 0 <= j < i ==> t[0, j] == Run(Of(j), 8)
    {
      t[0, i] := Seed(i);
    }
    for i := 0 to 256
      invariant forall j {:trigger t[0, j]} :: 0 <= j < 256 ==> t[0, j] == Run(Of(j), 8)
      invariant forall k, j {:trigger t[k, j]} :: 0 <= k < 8 && 0 <= j < i ==> t[k, j] == Run(Of(j), 8 * k + 8)
    {
      FillColumn(t, i);
    }
  }

  /** The register after the byte `i`, a bit at a time. */
  method Seed(i: Byte) returns (c: Word)
    ensures c == Run(Of(i), 8)
  {
    c := Of(i);
    for s := 0 to 8
      invariant Run(c, 8 - s) == Run(Of(i), 8)
    {
      c := if Odd(c) then Xor(POLYNOMIAL, Half(c)) else Half(c);
    }
  }

  method FillColumn(t: array2<Word>, i: Byte)
    requires t.Length0 == 8 && t.Length1 == 256
    requires forall j {:trigger t[0, j]} :: 0 <= j < 256 ==> t[0, j] == Run(Of(j), 8)
    modifies t
    ensures forall k {:trigger t[k, i]} :: 0 <= k < 8 ==> t[k, i] == Run(Of(i), 8 * k + 8)
    ensures forall k, j {:trigger t[k, j]} :: 0 <= k < 8 && 0 <= j < 256 && j != i ==> t[k, j] == old(t[k, j])
  {
    for k := 1 to 8
      invariant forall j {:trigger t[0, j]} :: 0 <= j < 256 ==> t[0, j] == Run(Of(j), 8)
      invariant forall k' {:trigger t[k', i]} :: 0 <= k' < k ==> t[k', i] == Run(Of(i), 8 * k' + 8)
      invariant forall k', j {:trigger t[k', j]} :: 0 <= k' < 8 && 0 <= j < 256 && j != i ==> t[k', j] == old(t[k', j])
    {
      var last: Word := t[k - 1, i];
      NextEntry(i, last, k);
      t[k, i] := Xor(High(last, 8), t[0, Value(Low(last, 8))]);
    }
  }

  lemma NextEntry(i: Byte, last: Word, k: nat)
    requires last == Run(Of(i), 8 * k)
    ensures Value(Low(last, 8)) < 256
    ensures Run(Of(i), 8 * k + 8) == Xor(High(last, 8), Run(Of(Value(Low(last, 8))), 8))
  {
    ByteAtOnce(last);
    ByteIndex(Low(last, 8));
    XorComm(High(last, 8), Run(Low(last, 8), 8));
    RunSplit(Of(i), 8 * k, 8);
  }

  function At(t: array2<Word>, k: nat, b: Word): (w: Word)
    requires Filled(t) && k < 8 && Fits(b, 8)
    reads t
    ensures w == Run(b, 8 * k + 8)
  {
    ByteIndex(b);
    t[k, Value(b)]
  }

  /** Byte `k` of a message with the state added to it. */
  lemma ByteOf(c: Word, bytes: seq<Byte>, k: nat)
    requires k < |bytes|
    ensures Low(High(Xor(c, Load(bytes)), 8 * k), 8) == Xor(Low(High(c, 8 * k), 8), Of(bytes[k]))
  {
    XorHigh(c, Load(bytes), 8 * k);
    LoadDrop(bytes, k);
    LoadHead(bytes[k..]);
    XorHigh(High(c, 8 * k), Load(bytes[k..]), 8);
  }

  /** The bytes the first four table look-ups take: they are those of the whole message. */
  lemma FirstBytes(c: Word, b: seq<Byte>, k: nat)
    requires |b| == 8 && k < 4
    ensures Low(High(Xor(c, Load(b[..4])), 8 * k), 8) == Low(High(Xor(c, Load(b)), 8 * k), 8)
  {
    ByteOf(c, b, k);
    ByteOf(c, b[..4], k);
  }

  lemma LastBytes(c: Word, b: seq<Byte>, k: nat)
    requires |b| == 8 && 4 <= k < 8 && Fits(c, 32)
    ensures Low(High(Xor(c, Load(b)), 8 * k), 8) == Of(b[k]) && Fits(Of(b[k]), 8)
  {
    ByteOf(c, b, k);
    FitsMore(c, 32, 8 * k);
    ByteFits(b[k]);
  }

  /** One byte more of a run goes through its own table. */
  lemma Peel(acc: Word, w: Word, k: nat)
    ensures Xor(acc, Run(High(w, 8 * k), 64 - 8 * k)) ==
            Xor(Xor(acc, Run(Low(High(w, 8 * k), 8), 64 - 8 * k)), Run(High(w, 8 * (k + 1)), 56 - 8 * k))
    requires k < 8
  {
    var x := High(w, 8 * k);
    HighHigh(w, 8 * k, 8);
    RunApart(x, 8, 56 - 8 * k);
    XorAssoc(acc, Run(Low(x, 8), 64 - 8 * k), Run(High(x, 8), 56 - 8 * k));
  }

  /** The bytes of a word of 64 bits, each through its own table, first to last. */
  ghost function Summed(w: Word, k: nat): Word
    requires k <= 8
  {
    if k == 0 then Zero else Xor(Summed(w, k - 1), Run(Low(High(w, 8 * (k - 1)), 8), 72 - 8 * k))
  }

  lemma {:induction false} RunIsSummed(w: Word, k: nat)
    requires k <= 8
    ensures Run(w, 64) == Xor(Summed(w, k), Run(High(w, 8 * k), 64 - 8 * k))
  {
    if k > 0 {
      RunIsSummed(w, k - 1);
      Peel(Summed(w, k - 1), w, k - 1);
    }
  }

  /** Eight bytes at once. */
  lemma EightAtOnce(c: Word, b: seq<Byte>)
    requires |b| == 8 && Fits(c, 32)
    ensures Bitwise(c, b) == Summed(Xor(c, Load(b)), 8)
  {
    var w := Xor(c, Load(b));
    RunLoad(c, b);
    RunIsSummed(w, 8);
    LoadFits(b);
    FitsMore(c, 32, 64);
    XorFits(c, Load(b), 64);
    XorComm(Summed(w, 8), Zero);
  }

  method CrcTables(t: array2<Word>, state: Word, bytes: seq<Byte>) returns (c: Word)
    requires Filled(t) && Fits(state, 32)
    ensures c == Bitwise(state, bytes) && Fits(c, 32)
  {
    c := state;
    var i, whole := 0, |bytes| / 8 * 8;
    while i < whole
      invariant 0 <= i <= whole && i % 8 == 0
      invariant c == Bitwise(state, bytes[..i]) && Fits(c, 32)
    {
      var b := bytes[i..i + 8];
      assert bytes[..i + 8] == bytes[..i] + b;
      BitwiseAppend(state, bytes[..i], b);
      c := NextEight(t, c, b);
      i := i + 8;
    }
    while i < |bytes|
      invariant whole <= i <= |bytes|
      invariant c == Bitwise(state, bytes[..i]) && Fits(c, 32)
    {
      var x := Xor(c, Of(bytes[i]));
      assert bytes[..i + 1] == bytes[..i] + [bytes[i]];
      BitwiseAppend(state, bytes[..i], [bytes[i]]);
      BitwiseFits(c, [bytes[i]]);
      ByteAtOnce(x);
      HighByte(c, bytes[i]);
      c := Xor(At(t, 0, Low(x, 8)), High(c, 8));
      i := i + 1;
    }
    assert bytes[..i] == bytes;
  }

  lemma HighByte(c: Word, b: Byte)
    ensures High(Xor(c, Of(b)), 8) == High(c, 8)
  {
    ByteFits(b);
    XorHigh(c, Of(b), 8);
    XorComm(High(c, 8), Zero);
  }

  /** The body of the loop over whole words. */
  method NextEight(t: array2<Word>, c: Word, b: seq<Byte>) returns (next: Word)
    requires Filled(t) && Fits(c, 32) && |b| == 8
    ensures next == Bitwise(c, b) && Fits(next, 32)
  {
    var lo: Word := Xor(c, Load(b[..4]));
    LookUps(c, b);
    next := At(t, 7, Low(lo, 8));
    next := Xor(next, At(t, 6, Low(High(lo, 8), 8)));
    next := Xor(next, At(t, 5, Low(High(lo, 16), 8)));
    next := Xor(next, At(t, 4, High(lo, 24)));
    next := Xor(next, At(t, 3, Of(b[4])));
    next := Xor(next, At(t, 2, Of(b[5])));
    next := Xor(next, At(t, 1, Of(b[6])));
    next := Xor(next, At(t, 0, Of(b[7])));
    EightRuns(c, b);
    BitwiseFits(c, b);
  }

  lemma SummedFour(w: Word)
    ensures Summed(w, 4) == Xor(Xor(Xor(Run(Low(w, 8), 64), Run(Low(High(w, 8), 8), 56)),
                                    Run(Low(High(w, 16), 8), 48)), Run(Low(High(w, 24), 8), 40))
  {
    assert Summed(w, 1) == Run(Low(w, 8), 64);
    assert Summed(w, 3) == Xor(Summed(w, 2), Run(Low(High(w, 16), 8), 48));
  }

  lemma SummedEight(w: Word)
    ensures Summed(w, 8) == Xor(Xor(Xor(Xor(Summed(w, 4), Run(Low(High(w, 32), 8), 32)),
                                        Run(Low(High(w, 40), 8), 24)), Run(Low(High(w, 48), 8), 16)),
                                Run(Low(High(w, 56), 8), 8))
  {
    assert Summed(w, 6) == Xor(Summed(w, 5), Run(Low(High(w, 40), 8), 24));
    assert Summed(w, 7) == Xor(Summed(w, 6), Run(Low(High(w, 48), 8), 16));
  }

  lemma LookUps(c: Word, b: seq<Byte>)
    requires |b| == 8 && Fits(c, 32)
    ensures var lo := Xor(c, Load(b[..4]));
      && Fits(Low(lo, 8), 8) && Fits(Low(High(lo, 8), 8), 8) && Fits(Low(High(lo, 16), 8), 8)
      && Fits(High(lo, 24), 8) && High(lo, 24) == Low(High(lo, 24), 8)
    ensures forall k :: 4 <= k < 8 ==> Fits(Of(b[k]), 8)
  {
    var lo := Xor(c, Load(b[..4]));
    LowFits(lo, 8);
    LowFits(High(lo, 8), 8);
    LowFits(High(lo, 16), 8);
    LoadFits(b[..4]);
    XorFits(c, Load(b[..4]), 32);
    HighHigh(lo, 24, 8);
    LowFits(High(lo, 24), 8);
    forall k | 4 <= k < 8 ensures Fits(Of(b[k]), 8) {
      ByteFits(b[k]);
    }
  }

  /** The eight table look-ups, each as the run it stands for. */
  lemma EightRuns(c: Word, b: seq<Byte>)
    requires |b| == 8 && Fits(c, 32)
    ensures var lo := Xor(c, Load(b[..4]));
      Bitwise(c, b) == Xor(Xor(Xor(Xor(Xor(Xor(Xor(Run(Low(lo, 8), 64), Run(Low(High(lo, 8), 8), 56)),
        Run(Low(High(lo, 16), 8), 48)), Run(High(lo, 24), 40)), Run(Of(b[4]), 32)), Run(Of(b[5]), 24)),
        Run(Of(b[6]), 16)), Run(Of(b[7]), 8))
  {
    var w := Xor(c, Load(b));
    FirstBytes(c, b, 0);
    FirstBytes(c, b, 1);
    FirstBytes(c, b, 2);
    FirstBytes(c, b, 3);
    LookUps(c, b);
    SummedFour(w);
    LastBytes(c, b, 4);
    LastBytes(c, b, 5);
    LastBytes(c, b, 6);
    LastBytes(c, b, 7);
    SummedEight(w);
    EightAtOnce(c, b);
  }
}
