/** Stockfish releases' versions (`stockfish.rs`, `is_newer`): numbers joined by dots,
    compared number by number, zeros at the end counting for nothing. */
module Versions {
  type Version = seq<nat>

  function WithoutZeros(v: Version): Version {
    if |v| > 1 && v[|v| - 1] == 0 then WithoutZeros(v[..|v| - 1]) else v
  }

  /** Number by number, a list's beginning before it. */
  predicate Less(a: Version, b: Version) {
    if b == [] then false
    else if a == [] then true
    else a[0] < b[0] || (a[0] == b[0] && Less(a[1..], b[1..]))
  }

  predicate IsNewer(v: Version, than: Version) {
    Less(WithoutZeros(than), WithoutZeros(v))
  }

  lemma {:induction false} LessIsStrict(a: Version, b: Version, c: Version)
    ensures !Less(a, a)
    ensures Less(a, b) && Less(b, c) ==> Less(a, c)
    ensures Less(a, b) || Less(b, a) || a == b
    decreases |a| + |b| + |c|
  {
    if a != [] && b != [] {
      LessIsStrict(a[1..], b[1..], if c == [] then c else c[1..]);
      assert a == [a[0]] + a[1..] && b == [b[0]] + b[1..];
    } else if a != [] {
      LessIsStrict(a[1..], b, c);
    }
  }

  /** A version's numbers, zeros after its end. */
  function NumberAt(v: Version, i: nat): nat {
    if i < |v| then v[i] else 0
  }

  /** The first number in which two versions differ. */
  predicate FirstGreater(v: Version, than: Version, k: nat) {
    NumberAt(v, k) > NumberAt(than, k) && forall i :: 0 <= i < k ==> NumberAt(v, i) == NumberAt(than, i)
  }

  lemma {:induction false} SameNumbers(v: Version)
    ensures forall i :: NumberAt(WithoutZeros(v), i) == NumberAt(v, i)
    ensures v != [] ==> WithoutZeros(v) != []
    ensures var w := WithoutZeros(v); |w| > 1 ==> w[|w| - 1] != 0
    decreases |v|
  {
    if |v| > 1 && v[|v| - 1] == 0 {
      SameNumbers(v[..|v| - 1]);
    }
  }

  lemma {:induction false} LessGreater(a: Version, b: Version, k: nat)
    requires |b| > 0 ==> b[|b| - 1] != 0
    requires FirstGreater(b, a, k)
    ensures Less(a, b)
    decreases |a| + |b|
  {
    if a != [] && b != [] && k > 0 {
      assert NumberAt(a, 0) == NumberAt(b, 0);
      forall i | 0 <= i < k - 1 ensures NumberAt(a[1..], i) == NumberAt(b[1..], i) {
        assert NumberAt(a, i + 1) == NumberAt(b, i + 1);
      }
      LessGreater(a[1..], b[1..], k - 1);
    }
  }

  lemma {:induction false} GreaterLess(a: Version, b: Version) returns (k: nat)
    requires |b| > 0 ==> b[|b| - 1] != 0
    requires Less(a, b)
    ensures FirstGreater(b, a, k)
    decreases |a| + |b|
  {
    if a == [] {
      k := FirstNumber(b);
    } else if a[0] < b[0] {
      k := 0;
    } else {
      k := GreaterLess(a[1..], b[1..]);
      forall i | 0 <= i < k + 1 ensures NumberAt(a, i) == NumberAt(b, i) {
        if i > 0 {
          assert NumberAt(a[1..], i - 1) == NumberAt(b[1..], i - 1);
        }
      }
      assert NumberAt(b, k + 1) == NumberAt(b[1..], k) && NumberAt(a, k + 1) == NumberAt(a[1..], k);
      k := k + 1;
    }
  }

  lemma {:induction false} FirstNumber(b: Version) returns (k: nat)
    requires b != [] && b[|b| - 1] != 0
    ensures FirstGreater(b, [], k)
    decreases |b|
  {
    k := 0;
    if b[0] == 0 {
      k := FirstNumber(b[1..]);
      forall i | 0 <= i < k + 1 ensures NumberAt(b, i) == 0 {
        if i > 0 {
          assert NumberAt(b[1..], i - 1) == NumberAt([], i - 1) == 0;
        }
      }
      assert NumberAt(b, k + 1) == NumberAt(b[1..], k);
      k := k + 1;
    }
  }

  /** A version without its zeros at the end, none at all when it is zero. */
  function Bare(v: Version): Version {
    if v == [0] then [] else v
  }

  lemma BareSame(v: Version)
    requires v != [] && (|v| > 1 ==> v[|v| - 1] != 0)
    ensures forall i :: NumberAt(Bare(v), i) == NumberAt(v, i)
    ensures Bare(v) != [] ==> Bare(v)[|Bare(v)| - 1] != 0
  {}

  lemma BareLess(a: Version, b: Version)
    requires a != [] && b != [] && (|a| > 1 ==> a[|a| - 1] != 0) && (|b| > 1 ==> b[|b| - 1] != 0)
    ensures Less(a, b) <==> Less(Bare(a), Bare(b))
  {}

  /** A version is newer exactly when its first number that differs is the greater, one that is not
      written counting as zero. */
  lemma NewerExactly(v: Version, than: Version)
    requires v != [] && than != []
    ensures IsNewer(v, than) <==> exists k :: FirstGreater(v, than, k)
  {
    hide Less;
    var (a, b) := (WithoutZeros(than), WithoutZeros(v));
    SameNumbers(v);
    SameNumbers(than);
    BareSame(a);
    BareSame(b);
    BareLess(a, b);
    hide WithoutZeros, Bare;
    if IsNewer(v, than) {
      var k := GreaterLess(Bare(a), Bare(b));
      SameFirst(Bare(b), Bare(a), v, than, k);
    }
    if k :| FirstGreater(v, than, k) {
      SameFirst(v, than, Bare(b), Bare(a), k);
      LessGreater(Bare(a), Bare(b), k);
    }
  }

  lemma SameFirst(v: Version, than: Version, w: Version, that: Version, k: nat)
    requires forall i :: NumberAt(v, i) == NumberAt(w, i)
    requires forall i :: NumberAt(than, i) == NumberAt(that, i)
    requires FirstGreater(v, than, k)
    ensures FirstGreater(w, that, k)
  {}

  /** Newer is a strict order, total up to zeros at the end. */
  lemma NewerIsStrict(a: Version, b: Version, c: Version)
    ensures !IsNewer(a, a)
    ensures IsNewer(a, b) && IsNewer(b, c) ==> IsNewer(a, c)
    ensures IsNewer(a, b) || IsNewer(b, a) || WithoutZeros(a) == WithoutZeros(b)
  {
    LessIsStrict(WithoutZeros(c), WithoutZeros(b), WithoutZeros(a));
    LessIsStrict(WithoutZeros(a), WithoutZeros(b), WithoutZeros(c));
  }
}
