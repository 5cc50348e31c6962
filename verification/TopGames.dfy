/** The best games of a position (`index_oracle.rs`): a list kept sorted and cut to a
    few, by adding one game or merging another list. */
module TopGames {
  const TOP_GAMES := 12

  /** A game's average rating and its number. */
  datatype Best = Best(elo: nat, id: nat)

  /** The order of the pairs, the higher first. */
  predicate Before(a: Best, b: Best) {
    a.elo > b.elo || (a.elo == b.elo && a.id > b.id)
  }

  predicate Sorted(s: seq<Best>) {
    forall i, j :: 0 <= i < j < |s| ==> !Before(s[j], s[i])
  }

  function Insert(x: Best, s: seq<Best>): (r: seq<Best>)
    ensures |r| == |s| + 1
  {
    if s == [] then [x] else if Before(s[0], x) then [s[0]] + Insert(x, s[1..]) else [x] + s
  }

  /** `sort_unstable_by`, the higher first; equal pairs are the same. */
  function SortedOf(s: seq<Best>): (r: seq<Best>)
    ensures |r| == |s|
  {
    if s == [] then [] else Insert(s[0], SortedOf(s[1..]))
  }

  function Cut(s: seq<Best>): seq<Best> {
    if |s| > TOP_GAMES then s[..TOP_GAMES] else s
  }

  function Top(s: seq<Best>): seq<Best> {
    Cut(SortedOf(s))
  }

  // ---------------------------------------------------------------- sorting

  lemma {:induction false} InsertContents(x: Best, s: seq<Best>)
    ensures multiset(Insert(x, s)) == multiset(s) + multiset{x}
  {
    if s != [] {
      assert s == [s[0]] + s[1..];
      if Before(s[0], x) {
        InsertContents(x, s[1..]);
      }
    }
  }

  lemma {:induction false} InsertSorted(x: Best, s: seq<Best>)
    requires Sorted(s)
    ensures Sorted(Insert(x, s))
  {
    if s != [] && Before(s[0], x) {
      var r := Insert(x, s[1..]);
      InsertSorted(x, s[1..]);
      InsertContents(x, s[1..]);
      forall j | 0 <= j < |r| ensures !Before(r[j], s[0]) {
        assert r[j] in multiset(r);
        assert r[j] == x || r[j] in s[1..];
      }
    }
  }

  /** What is sorted is sorted and holds the same games. */
  lemma {:induction false} SortedIsSorted(s: seq<Best>)
    ensures Sorted(SortedOf(s)) && multiset(SortedOf(s)) == multiset(s)
  {
    if s != [] {
      SortedIsSorted(s[1..]);
      InsertSorted(s[0], SortedOf(s[1..]));
      InsertContents(s[0], SortedOf(s[1..]));
      assert s == [s[0]] + s[1..];
    }
  }

  lemma {:induction false} SortingSorted(s: seq<Best>)
    requires Sorted(s)
    ensures SortedOf(s) == s
  {
    if s != [] {
      assert Sorted(s[1..]);
      SortingSorted(s[1..]);
      if |s| > 1 {
        assert !Before(s[1], s[0]);
      }
      assert s == [s[0]] + s[1..];
    }
  }

  lemma {:induction false} InsertsCommute(x: Best, y: Best, s: seq<Best>)
    ensures Insert(x, Insert(y, s)) == Insert(y, Insert(x, s))
  {
    if s != [] && Before(s[0], x) && Before(s[0], y) {
      InsertsCommute(x, y, s[1..]);
    }
  }

  /** All of `a` inserted, the last first. */
  function InsertAll(a: seq<Best>, s: seq<Best>): seq<Best> {
    if a == [] then s else Insert(a[0], InsertAll(a[1..], s))
  }

  lemma {:induction false} SortedAppend(a: seq<Best>, b: seq<Best>)
    ensures SortedOf(a + b) == InsertAll(a, SortedOf(b))
    decreases |a|
  {
    if a == [] {
      assert a + b == b;
    } else {
      assert (a + b)[1..] == a[1..] + b;
      SortedAppend(a[1..], b);
    }
  }

  lemma {:induction false} InsertLater(x: Best, a: seq<Best>, s: seq<Best>)
    ensures InsertAll(a, Insert(x, s)) == Insert(x, InsertAll(a, s))
    decreases |a|
  {
    if a != [] {
      InsertLater(x, a[1..], s);
      InsertsCommute(a[0], x, InsertAll(a[1..], s));
    }
  }

  lemma {:induction false} SortedSwaps(a: seq<Best>, b: seq<Best>)
    ensures SortedOf(a + b) == SortedOf(b + a)
    decreases |a|
  {
    if a == [] {
      assert a + b == b && b + a == b;
    } else {
      var c := a[1..];
      assert (a + b)[1..] == c + b;
      SortedSwaps(c, b);
      SortedAppend(b, a);
      InsertLater(a[0], b, SortedOf(c));
      SortedAppend(b, c);
    }
  }

  // ---------------------------------------------------------------- cutting

  lemma {:induction false} InsertPrefix(x: Best, s: seq<Best>, k: nat)
    requires k <= |s|
    ensures Insert(x, s)[..k] == Insert(x, s[..k])[..k]
    decreases k
  {
    if k > 0 && Before(s[0], x) {
      InsertPrefix(x, s[1..], k - 1);
      assert s[..k][1..] == s[1..][..k - 1];
      assert Insert(x, s)[..k] == [s[0]] + Insert(x, s[1..])[..k - 1];
      assert Insert(x, s[..k])[..k] == [s[0]] + Insert(x, s[1..][..k - 1])[..k - 1];
    }
  }

  lemma InsertCut(x: Best, s: seq<Best>)
    ensures Cut(Insert(x, Cut(s))) == Cut(Insert(x, s))
  {
    if |s| > TOP_GAMES {
      InsertPrefix(x, s, TOP_GAMES);
    }
  }

  lemma {:induction false} InsertAllCut(a: seq<Best>, s: seq<Best>)
    ensures Cut(InsertAll(a, Cut(s))) == Cut(InsertAll(a, s))
    decreases |a|
  {
    if a != [] {
      var (t, u) := (InsertAll(a[1..], s), InsertAll(a[1..], Cut(s)));
      InsertAllCut(a[1..], s);
      InsertCut(a[0], t);
      InsertCut(a[0], u);
    }
  }

  /** The best of some games and the best of others are the best of all. */
  lemma TopOfTop(a: seq<Best>, b: seq<Best>)
    ensures Top(a + Top(b)) == Top(a + b)
  {
    SortedIsSorted(b);
    SortingSorted(Top(b));
    SortedAppend(a, Top(b));
    SortedAppend(a, b);
    InsertAllCut(a, SortedOf(b));
  }

  lemma TopSwaps(a: seq<Best>, b: seq<Best>)
    ensures Top(a + b) == Top(b + a)
  {
    SortedSwaps(a, b);
  }

  lemma TopAssociates(a: seq<Best>, b: seq<Best>, c: seq<Best>)
    ensures Top(Top(a + b) + c) == Top(a + Top(b + c))
  {
    hide Top;
    TopSwaps(Top(a + b), c);
    TopOfTop(c, a + b);
    TopSwaps(c, a + b);
    TopOfTop(a, b + c);
    assert a + b + c == a + (b + c);
  }

  /** The list kept is the first of all the games in order. */
  lemma TopIsBest(s: seq<Best>, x: Best)
    requires x in s && x !in Top(s)
    ensures |Top(s)| == 12 && forall y :: y in Top(s) ==> y.elo >= x.elo && (y.elo == x.elo ==> y.id > x.id)
  {
    var r := SortedOf(s);
    SortedIsSorted(s);
    assert x in multiset(s);
    assert x in multiset(r);
    var j :| 0 <= j < |r| && r[j] == x;
    assert forall i :: 0 <= i < |Top(s)| ==> Top(s)[i] == r[i] && Top(s)[i] in Top(s);
    forall y | y in Top(s) ensures Before(y, x) {
      var i :| 0 <= i < TOP_GAMES && Top(s)[i] == y;
      assert !Before(r[j], r[i]) && y != x;
    }
  }

  /** The games kept are in order, the higher rating first and then the higher number; all are kept
      when they are few. */
  lemma TopDescends(s: seq<Best>)
    ensures var top := Top(s);
      forall i, j :: 0 <= i < j < |top| ==>
        top[i].elo >= top[j].elo && (top[i].elo == top[j].elo ==> top[i].id >= top[j].id)
    ensures |s| <= 12 ==> multiset(Top(s)) == multiset(s)
  {
    SortedIsSorted(s);
    var (r, top) := (SortedOf(s), Top(s));
    forall i, j | 0 <= i < j < |top|
      ensures top[i].elo >= top[j].elo && (top[i].elo == top[j].elo ==> top[i].id >= top[j].id)
    {
      assert top[i] == r[i] && top[j] == r[j] && !Before(r[j], r[i]);
    }
  }
}
