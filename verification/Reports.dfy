/** The reports waiting to be sent (`reports.rs`): a folder of files that sort as they were
    filed, cut to the latest within two caps, and posted oldest first. */
module Reports {
  import opened Calendar
  import opened Text
  import opened Wrappers

  const MAX_FILES := 20
  const MAX_BYTES := 524288

  /** A waiting report: its file's name without the extension, and its size. */
  datatype Report = Report(name: string, size: nat)

  // ---------------------------------------------------------------- names

  /** The order file names sort in. */
  predicate SortsBefore(a: string, b: string) {
    if b == "" then false
    else if a == "" then true
    else a[0] < b[0] || (a[0] == b[0] && SortsBefore(a[1..], b[1..]))
  }

  /** A report's name: when it was filed, in milliseconds, its number and its kind. */
  function NameOf(millis: nat, id: string, tag: string): string {
    Padded(millis, 15) + "-" + id + "-" + tag
  }

  /** `by_hand`. */
  predicate ByHand(name: string) {
    var tag := "-manual";
    |name| >= |tag| && name[|name| - |tag|..] == tag
  }

  lemma {:induction false} BeforeLast(a: string, b: string, c: char, d: char)
    requires |a| == |b|
    ensures SortsBefore(a + [c], b + [d]) <==> SortsBefore(a, b) || (a == b && c < d)
    decreases |a|
  {
    if a == "" {
      assert a + [c] == [c] && b + [d] == [d];
    } else {
      assert (a + [c])[1..] == a[1..] + [c] && (b + [d])[1..] == b[1..] + [d];
      BeforeLast(a[1..], b[1..], c, d);
      assert a == [a[0]] + a[1..] && b == [b[0]] + b[1..];
    }
  }

  lemma {:induction false} BeforeLonger(a: string, b: string, x: string, y: string)
    requires |a| == |b| && a != b
    ensures SortsBefore(a + x, b + y) <==> SortsBefore(a, b)
    decreases |a|
  {
    assert (a + x)[1..] == a[1..] + x && (b + y)[1..] == b[1..] + y;
    if a[0] == b[0] {
      assert a == [a[0]] + a[1..] && b == [b[0]] + b[1..];
      BeforeLonger(a[1..], b[1..], x, y);
    }
  }

  lemma PaddedLast(n: nat, width: nat)
    requires width >= 1
    ensures Padded(n, width + 1) == Padded(n / 10, width) + [Digit(n % 10)]
  {
    PaddedStep(n / 10, n % 10, width);
  }

  /** Numbers of as many digits sort as numbers do. */
  lemma {:induction false} PaddedSorts(a: nat, b: nat, width: nat)
    requires width >= 1 && a < Power(width) && b < Power(width)
    ensures SortsBefore(Padded(a, width), Padded(b, width)) <==> a < b
    ensures Padded(a, width) == Padded(b, width) <==> a == b
    ensures |Padded(a, width)| == width == |Padded(b, width)|
    decreases width
  {
    hide Padded, FromDigits;
    PaddedReads(a, width, Power(width));
    PaddedReads(b, width, Power(width));
    if width == 1 {
      PaddedDigit(a);
      PaddedDigit(b);
      assert Power(1) == 10;
    } else {
      PaddedLast(a, width - 1);
      PaddedLast(b, width - 1);
      PaddedReads(a / 10, width - 1, Power(width - 1));
      PaddedReads(b / 10, width - 1, Power(width - 1));
      PaddedSorts(a / 10, b / 10, width - 1);
      BeforeLast(Padded(a / 10, width - 1), Padded(b / 10, width - 1), Digit(a % 10), Digit(b % 10));
    }
  }

  /** Reports sort by when they were filed, until the year 33658. */
  lemma NamesSort(a: nat, b: nat, x: string, y: string, s: string, t: string)
    requires a < Power(15) && b < Power(15) && a != b
    ensures SortsBefore(NameOf(a, x, s), NameOf(b, y, t)) <==> a < b
  {
    hide Padded, Power;
    PaddedSorts(a, b, 15);
    BeforeLonger(Padded(a, 15), Padded(b, 15), "-" + x + "-" + s, "-" + y + "-" + t);
    assert NameOf(a, x, s) == Padded(a, 15) + ("-" + x + "-" + s);
    assert NameOf(b, y, t) == Padded(b, 15) + ("-" + y + "-" + t);
  }

  // ---------------------------------------------------------------- the caps

  function Total(files: seq<Report>): nat {
    if files == [] then 0 else files[0].size + Total(files[1..])
  }

  /** Within both caps, or a single report of any size. */
  predicate Within(files: seq<Report>) {
    |files| <= MAX_FILES && (Total(files) <= MAX_BYTES || |files| <= 1)
  }

  /** The reports kept of those waiting, oldest first. */
  function Kept(files: seq<Report>): seq<Report> {
    if Within(files) then files else Kept(files[1..])
  }

  lemma {:induction false} TotalPart(files: seq<Report>, j: nat)
    requires j <= |files|
    ensures Total(files[j..]) <= Total(files)
    decreases j
  {
    if j > 0 {
      TotalPart(files[1..], j - 1);
      assert files[1..][j - 1..] == files[j..];
    } else {
      assert files[0..] == files;
    }
  }

  /** They are the longest run of the latest within both caps, and never none. */
  lemma {:induction false} KeptIsLongest(files: seq<Report>)
    ensures var k := |files| - |Kept(files)|;
      && 0 <= k && Kept(files) == files[k..]
      && |files[k..]| <= 20 && (Total(files[k..]) <= 524288 || |files[k..]| == 1)
      && (forall j :: 0 <= j < k ==> |files[j..]| > 20 || (Total(files[j..]) > 524288 && |files[j..]| > 1))
      && (files != [] ==> Kept(files) != [])
    decreases |files|
  {
    if !Within(files) {
      KeptIsLongest(files[1..]);
      var k := |files| - |Kept(files)|;
      assert files[1..][k - 1..] == files[k..];
      forall j | 0 <= j < k ensures !Within(files[j..]) {
        if j > 0 {
          assert files[j..] == files[1..][j - 1..];
        } else {
          assert files[0..] == files;
        }
      }
    } else {
      assert files[0..] == files;
    }
  }

  /** What they take is what each takes. */
  lemma {:induction false} TotalAdds(a: seq<Report>, b: seq<Report>)
    ensures Total(a + b) == Total(a) + Total(b)
    ensures forall r :: Total([r]) == r.size
  {
    if a == [] {
      assert a + b == b;
    } else {
      assert (a + b)[1..] == a[1..] + b;
      TotalAdds(a[1..], b);
    }
  }

  /** A report is by hand exactly when its name ends so. */
  lemma ByHandExactly(name: string)
    ensures ByHand(name) <==> exists x :: name == x + "-manual"
  {
    if ByHand(name) {
      assert name == name[..|name| - 7] + "-manual";
    }
  }

  /** Names sort by the first character that differs, a name before those it begins. */
  lemma {:induction false} SortsExactly(a: string, b: string)
    ensures SortsBefore(a, b) <==>
            a < b || exists k :: 0 <= k < |a| && k < |b| && a[..k] == b[..k] && a[k] < b[k]
    decreases |a|
  {
    if a != "" && b != "" {
      SortsExactly(a[1..], b[1..]);
      if SortsBefore(a[1..], b[1..]) && a[0] == b[0] && !(a[1..] < b[1..]) {
        var k :| 0 <= k < |a| - 1 && k < |b| - 1 && a[1..][..k] == b[1..][..k] && a[1..][k] < b[1..][k];
        assert a[..k + 1] == [a[0]] + a[1..][..k] && b[..k + 1] == [b[0]] + b[1..][..k];
        assert a[k + 1] < b[k + 1];
      }
      if k :| 0 < k < |a| && k < |b| && a[..k] == b[..k] && a[k] < b[k] {
        assert a[0] == a[..k][0] == b[0];
        assert a[1..][..k - 1] == a[..k][1..] && b[1..][..k - 1] == b[..k][1..];
        assert a[1..][k - 1] < b[1..][k - 1];
      }
      if a[0] == b[0] {
        assert a == [a[0]] + a[1..] && b == [b[0]] + b[1..];
      }
    }
  }

  // ---------------------------------------------------------------- filing

  ghost predicate Sorted(files: seq<Report>) {
    forall i, j :: 0 <= i < j < |files| ==> !SortsBefore(files[j].name, files[i].name)
  }

  /** Where a new report's name sorts among those waiting. */
  function Placed(files: seq<Report>, r: Report): seq<Report> {
    if files == [] || SortsBefore(r.name, files[0].name) then [r] + files else [files[0]] + Placed(files[1..], r)
  }

  /** A post's answer: a status, or none. */
  datatype Outcome = Sent | Again | Dropped

  /** `outcome`. */
  function OutcomeOf(answer: Option<nat>): Outcome {
    match answer
    case None => Again
    case Some(status) =>
      if 200 <= status <= 299 then Sent else if status == 429 || status >= 500 then Again else Dropped
  }

  /** A report waits when nothing answered, when too many came at once, or when the server failed. */
  predicate MustWait(answer: Option<nat>) {
    answer == None || answer.value == 429 || answer.value / 100 >= 5
  }

  /** It is sent by any success, and dropped by any other answer that is final. */
  lemma OutcomeExactly(answer: Option<nat>)
    ensures OutcomeOf(answer) == Again <==> MustWait(answer)
    ensures OutcomeOf(answer) == Sent <==> answer.Some? && answer.value / 100 == 2
  {}

  /** Whether report `i` of those waiting is posted: by hand, or while reports are on when it
      is its turn. */
  predicate Posted(files: seq<Report>, automatic: nat -> bool, i: nat)
    requires i < |files|
  {
    ByHand(files[i].name) || automatic(i)
  }

  /** How many reports go before the first that must wait. */
  function Gone(files: seq<Report>, automatic: nat -> bool, answers: nat -> Option<nat>, i: nat): (n: nat)
    requires i <= |files|
    ensures i <= n <= |files|
    decreases |files| - i
  {
    if i == |files| then i
    else if Posted(files, automatic, i) && OutcomeOf(answers(i)) == Again then i
    else Gone(files, automatic, answers, i + 1)
  }

  /** The reports posted up to `n`, in order. */
  function Posts(files: seq<Report>, automatic: nat -> bool, n: nat): seq<Report>
    requires n <= |files|
  {
    if n == 0 then []
    else Posts(files, automatic, n - 1) + (if Posted(files, automatic, n - 1) then [files[n - 1]] else [])
  }

  /** The folder `reports`, its files in the order of their names; their removal succeeds. */
  class Outbox {
    var files: seq<Report>

    constructor ()
      ensures files == []
    {
      files := [];
    }

    /** `trim`: the oldest go while the caps are passed. */
    method Trim()
      modifies this
      ensures files == Kept(old(files))
    {
      var total := SumOf(files);
      while |files| > MAX_FILES || (total > MAX_BYTES && |files| > 1)
        invariant total == Total(files) && Kept(files) == Kept(old(files))
        decreases |files|
      {
        total := total - files[0].size;
        files := files[1..];
      }
    }

    /** `put`. */
    method Put(r: Report)
      modifies this
      ensures files == Kept(Placed(old(files), r))
    {
      files := Placed(files, r);
      Trim();
    }

    /** `deliver`: every waiting report, oldest first, until one must wait; whether one does. */
    method Deliver(automatic: nat -> bool, answers: nat -> Option<nat>) returns (waits: bool, posted: seq<Report>)
      modifies this
      ensures var n := Gone(old(files), automatic, answers, 0);
        && files == old(files)[n..] && waits == (n < |old(files)|)
        && posted == Posts(old(files), automatic, if waits then n + 1 else n)
    {
      var list := files;
      var i := 0;
      posted := [];
      assert list[0..] == list;
      while i < |list|
        invariant i <= |list| && files == list[i..] && posted == Posts(list, automatic, i)
        invariant Gone(list, automatic, answers, i) == Gone(list, automatic, answers, 0)
      {
        if ByHand(list[i].name) || automatic(i) {
          posted := posted + [list[i]];
          match OutcomeOf(answers(i))
          case Again => return true, posted;
          case _ =>
        } else {
          assert posted + [] == posted;
        }
        files := files[1..];
        i := i + 1;
      }
      return false, posted;
    }

    /** `drop_automatic`. */
    method DropAutomatic() returns (dropped: nat)
      modifies this
      ensures files == Manual(old(files)) && dropped == |old(files)| - |files|
    {
      var (list, kept) := (files, []);
      for i := 0 to |list|
        invariant kept == Manual(list[..i])
      {
        assert list[..i + 1][..i] == list[..i];
        if ByHand(list[i].name) {
          kept := kept + [list[i]];
        }
      }
      assert list[..|list|] == list;
      ManualFewer(list);
      files, dropped := kept, |list| - |kept|;
    }
  }

  /** The reports sent by hand. */
  function Manual(files: seq<Report>): seq<Report> {
    if files == [] then []
    else Manual(files[..|files| - 1]) + (if ByHand(files[|files| - 1].name) then [files[|files| - 1]] else [])
  }

  lemma {:induction false} ManualFewer(files: seq<Report>)
    ensures |Manual(files)| <= |files|
  {
    if files != [] {
      ManualFewer(files[..|files| - 1]);
    }
  }

  method SumOf(files: seq<Report>) returns (total: nat)
    ensures total == Total(files)
  {
    total := 0;
    var i := |files|;
    while i > 0
      invariant 0 <= i <= |files| && total == Total(files[i..])
    {
      i := i - 1;
      assert files[i..][1..] == files[i + 1..];
      total := total + files[i].size;
    }
    assert files[0..] == files;
  }

  /** A new report keeps the folder sorted and is in it before the oldest go. */
  lemma {:induction false} PlacedSorted(files: seq<Report>, r: Report)
    requires Sorted(files)
    ensures Sorted(Placed(files, r)) && multiset(Placed(files, r)) == multiset(files) + multiset{r}
  {
    if files != [] {
      assert files == [files[0]] + files[1..];
      if SortsBefore(r.name, files[0].name) {
        NotBeforeItself(files[0].name);
        forall j | 0 <= j < |files| ensures !SortsBefore(files[j].name, r.name) {
          BeforeStrict(r.name, files[0].name, files[j].name);
        }
      } else {
        PlacedSorted(files[1..], r);
        var p := Placed(files[1..], r);
        forall j | 0 <= j < |p| ensures !SortsBefore(p[j].name, files[0].name) {
          assert p[j] in multiset(p);
          assert p[j] == r || p[j] in files[1..];
        }
      }
    }
  }

  lemma {:induction false} NotBeforeItself(a: string)
    ensures !SortsBefore(a, a)
  {
    if a != "" {
      NotBeforeItself(a[1..]);
    }
  }

  lemma {:induction false} BeforeStrict(a: string, b: string, c: string)
    ensures SortsBefore(a, b) && !SortsBefore(c, b) ==> !SortsBefore(c, a)
    decreases |a| + |b| + |c|
  {
    if a != "" && b != "" && c != "" {
      BeforeStrict(a[1..], b[1..], c[1..]);
    }
  }

  /** Reports turned off while they go out, from the `k`-th on: after those posted before,
      only those sent by hand are posted. */
  lemma {:induction false} OffPostsByHand(files: seq<Report>, automatic: nat -> bool, k: nat, n: nat)
    requires k <= n <= |files| && forall i :: k <= i < n ==> !automatic(i)
    ensures Posts(files, automatic, n) == Posts(files, automatic, k) + Manual(files[k..n])
    decreases n
  {
    if k < n {
      OffPostsByHand(files, automatic, k, n - 1);
      assert files[k..n][..n - 1 - k] == files[k..n - 1];
      assert Manual(files[k..n]) ==
             Manual(files[k..n - 1]) + (if Posted(files, automatic, n - 1) then [files[n - 1]] else []);
    } else {
      assert files[k..n] == [];
    }
  }

  /** The first that must wait was posted and got no final answer; none before did. */
  lemma {:induction false} GoneIsFirst(files: seq<Report>, automatic: nat -> bool, answers: nat -> Option<nat>, i: nat)
    requires i <= |files|
    ensures var n := Gone(files, automatic, answers, i);
      && (n < |files| ==> Posted(files, automatic, n) && MustWait(answers(n)))
      && forall j :: i <= j < n ==> !Posted(files, automatic, j) || !MustWait(answers(j))
    decreases |files| - i
  {
    if i < |files| && !(Posted(files, automatic, i) && OutcomeOf(answers(i)) == Again) {
      GoneIsFirst(files, automatic, answers, i + 1);
    }
  }

  // ---------------------------------------------------------------- waiting to try again

  function Doubled(n: nat): nat {
    if n == 0 then 1 else 2 * Doubled(n - 1)
  }

  /** `retry_after`, in seconds. */
  function RetryAfter(failures: nat): nat {
    var shift := if failures == 0 then 0 else if failures - 1 < 6 then failures - 1 else 6;
    var seconds := Doubled(shift) * 60;
    if seconds < 3600 then seconds else 3600
  }

  /** A minute at first, twice as long after each failure, an hour at most. */
  lemma RetryDoubles(failures: nat)
    ensures RetryAfter(0) == RetryAfter(1) == 60
    ensures failures >= 1 ==>
      RetryAfter(failures + 1) == if 2 * RetryAfter(failures) < 3600 then 2 * RetryAfter(failures) else 3600
  {
    assert Doubled(1) == 2 && Doubled(2) == 4 && Doubled(3) == 8 && Doubled(4) == 16;
    assert Doubled(5) == 32 && Doubled(6) == 64;
  }
}
