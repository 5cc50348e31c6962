/** The log's text without the user's paths (`diagnostics.rs`): what is left holds no path,
    and stays so when its lines are joined and it is cut. `alnum` stands for Unicode's
    letters and digits, of which only ASCII's and the spaces' are fixed. */
module Diagnostics {
  import opened Text

  type Kind = char -> bool

  const PATH := "<path>"

  predicate AsciiLetter(c: char) {
    'a' <= c <= 'z' || 'A' <= c <= 'Z'
  }

  ghost predicate KnowsAscii(alnum: Kind) {
    && (forall c: char :: c <= '\U{7F}' ==> (alnum(c) <==> AsciiLetter(c) || IsDigit(c)))
    && (forall c: char :: IsWhitespace(c) ==> !alnum(c))
  }

  // ---------------------------------------------------------------- where a path starts and ends

  predicate At(r: string, n: nat, c: char) {
    n < |r| && r[n] == c
  }

  /** Whether a path starts the text `r`; `word` tells that a word may start there. */
  predicate Starts(alnum: Kind, word: bool, r: string) {
    && r != []
    && var drive := AsciiLetter(r[0]) && At(r, 1, ':') && (At(r, 2, '\\') || At(r, 2, '/'));
       var unc := r[0] == '\\' && At(r, 1, '\\');
       var nt := r[0] == '\\' && At(r, 1, '?') && At(r, 2, '?') && At(r, 3, '\\');
       var rooted := r[0] == '/' && |r| > 1 && (alnum(r[1]) || r[1] == '.') && word;
       (drive && word) || unc || nt || rooted
  }

  predicate WordStart(alnum: Kind, s: string, i: nat)
    requires i <= |s|
  {
    i == 0 || !alnum(s[i - 1])
  }

  /** `path_starts`. */
  predicate PathStarts(alnum: Kind, s: string, i: nat)
    requires i < |s|
  {
    Starts(alnum, WordStart(alnum, s, i), s[i..])
  }

  predicate IsOneOf(s: string, i: int, a: char, b: char) {
    0 <= i < |s| && (s[i] == a || s[i] == b)
  }

  /** `path_ends`. */
  predicate PathEnds(s: string, start: nat, i: nat)
    requires i < |s|
  {
    var c := s[i];
    if c == '"' || c == '<' || c == '>' || c == '|' || c == '*' || c == '\n' || c == '\r' then true
    else if c == '?' then !(IsOneOf(s, i - 1, '\\', '?') && IsOneOf(s, i + 1, '\\', '?'))
    else if c == ':' then
      !(i > 0 && AsciiLetter(s[i - 1]) && (i == start + 1 || IsOneOf(s, i - 2, '\\', '/')))
    else false
  }

  /** The end of the path that starts at `start`, from `i` on. */
  function PathEnd(s: string, start: nat, i: nat): (end: nat)
    requires i <= |s|
    ensures i <= end <= |s| && (end < |s| ==> PathEnds(s, start, end))
    decreases |s| - i
  {
    if i == |s| || PathEnds(s, start, i) then i else PathEnd(s, start, i + 1)
  }

  lemma StartGoesOn(alnum: Kind, s: string, i: nat)
    requires i < |s| && PathStarts(alnum, s, i)
    ensures PathEnd(s, i, i) > i
  {}

  /** The text from `i` on, its paths replaced. */
  function Removed(alnum: Kind, s: string, i: nat): string
    requires i <= |s|
    decreases |s| - i
  {
    if i == |s| then ""
    else if PathStarts(alnum, s, i) then
      StartGoesOn(alnum, s, i);
      PATH + Removed(alnum, s, PathEnd(s, i, i))
    else [s[i]] + Removed(alnum, s, i + 1)
  }

  /** `without_paths`; each turn of its loops takes a character. */
  method WithoutPaths(alnum: Kind, text: string) returns (out: string)
    ensures out == Removed(alnum, text, 0)
  {
    hide Starts, PathEnds;
    out := "";
    var i := 0;
    while i < |text|
      invariant i <= |text| && out + Removed(alnum, text, i) == Removed(alnum, text, 0)
      decreases |text| - i
    {
      if PathStarts(alnum, text, i) {
        StartGoesOn(alnum, text, i);
        out := out + PATH;
        var start := i;
        while i < |text| && !PathEnds(text, start, i)
          invariant start <= i <= |text| && PathEnd(text, start, i) == PathEnd(text, start, start)
        {
          i := i + 1;
        }
        continue;
      }
      out := out + [text[i]];
      i := i + 1;
    }
    assert out + "" == out;
  }

  // ---------------------------------------------------------------- no path is left

  predicate WordAt(alnum: Kind, word: bool, r: string, k: nat)
    requires k <= |r|
  {
    if k == 0 then word else !alnum(r[k - 1])
  }

  /** No path starts anywhere in `r`, whose beginning may start a word or not. */
  ghost predicate NoPath(alnum: Kind, word: bool, r: string) {
    forall k :: 0 <= k < |r| ==> !Starts(alnum, WordAt(alnum, word, r, k), r[k..])
  }

  /** No path starts in a text. */
  ghost predicate Clean(alnum: Kind, s: string) {
    forall i :: 0 <= i < |s| ==> !PathStarts(alnum, s, i)
  }

  lemma CleanIsNoPath(alnum: Kind, s: string)
    ensures Clean(alnum, s) <==> NoPath(alnum, true, s)
  {
    hide Starts;
    forall i | 0 <= i < |s|
      ensures PathStarts(alnum, s, i) == Starts(alnum, WordAt(alnum, true, s, i), s[i..])
    {}
  }

  lemma NoPathFirst(alnum: Kind, word: bool, c: char, r: string)
    requires !Starts(alnum, word, [c] + r) && NoPath(alnum, !alnum(c), r)
    ensures NoPath(alnum, word, [c] + r)
  {
    hide Starts;
    var t := [c] + r;
    forall k | 0 <= k < |t| ensures !Starts(alnum, WordAt(alnum, word, t, k), t[k..]) {
      if k > 0 {
        assert t[k..] == r[k - 1..];
        assert WordAt(alnum, word, t, k) == WordAt(alnum, !alnum(c), r, k - 1);
      } else {
        assert t[0..] == t;
      }
    }
  }

  /** What is written as it is was read as it is. */
  lemma {:induction false} Copied(alnum: Kind, s: string, i: nat, n: nat)
    requires i <= |s| && n <= |Removed(alnum, s, i)|
    requires forall k :: 0 <= k < n ==> Removed(alnum, s, i)[k] != '<'
    ensures i + n <= |s| && forall k :: 0 <= k < n ==> Removed(alnum, s, i)[k] == s[i + k]
    decreases n
  {
    hide Starts;
    var r := Removed(alnum, s, i);
    if n > 0 {
      assert r[0] != '<';
      assert !PathStarts(alnum, s, i);
      var more := Removed(alnum, s, i + 1);
      assert r == [s[i]] + more;
      forall k | 0 <= k < n - 1 ensures more[k] != '<' {
        assert more[k] == r[k + 1];
      }
      Copied(alnum, s, i + 1, n - 1);
    }
  }

  /** How much of a text tells that a path starts it, none of it a `<`. */
  function Needed(alnum: Kind, word: bool, r: string): (n: nat)
    requires Starts(alnum, word, r)
    ensures 0 < n <= |r|
  {
    if r[0] == '/' then 2
    else if r[0] == '\\' then (if At(r, 1, '\\') then 2 else 4)
    else 3
  }

  lemma NeededPlain(alnum: Kind, word: bool, r: string)
    requires KnowsAscii(alnum) && Starts(alnum, word, r)
    ensures var n := Needed(alnum, word, r);
      forall k :: 0 <= k < n ==> r[k] != '<' && r[k] != ' ' && r[k] != '\n' && r[k] != '\r'
  {}

  lemma NeededEnough(alnum: Kind, word: bool, r: string, t: string)
    requires Starts(alnum, word, r) && |t| >= Needed(alnum, word, r)
    requires forall k :: 0 <= k < Needed(alnum, word, r) ==> t[k] == r[k]
    ensures Starts(alnum, word, t)
  {}

  predicate Ending(c: char) {
    c == '"' || c == '<' || c == '>' || c == '|' || c == '*' || c == '\n' || c == '\r' || c == '?' || c == ':'
  }

  lemma EndsAtEnding(s: string, start: nat, i: nat)
    requires i < |s| && PathEnds(s, start, i)
    ensures Ending(s[i])
  {}

  lemma EndingStartsNone(alnum: Kind, word: bool, r: string)
    requires r != [] && Ending(r[0])
    ensures !Starts(alnum, word, r)
  {}

  lemma CopiedStart(alnum: Kind, s: string, i: nat)
    requires KnowsAscii(alnum) && i < |s| && !PathStarts(alnum, s, i)
    ensures !Starts(alnum, WordStart(alnum, s, i), Removed(alnum, s, i))
  {
    hide PathEnds;
    var (word, r) := (WordStart(alnum, s, i), Removed(alnum, s, i));
    if Starts(alnum, word, r) {
      var n := Needed(alnum, word, r);
      NeededPlain(alnum, word, r);
      Copied(alnum, s, i, n);
      NeededEnough(alnum, word, r, s[i..]);
    }
  }

  lemma TokenClean(alnum: Kind, word: bool, r: string)
    requires KnowsAscii(alnum) && NoPath(alnum, true, r)
    ensures NoPath(alnum, word, PATH + r)
  {
    hide KnowsAscii;
    assert !alnum('>') && !alnum('<') by { FitsMarks(alnum); }
    NoPathFirst(alnum, !alnum('h'), '>', r);
    NoPathFirst(alnum, !alnum('t'), 'h', [">"[0]] + r);
    NoPathFirst(alnum, !alnum('a'), 't', ['h'] + ([">"[0]] + r));
    NoPathFirst(alnum, !alnum('p'), 'a', ['t'] + (['h'] + ([">"[0]] + r)));
    NoPathFirst(alnum, !alnum('<'), 'p', ['a'] + (['t'] + (['h'] + ([">"[0]] + r))));
    NoPathFirst(alnum, word, '<', ['p'] + (['a'] + (['t'] + (['h'] + ([">"[0]] + r)))));
    assert PATH + r == ['<'] + (['p'] + (['a'] + (['t'] + (['h'] + ([">"[0]] + r)))));
  }

  lemma FitsMarks(alnum: Kind)
    requires KnowsAscii(alnum)
    ensures !alnum('>') && !alnum('<') && !alnum(' ') && !alnum('\n') && !alnum('\r')
  {}

  lemma {:induction false} RemovedClean(alnum: Kind, s: string, i: nat, word: bool)
    requires KnowsAscii(alnum) && i <= |s|
    requires i < |s| ==> word == WordStart(alnum, s, i) || Ending(s[i])
    ensures NoPath(alnum, word, Removed(alnum, s, i))
    decreases |s| - i
  {
    hide Starts, PathEnds, KnowsAscii;
    if i < |s| {
      if PathStarts(alnum, s, i) {
        StartGoesOn(alnum, s, i);
        var end := PathEnd(s, i, i);
        if end < |s| {
          EndsAtEnding(s, i, end);
        }
        RemovedClean(alnum, s, end, true);
        TokenClean(alnum, word, Removed(alnum, s, end));
      } else {
        var r := Removed(alnum, s, i + 1);
        RemovedClean(alnum, s, i + 1, !alnum(s[i]));
        CopiedStart(alnum, s, i);
        if Ending(s[i]) {
          EndingStartsNone(alnum, word, [s[i]] + r);
        }
        NoPathFirst(alnum, word, s[i], r);
      }
    }
  }

  /** No path is left. */
  lemma NoPathLeft(alnum: Kind, text: string)
    requires KnowsAscii(alnum)
    ensures Clean(alnum, Removed(alnum, text, 0))
  {
    hide Starts, KnowsAscii, NoPath, Removed;
    RemovedClean(alnum, text, 0, true);
    CleanIsNoPath(alnum, Removed(alnum, text, 0));
  }

  /** Text without a path stays as it is. */
  lemma {:induction false} CleanStays(alnum: Kind, s: string, i: nat)
    requires Clean(alnum, s) && i <= |s|
    ensures Removed(alnum, s, i) == s[i..]
    decreases |s| - i
  {
    hide PathStarts;
    if i < |s| {
      CleanStays(alnum, s, i + 1);
      assert s[i..] == [s[i]] + s[i + 1..];
    }
  }

  /** So a second pass changes nothing. */
  lemma Idempotent(alnum: Kind, text: string)
    requires KnowsAscii(alnum)
    ensures var out := Removed(alnum, text, 0); Removed(alnum, out, 0) == out
  {
    hide Clean, KnowsAscii, Removed;
    NoPathLeft(alnum, text);
    CleanStays(alnum, Removed(alnum, text, 0), 0);
    assert Removed(alnum, text, 0)[0..] == Removed(alnum, text, 0);
  }

  // ---------------------------------------------------------------- one line, and cut

  predicate IsBreak(c: char) {
    c == '\n' || c == '\r'
  }

  function BreakAt(s: string): (i: nat)
    ensures i <= |s| && (i < |s| ==> IsBreak(s[i])) && forall k :: 0 <= k < i ==> !IsBreak(s[k])
  {
    if s == [] || IsBreak(s[0]) then 0 else 1 + BreakAt(s[1..])
  }

  /** The lines of a text, trimmed, those that are empty left out. */
  function LinesKept(s: string): seq<string>
    decreases |s|
  {
    var i := BreakAt(s);
    var line := Trim(s[..i]);
    (if line == "" then [] else [line]) + (if i == |s| then [] else LinesKept(s[i + 1..]))
  }

  function OnOneLine(lines: seq<string>): string {
    if lines == [] then "" else if |lines| == 1 then lines[0] else lines[0] + " / " + OnOneLine(lines[1..])
  }

  /** `one_line`. */
  function OneLine(text: string): string {
    OnOneLine(LinesKept(text))
  }

  function FirstChars(s: string, n: nat): string {
    if |s| > n then s[..n] else s
  }

  /** Part of a text without a path, from where a word may start. */
  lemma PartClean(alnum: Kind, s: string, a: nat, b: nat)
    requires Clean(alnum, s) && a <= b <= |s| && WordStart(alnum, s, a)
    ensures Clean(alnum, s[a..b])
  {
    hide Starts;
    var t := s[a..b];
    forall i | 0 <= i < |t| ensures !PathStarts(alnum, t, i) {
      var word := WordStart(alnum, t, i);
      assert word == WordStart(alnum, s, a + i);
      assert !PathStarts(alnum, s, a + i);
      if Starts(alnum, word, t[i..]) {
        assert forall k :: 0 <= k < |t[i..]| ==> s[a + i..][k] == t[i..][k];
        NeededEnough(alnum, word, t[i..], s[a + i..]);
      }
    }
  }

  lemma {:induction false} TrimStartCuts(s: string) returns (a: nat)
    ensures a <= |s| && TrimStart(s) == s[a..] && forall k :: 0 <= k < a ==> IsWhitespace(s[k])
    decreases |s|
  {
    a := 0;
    assert s[0..] == s;
    if s != [] && IsWhitespace(s[0]) {
      var b := TrimStartCuts(s[1..]);
      a := b + 1;
      assert s[1..][b..] == s[a..];
      assert forall k :: 0 < k < a ==> s[k] == s[1..][k - 1];
    }
  }

  lemma {:induction false} TrimEndCuts(s: string) returns (b: nat)
    ensures b <= |s| && TrimEnd(s) == s[..b]
    decreases |s|
  {
    b := |s|;
    assert s[..b] == s;
    if s != [] && IsWhitespace(s[|s| - 1]) {
      b := TrimEndCuts(s[..|s| - 1]);
      assert s[..|s| - 1][..b] == s[..b];
    }
  }

  lemma TrimClean(alnum: Kind, s: string)
    requires KnowsAscii(alnum) && Clean(alnum, s)
    ensures Clean(alnum, Trim(s))
  {
    hide Starts, PathStarts;
    var a := TrimStartCuts(s);
    var t := s[a..];
    var b := TrimEndCuts(t);
    assert t[..b] == s[a..a + b];
    assert a > 0 ==> IsWhitespace(s[a - 1]);
    PartClean(alnum, s, a, a + b);
  }

  lemma {:induction false} LinesClean(alnum: Kind, s: string)
    requires KnowsAscii(alnum) && Clean(alnum, s)
    ensures forall l | l in LinesKept(s) :: Clean(alnum, l)
    decreases |s|
  {
    hide Starts, Clean, KnowsAscii, Trim;
    var i := BreakAt(s);
    assert s[0..i] == s[..i];
    PartClean(alnum, s, 0, i);
    TrimClean(alnum, s[..i]);
    if i < |s| {
      FitsMarks(alnum);
      assert s[i + 1..|s|] == s[i + 1..];
      PartClean(alnum, s, i + 1, |s|);
      LinesClean(alnum, s[i + 1..]);
    }
  }

  /** Two texts without a path, joined as lines are. */
  lemma JoinClean(alnum: Kind, a: string, b: string)
    requires KnowsAscii(alnum) && Clean(alnum, a) && Clean(alnum, b)
    ensures Clean(alnum, a + " / " + b)
  {
    hide Starts, KnowsAscii;
    FitsMarks(alnum);
    var t := a + " / " + b;
    forall i | 0 <= i < |t| ensures !PathStarts(alnum, t, i) {
      var word := WordStart(alnum, t, i);
      assert t[|a|] == ' ' && t[|a| + 2] == ' ';
      assert i < |a| ==> word == WordStart(alnum, a, i) && !PathStarts(alnum, a, i);
      assert i <= |a| ==> t[i..][|a| - i] == ' ';
      assert i <= |a| + 2 ==> t[i..][|a| + 2 - i] == ' ';
      if i >= |a| + 3 {
        var j := i - |a| - 3;
        assert t[i..] == b[j..] && word == WordStart(alnum, b, j) && !PathStarts(alnum, b, j);
      } else if Starts(alnum, word, t[i..]) {
        var n := Needed(alnum, word, t[i..]);
        NeedsTwo(alnum, word, t[i..]);
        NeededPlain(alnum, word, t[i..]);
        if i < |a| {
          NeededEnough(alnum, word, t[i..], a[i..]);
        }
      }
    }
  }

  lemma NeedsTwo(alnum: Kind, word: bool, r: string)
    requires Starts(alnum, word, r)
    ensures Needed(alnum, word, r) >= 2
  {}

  lemma {:induction false} JoinedClean(alnum: Kind, lines: seq<string>)
    requires KnowsAscii(alnum) && forall l | l in lines :: Clean(alnum, l)
    ensures Clean(alnum, OnOneLine(lines))
    decreases |lines|
  {
    hide Clean, KnowsAscii;
    if lines == [] {
      NothingClean(alnum);
    } else if |lines| > 1 {
      JoinedClean(alnum, lines[1..]);
      JoinClean(alnum, lines[0], OnOneLine(lines[1..]));
    }
  }

  lemma NothingClean(alnum: Kind)
    ensures Clean(alnum, "")
  {}

  /** The message a log line holds, its lines joined and cut anywhere, holds no path. */
  lemma MessageClean(alnum: Kind, text: string, chars: nat)
    requires KnowsAscii(alnum)
    ensures Clean(alnum, OneLine(Removed(alnum, text, 0)))
    ensures Clean(alnum, FirstChars(OneLine(Removed(alnum, text, 0)), chars))
  {
    hide Clean, KnowsAscii, Removed, LinesKept, OnOneLine;
    var out := Removed(alnum, text, 0);
    NoPathLeft(alnum, text);
    LinesClean(alnum, out);
    JoinedClean(alnum, LinesKept(out));
    var line := OneLine(out);
    if |line| > chars {
      assert line[0..chars] == line[..chars];
      PartClean(alnum, line, 0, chars);
    }
  }
}
