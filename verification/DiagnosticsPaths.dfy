/** What a path is, as the log's cleaning takes it: how it opens, what a name in it may hold, and
    where it ends. A text's path is replaced whole, and nothing else of the text is. */
module DiagnosticsPaths {
  import opened Text
  import opened Diagnostics

  // ---------------------------------------------------------------- the grammar

  /** How a path opens: by a drive, `\\`, `\??\`, or a root before a letter, a digit or a dot. */
  datatype Opening = Drive(letter: char, slash: char) | Unc | Nt | Root(c: char)

  /** A name's text, a drive's letter and colon after a separator, or question marks between
      separators. */
  datatype Part = Name(text: string) | InnerDrive(slash: char, letter: char) | Marks(n: nat)

  /** An ASCII letter, by its code. */
  predicate IsLetter(c: char) {
    65 <= c as int <= 90 || 97 <= c as int <= 122
  }

  predicate IsSlash(c: char) {
    c == '\\' || c == '/'
  }

  predicate IsOpening(alnum: Kind, o: Opening) {
    match o
    case Drive(letter, slash) => IsLetter(letter) && IsSlash(slash)
    case Unc => true
    case Nt => true
    case Root(c) => alnum(c) || c == '.'
  }

  function SpellOpening(o: Opening): string {
    match o
    case Drive(letter, slash) => [letter, ':', slash]
    case Unc => "\\\\"
    case Nt => "\\??\\"
    case Root(c) => ['/', c]
  }

  /** What no file's name on Windows can hold. */
  predicate Forbidden(c: char) {
    c in "\"<>|*\n\r?:"
  }

  predicate IsPart(p: Part) {
    match p
    case Name(text) => forall c <- text :: !Forbidden(c)
    case InnerDrive(slash, letter) => IsSlash(slash) && IsLetter(letter)
    case Marks(n) => n >= 1
  }

  predicate AllParts(ps: seq<Part>) {
    forall p <- ps :: IsPart(p)
  }

  function SpellPart(p: Part): string {
    match p
    case Name(text) => text
    case InnerDrive(slash, letter) => [slash, letter, ':']
    case Marks(n) => "\\" + seq(n, _ => '?') + "\\"
  }

  function SpellParts(ps: seq<Part>): string {
    if ps == [] then [] else SpellPart(ps[0]) + SpellParts(ps[1..])
  }

  /** A path ends at a character no name can hold; but a question mark between separators and other
      question marks does not end it, nor the colon of a drive. */
  predicate EndsBefore(path: string, rest: string)
    requires path != []
  {
    var n := |path|;
    rest == [] ||
    (rest[0] in "\"<>|*\n\r") ||
    (rest[0] == '?' && !(path[n - 1] in "\\?" && |rest| > 1 && rest[1] in "\\?")) ||
    (rest[0] == ':' && n >= 2 && !(IsLetter(path[n - 1]) && IsSlash(path[n - 2])))
  }

  // ---------------------------------------------------------------- where a path starts

  lemma Letters(c: char)
    ensures AsciiLetter(c) <==> IsLetter(c)
  {}

  /** What letters and digits are in ASCII, and that spaces are none, is all that is fixed of them. */
  lemma AsciiKnown(alnum: Kind)
    requires forall c: char :: c as int < 128 ==> (alnum(c) <==> IsLetter(c) || 48 <= c as int <= 57)
    requires forall c: char :: IsWhitespace(c) ==> !alnum(c)
    ensures KnowsAscii(alnum)
  {}

  /** An opening of a path at `i`: a drive or a root only where a word may start. */
  predicate OpensAt(alnum: Kind, s: string, i: nat, o: Opening)
    requires i < |s|
  {
    IsOpening(alnum, o) && SpellOpening(o) <= s[i..] && (o.Drive? || o.Root? ==> i == 0 || !alnum(s[i - 1]))
  }

  lemma OpeningStarts(alnum: Kind, s: string, i: nat, o: Opening)
    requires i < |s| && OpensAt(alnum, s, i, o)
    ensures PathStarts(alnum, s, i)
  {
    var t := SpellOpening(o);
    assert forall k :: 0 <= k < |t| ==> s[i..][k] == t[k];
    match o
    case Drive(letter, slash) =>
      Letters(letter);
      assert t[0] == letter && t[1] == ':' && t[2] == slash;
    case Unc =>
      assert t[0] == '\\' && t[1] == '\\';
    case Nt =>
      assert t[0] == '\\' && t[1] == '?' && t[2] == '?' && t[3] == '\\';
    case Root(c) =>
      assert t[0] == '/' && t[1] == c;
  }

  lemma StartOpens(alnum: Kind, s: string, i: nat) returns (o: Opening)
    requires i < |s| && PathStarts(alnum, s, i)
    ensures OpensAt(alnum, s, i, o)
  {
    var r := s[i..];
    Letters(r[0]);
    if r[0] == '\\' {
      o := if r[1] == '\\' then Unc else Nt;
    } else if r[0] == '/' {
      o := Root(r[1]);
    } else {
      o := Drive(r[0], r[2]);
    }
  }

  /** A path starts exactly where one opens. */
  lemma StartsExactly(alnum: Kind, s: string, i: nat)
    requires i < |s|
    ensures PathStarts(alnum, s, i) <==> exists o :: OpensAt(alnum, s, i, o)
  {
    hide OpensAt, PathStarts;
    if PathStarts(alnum, s, i) {
      var o := StartOpens(alnum, s, i);
    }
    if o :| OpensAt(alnum, s, i, o) {
      OpeningStarts(alnum, s, i, o);
    }
  }

  // ---------------------------------------------------------------- how far it goes

  predicate GoesOn(s: string, start: nat, i: nat, j: nat) {
    i <= j <= |s| && forall k :: i <= k < j ==> !PathEnds(s, start, k)
  }

  lemma {:induction false} EndAfter(s: string, start: nat, i: nat, j: nat)
    requires GoesOn(s, start, i, j) && (j == |s| || PathEnds(s, start, j))
    ensures PathEnd(s, start, i) == j
    decreases j - i
  {
    hide PathEnds;
    if i < j {
      EndAfter(s, start, i + 1, j);
    }
  }

  /** The characters of a text from `m` on. */
  predicate SpelledAt(s: string, m: nat, t: string) {
    m + |t| <= |s| && forall k :: 0 <= k < |t| ==> s[m + k] == t[k]
  }

  lemma OpeningGoesOn(alnum: Kind, s: string, start: nat, o: Opening)
    requires KnowsAscii(alnum) && IsOpening(alnum, o) && SpelledAt(s, start, SpellOpening(o))
    ensures GoesOn(s, start, start, start + |SpellOpening(o)|)
  {
    var t := SpellOpening(o);
    match o
    case Drive(letter, slash) =>
      Letters(letter);
      assert s[start + 0] == t[0] && s[start + 1] == t[1] && s[start + 2] == t[2];
    case Unc =>
      assert s[start + 0] == t[0] && s[start + 1] == t[1];
    case Nt =>
      assert s[start + 0] == t[0] && s[start + 1] == t[1] && s[start + 2] == t[2] && s[start + 3] == t[3];
    case Root(c) =>
      assert s[start + 0] == t[0] && s[start + 1] == t[1];
  }

  lemma NameGoesOn(s: string, start: nat, m: nat, text: string)
    requires SpelledAt(s, m, text) && forall c <- text :: !Forbidden(c)
    ensures GoesOn(s, start, m, m + |text|)
  {
    forall k | m <= k < m + |text| ensures !PathEnds(s, start, k) {
      assert s[m + (k - m)] == text[k - m] && text[k - m] in text;
    }
  }

  lemma DriveGoesOn(s: string, start: nat, m: nat, slash: char, letter: char)
    requires SpelledAt(s, m, [slash, letter, ':']) && IsSlash(slash) && IsLetter(letter)
    ensures GoesOn(s, start, m, m + 3)
  {
    var t := [slash, letter, ':'];
    Letters(letter);
    assert s[m + 0] == t[0] && s[m + 1] == t[1] && s[m + 2] == t[2];
  }

  lemma MarksGoOn(s: string, start: nat, m: nat, n: nat)
    requires SpelledAt(s, m, SpellPart(Marks(n)))
    ensures GoesOn(s, start, m, m + n + 2)
  {
    var t := SpellPart(Marks(n));
    assert |t| == n + 2 && t[0] == '\\' && t[n + 1] == '\\' && forall k :: 1 <= k <= n ==> t[k] == '?';
    assert forall k :: 0 <= k < n + 2 ==> s[m + k] == t[k];
    forall k | m <= k < m + n + 2 ensures !PathEnds(s, start, k) {
      assert s[m + (k - m)] == t[k - m];
      if m < k < m + n + 1 {
        assert s[m + (k - 1 - m)] == t[k - 1 - m] && s[m + (k + 1 - m)] == t[k + 1 - m];
      }
    }
  }

  lemma {:induction false} PartsGoOn(s: string, start: nat, m: nat, ps: seq<Part>)
    requires AllParts(ps) && SpelledAt(s, m, SpellParts(ps))
    ensures GoesOn(s, start, m, m + |SpellParts(ps)|)
    decreases |ps|
  {
    hide PathEnds, Forbidden, IsLetter, IsSlash;
    if ps != [] {
      var (p, rest) := (ps[0], SpellParts(ps[1..]));
      assert IsPart(p);
      var n := |SpellPart(p)|;
      SpelledParts(s, m, SpellPart(p), rest);
      match p {
        case Name(text) => NameGoesOn(s, start, m, text);
        case InnerDrive(slash, letter) => DriveGoesOn(s, start, m, slash, letter);
        case Marks(k) => MarksGoOn(s, start, m, k);
      }
      PartsGoOn(s, start, m + n, ps[1..]);
    }
  }

  lemma SpelledParts(s: string, m: nat, a: string, b: string)
    requires SpelledAt(s, m, a + b)
    ensures SpelledAt(s, m, a) && SpelledAt(s, m + |a|, b)
  {
    forall k | 0 <= k < |a| ensures s[m + k] == a[k] {
      assert (a + b)[k] == a[k];
    }
    forall k | 0 <= k < |b| ensures s[m + |a| + k] == b[k] {
      assert (a + b)[|a| + k] == b[k];
    }
  }

  lemma EndsThere(s: string, start: nat, path: string, rest: string)
    requires path != [] && SpelledAt(s, start, path) && s[start + |path|..] == rest && EndsBefore(path, rest)
    ensures start + |path| == |s| || PathEnds(s, start, start + |path|)
  {
    var n := |path|;
    if rest != [] {
      assert s[start + n] == rest[0] && s[start + (n - 1)] == path[n - 1];
      Letters(path[n - 1]);
      if |rest| > 1 {
        assert s[start + n + 1] == rest[1];
      }
      if n >= 2 {
        assert s[start + (n - 2)] == path[n - 2];
      }
    }
  }

  // ---------------------------------------------------------------- what is left of a text

  /** The whole path that starts a place. */
  lemma PathWhole(alnum: Kind, s: string, start: nat, o: Opening, ps: seq<Part>, rest: string)
    requires KnowsAscii(alnum) && IsOpening(alnum, o) && AllParts(ps)
    requires var path := SpellOpening(o) + SpellParts(ps);
      SpelledAt(s, start, path) && s[start + |path|..] == rest && EndsBefore(path, rest)
    ensures PathEnd(s, start, start) == start + |SpellOpening(o) + SpellParts(ps)|
  {
    hide PathEnds, KnowsAscii, IsOpening, EndsBefore;
    var path := SpellOpening(o) + SpellParts(ps);
    SpelledParts(s, start, SpellOpening(o), SpellParts(ps));
    OpeningGoesOn(alnum, s, start, o);
    PartsGoOn(s, start, start + |SpellOpening(o)|, ps);
    EndsThere(s, start, path, rest);
    EndAfter(s, start, start, start + |path|);
  }

  lemma CopiedOne(alnum: Kind, s: string, i: nat)
    requires i < |s| && !PathStarts(alnum, s, i)
    ensures Removed(alnum, s, i) == [s[i]] + Removed(alnum, s, i + 1)
  {
    hide PathStarts;
  }

  lemma GoneOne(alnum: Kind, s: string, i: nat, end: nat)
    requires i < |s| && PathStarts(alnum, s, i) && PathEnd(s, i, i) == end
    ensures Removed(alnum, s, i) == "<path>" + Removed(alnum, s, end)
  {
    hide PathStarts, PathEnd;
  }

  lemma {:induction false} CopiedUpTo(alnum: Kind, s: string, i: nat, n: nat)
    requires i <= n <= |s| && forall k :: i <= k < n ==> !PathStarts(alnum, s, k)
    ensures Removed(alnum, s, i) == s[i..n] + Removed(alnum, s, n)
    decreases n - i
  {
    hide PathStarts, Removed;
    if i < n {
      CopiedOne(alnum, s, i);
      CopiedUpTo(alnum, s, i + 1, n);
      Slices(s, i, n, Removed(alnum, s, n));
    }
  }

  lemma Slices(s: string, i: nat, n: nat, rest: string)
    requires i < n <= |s|
    ensures s[i..n] + rest == [s[i]] + (s[i + 1..n] + rest)
  {}

  /** A text is kept up to its first path, which is replaced whole, up to where it ends. */
  lemma FirstPathGoes(alnum: Kind, before: string, o: Opening, ps: seq<Part>, rest: string)
    requires KnowsAscii(alnum) && IsOpening(alnum, o) && AllParts(ps)
            && EndsBefore(SpellOpening(o) + SpellParts(ps), rest)
    requires o.Drive? || o.Root? ==> before == [] || !alnum(before[|before| - 1])
    requires var text := before + (SpellOpening(o) + SpellParts(ps)) + rest;
      forall k :: 0 <= k < |before| ==> !PathStarts(alnum, text, k)
    ensures var text := before + (SpellOpening(o) + SpellParts(ps)) + rest;
      Removed(alnum, text, 0) == before + "<path>" + Removed(alnum, text, |text| - |rest|)
  {
    hide PathStarts, KnowsAscii, IsOpening, EndsBefore, Removed, SpellOpening, SpellParts, PathEnd;
    var path := SpellOpening(o) + SpellParts(ps);
    var text := before + path + rest;
    var n := |before|;
    Pieces(before, path, rest);
    PathWhole(alnum, text, n, o, ps, rest);
    OpensThere(alnum, text, n, o, SpellParts(ps), rest, before);
    OpeningStarts(alnum, text, n, o);
    CopiedUpTo(alnum, text, 0, n);
    GoneOne(alnum, text, n, n + |path|);
    Regroup(before, "<path>", Removed(alnum, text, n + |path|));
  }

  lemma Pieces(a: string, b: string, c: string)
    ensures SpelledAt(a + b + c, |a|, b) && (a + b + c)[|a| + |b|..] == c && (a + b + c)[0..|a|] == a
  {}

  lemma Regroup(a: string, b: string, c: string)
    ensures a + (b + c) == a + b + c
  {}

  lemma OpensThere(alnum: Kind, text: string, n: nat, o: Opening, parts: string, rest: string, before: string)
    requires text == before + (SpellOpening(o) + parts) + rest && n == |before| && IsOpening(alnum, o)
    requires o.Drive? || o.Root? ==> before == [] || !alnum(before[|before| - 1])
    ensures n < |text| && OpensAt(alnum, text, n, o)
  {
    hide IsOpening;
    assert text[n..] == SpellOpening(o) + (parts + rest);
    assert n > 0 ==> text[n - 1] == before[n - 1];
  }

  // ---------------------------------------------------------------- one line

  /** A text's lines are trimmed and put on one line, a slash between, without those that are empty. */
  lemma LinesOf(line: string, c: char, rest: string)
    requires '\n' !in line && '\r' !in line && (c == '\n' || c == '\r')
    ensures LinesKept(line + [c] + rest) == (if Trim(line) == "" then [] else [Trim(line)]) + LinesKept(rest)
    ensures LinesKept(line) == if Trim(line) == "" then [] else [Trim(line)]
  {
    hide Trim;
    var text := line + [c] + rest;
    assert BreakAt(text) == |line| by {
      assert text[|line|] == c && forall k :: 0 <= k < |line| ==> text[k] == line[k];
    }
    assert text[..|line|] == line && text[|line| + 1..] == rest;
    assert BreakAt(line) == |line| && line[..|line|] == line;
  }

  lemma JoinedBySlashes(line: string, lines: seq<string>)
    ensures OnOneLine([]) == "" && OnOneLine([line]) == line
    ensures lines != [] ==> OnOneLine([line] + lines) == line + " / " + OnOneLine(lines)
  {}

  lemma CutAtMost(s: string, n: nat)
    ensures FirstChars(s, n) <= s && |FirstChars(s, n)| == Min(|s|, n)
  {}

  function Min(a: nat, b: nat): nat {
    if a < b then a else b
  }
}
