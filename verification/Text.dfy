/** Text as sequences of Unicode scalars: the standard library's operations on it that
    the settings file is printed and read with, and decimal numbers. */
module Text {
  import opened Wrappers

  // ---------------------------------------------------------------- characters

  /** Unicode's White_Space. */
  predicate IsWhitespace(c: char) {
    || '\U{9}' <= c <= '\U{D}' || c == ' ' || c == '\U{85}' || c == '\U{A0}' || c == '\U{1680}'
    || '\U{2000}' <= c <= '\U{200A}' || c == '\U{2028}' || c == '\U{2029}' || c == '\U{202F}'
    || c == '\U{205F}' || c == '\U{3000}'
  }

  /** Unicode's category Cc. */
  predicate IsControl(c: char) {
    c < ' ' || '\U{7F}' <= c <= '\U{9F}'
  }

  predicate IsDigit(c: char) {
    '0' <= c <= '9'
  }

  // ---------------------------------------------------------------- trimming

  function TrimStart(s: string): string {
    if s != [] && IsWhitespace(s[0]) then TrimStart(s[1..]) else s
  }

  function TrimEnd(s: string): string {
    if s != [] && IsWhitespace(s[|s| - 1]) then TrimEnd(s[..|s| - 1]) else s
  }

  function Trim(s: string): string {
    TrimEnd(TrimStart(s))
  }

  /** Text that starts and ends with no space keeps its own ends. */
  lemma TrimInner(s: string)
    requires s != [] && !IsWhitespace(s[0]) && !IsWhitespace(s[|s| - 1])
    ensures Trim(s) == s && TrimStart(s) == s
  {}

  lemma {:induction false} TrimStartSpaces(n: nat, s: string)
    requires s != [] && !IsWhitespace(s[0])
    ensures TrimStart(seq(n, _ => ' ') + s) == s
  {
    var spaces := seq(n, _ => ' ');
    if n == 0 {
      assert spaces + s == s;
    } else {
      assert (spaces + s)[1..] == seq(n - 1, _ => ' ') + s;
      TrimStartSpaces(n - 1, s);
    }
  }

  // ---------------------------------------------------------------- searching

  /** The index of the first `c`, or the length of `s`. */
  function Find(s: string, c: char): (i: nat)
    ensures i <= |s|
    ensures i < |s| ==> s[i] == c
    ensures forall k :: 0 <= k < i ==> s[k] != c
  {
    if s == [] || s[0] == c then 0 else 1 + Find(s[1..], c)
  }

  lemma FindAt(a: string, c: char, b: string)
    requires c !in a
    ensures Find(a + [c] + b, c) == |a|
  {
    var s := a + [c] + b;
    assert s[|a|] == c;
    assert forall k :: 0 <= k < |a| ==> s[k] == a[k];
  }

  ghost predicate OccursAt(p: string, s: string, i: int) {
    0 <= i && i + |p| <= |s| && s[i..i + |p|] == p
  }

  ghost predicate Occurs(p: string, s: string) {
    exists i :: OccursAt(p, s, i)
  }

  /** `str::replace`: every occurrence, from the left, none overlapping another. */
  function Replace(s: string, p: string, value: string): string
    requires p != []
  {
    if |s| < |p| then s
    else if s[..|p|] == p then value + Replace(s[|p|..], p, value)
    else [s[0]] + Replace(s[1..], p, value)
  }

  lemma {:induction false} ReplaceNone(s: string, p: string, value: string)
    requires p != [] && !Occurs(p, s)
    ensures Replace(s, p, value) == s
    decreases |s|
  {
    if |s| >= |p| {
      assert !OccursAt(p, s, 0);
      forall i ensures !OccursAt(p, s[1..], i) {
        if OccursAt(p, s[1..], i) {
          assert s[1..][i..i + |p|] == s[i + 1..i + 1 + |p|];
          assert OccursAt(p, s, i + 1);
        }
      }
      ReplaceNone(s[1..], p, value);
    }
  }

  lemma {:induction false} ReplaceBySame(s: string, p: string)
    requires p != []
    ensures Replace(s, p, p) == s
    decreases |s|
  {
    if |s| >= |p| {
      if s[..|p|] == p {
        ReplaceBySame(s[|p|..], p);
        assert s == p + s[|p|..];
      } else {
        ReplaceBySame(s[1..], p);
      }
    }
  }

  lemma ReplaceWhole(p: string, value: string)
    requires p != []
    ensures Replace(p, p, value) == value
  {
    assert p[..|p|] == p && p[|p|..] == [];
    assert value + [] == value;
  }

  /** A pattern without the character `c` never runs across one. */
  lemma {:induction false} ReplaceAcross(a: string, c: char, b: string, p: string, value: string)
    requires p != [] && c !in p
    ensures Replace(a + [c] + b, p, value) == Replace(a, p, value) + [c] + Replace(b, p, value)
    decreases |a|
  {
    var s := a + [c] + b;
    if a == [] {
      assert s[0] == c && s[1..] == b;
      if |s| >= |p| {
        assert s[..|p|][0] == c && p[0] in p;
      }
    } else if |a| >= |p| {
      assert s[..|p|] == a[..|p|];
      if a[..|p|] == p {
        assert s[|p|..] == a[|p|..] + [c] + b;
        ReplaceAcross(a[|p|..], c, b, p, value);
      } else {
        assert s[1..] == a[1..] + [c] + b;
        ReplaceAcross(a[1..], c, b, p, value);
      }
    } else {
      if |s| >= |p| {
        assert s[..|p|][|a|] == s[|a|] == c && p[|a|] in p;
      }
      assert s[1..] == a[1..] + [c] + b;
      ReplaceAcross(a[1..], c, b, p, value);
      assert Replace(a[1..], p, value) == a[1..];
    }
  }

  // ---------------------------------------------------------------- lines

  function WithoutCr(line: string): string {
    if line != [] && line[|line| - 1] == '\r' then line[..|line| - 1] else line
  }

  /** `str::lines`: a line ends at `\n` or `\r\n`, the last at the end of the text. */
  function Lines(text: string): seq<string> {
    if text == [] then []
    else
      var i := Find(text, '\n');
      if i == |text| then [text] else [WithoutCr(text[..i])] + Lines(text[i + 1..])
  }

  /** The lines, each with its end. */
  function Joined(lines: seq<string>): string {
    if lines == [] then [] else lines[0] + "\n" + Joined(lines[1..])
  }

  ghost predicate IsLine(line: string) {
    '\n' !in line && (line != [] ==> line[|line| - 1] != '\r')
  }

  lemma LinesFirst(line: string, rest: string)
    requires IsLine(line)
    ensures Lines(line + ['\n'] + rest) == [line] + Lines(rest)
  {
    var text := line + ['\n'] + rest;
    FindAt(line, '\n', rest);
    assert text[..|line|] == line && text[|line| + 1..] == rest;
  }

  lemma {:induction false} LinesAfter(a: seq<string>, text: string)
    requires forall l | l in a :: IsLine(l)
    ensures Lines(Joined(a) + text) == a + Lines(text)
    decreases |a|
  {
    hide IsLine, Lines;
    if a == [] {
      assert Joined(a) + text == text;
    } else {
      var rest := Joined(a[1..]) + text;
      assert a[0] + ['\n'] + rest == Joined(a) + text;
      LinesFirst(a[0], rest);
      LinesAfter(a[1..], text);
    }
  }

  lemma LinesJoined(lines: seq<string>)
    requires forall l | l in lines :: IsLine(l)
    ensures Lines(Joined(lines)) == lines
  {
    hide IsLine;
    LinesAfter(lines, "");
    assert Joined(lines) + "" == Joined(lines);
  }

  lemma {:induction false} JoinedAppend(a: seq<string>, b: seq<string>)
    ensures Joined(a + b) == Joined(a) + Joined(b)
    decreases |a|
  {
    if a == [] {
      assert a + b == b;
    } else {
      assert (a + b)[1..] == a[1..] + b;
      JoinedAppend(a[1..], b);
    }
  }

  // ---------------------------------------------------------------- numbers

  function Digit(n: nat): char
    requires n < 10
  {
    '0' + n as char
  }

  /** A number in decimal, as it is displayed. */
  function Decimal(n: nat): (s: string)
    ensures s != [] && forall c | c in s :: IsDigit(c)
  {
    if n < 10 then [Digit(n)] else Decimal(n / 10) + [Digit(n % 10)]
  }

  function DigitValue(c: char): nat
    requires IsDigit(c)
  {
    (c - '0') as nat
  }

  /** The number `s` writes in decimal; `None` when a character is no digit. */
  function FromDigits(s: string): Option<nat> {
    if s == [] then Some(0)
    else if !IsDigit(s[|s| - 1]) then None
    else
      match FromDigits(s[..|s| - 1])
      case None => None
      case Some(n) => Some(10 * n + DigitValue(s[|s| - 1]))
  }

  lemma {:induction false} DecimalReads(n: nat)
    ensures FromDigits(Decimal(n)) == Some(n)
  {
    var s := Decimal(n);
    if n < 10 {
      assert s[..|s| - 1] == [];
    } else {
      DecimalReads(n / 10);
      assert s[..|s| - 1] == Decimal(n / 10);
    }
  }

  /** A number is displayed without zeros before it. */
  lemma {:induction false} DecimalFirst(n: nat)
    ensures if n == 0 then Decimal(n) == "0" else Decimal(n)[0] != '0'
    decreases n
  {
    if n >= 10 {
      DecimalFirst(n / 10);
    }
  }

  const I64_MAX := 0x7fff_ffff_ffff_ffff

  /** `str::parse::<i64>`: a sign and digits, within 64 bits. */
  function ParseI64(s: string): (r: Option<int>) {
    if s == [] then None
    else
      var negative := s[0] == '-';
      var digits := if negative || s[0] == '+' then s[1..] else s;
      if digits == [] then None
      else
        match FromDigits(digits)
        case None => None
        case Some(n) =>
          if negative then (if n <= I64_MAX + 1 then Some(-(n as int)) else None)
          else if n <= I64_MAX then Some(n)
          else None
  }

  lemma ParseDecimal(n: nat)
    requires n <= I64_MAX
    ensures ParseI64(Decimal(n)) == Some(n)
  {
    DecimalReads(n);
    assert IsDigit(Decimal(n)[0]);
  }
}
