/** The three lexers of `config.rs` over what `quote` writes: they agree on where every
    quoted string ends, and it reads as itself. */
module SettingsLexers {
  import opened Text
  import opened Wrappers
  import opened Hex
  import opened SettingsFile
  import opened SettingsLines
  import opened SettingsParse

  // ---------------------------------------------------------------- one escaped character

  lemma Hex4Reads(n: nat)
    requires n < 0x1_0000
    ensures FromHex(Hex4(n)) == Some(n)
    ensures forall c | c in Hex4(n) :: c != '"' && c != '\\' && c != '\'' && c != '\n'
  {
    hide HexDigit, HexValue, FromHexDigits;
    Nibbles(n);
    HexDigitPlain(n / 0x1000);
    HexDigitPlain(n / 0x100 % 16);
    HexDigitPlain(n / 0x10 % 16);
    HexDigitPlain(n % 16);
    FourHexDigits(n / 0x1000, n / 0x100 % 16, n / 0x10 % 16, n % 16);
  }

  /** The escape of a control character, by its characters. */
  lemma UnicodeEscape(c: char, rest: string)
    requires IsControl(c)
    ensures var e := Escaped(c) + rest;
      && |Escaped(c)| == 6 && e[0] == '\\' && e[1] == 'u' && e[2..6] == Hex4(c as nat) && e[6..] == rest
      && forall k :: 2 <= k < 6 ==> e[k] != '"' && e[k] != '\\'
  {
    var e := Escaped(c) + rest;
    var hex := Hex4(c as nat);
    Hex4Reads(c as nat);
    assert e == "\\u" + hex + rest;
    assert forall k :: 2 <= k < 6 ==> e[k] == hex[k - 2] && hex[k - 2] in hex;
  }

  lemma CommentPlain(s: string, n: nat, quote: Option<char>)
    requires n <= |s| && quote.Some?
    requires forall k :: 0 <= k < n ==> s[k] != quote.value && s[k] != '\\'
    ensures CommentAt(s, quote, false) == n + CommentAt(s[n..], quote, false)
  {
    if n == 0 {
      assert s[0..] == s;
    } else {
      CommentPlain(s[1..], n - 1, quote);
      assert s[1..][n - 1..] == s[n..];
    }
  }

  lemma ClosePlain(s: string, n: nat, quote: Option<char>)
    requires n <= |s| && quote.Some?
    requires forall k :: 0 <= k < n ==> s[k] != quote.value && (quote == Some('"') ==> s[k] != '\\')
    ensures HasClose(s, quote) == HasClose(s[n..], quote)
  {
    if n == 0 {
      assert s[0..] == s;
    } else {
      ClosePlain(s[1..], n - 1, quote);
      assert s[1..][n - 1..] == s[n..];
    }
  }

  /** Within double quotes each lexer takes an escaped character whole. */
  lemma CommentEscaped(c: char, rest: string)
    ensures CommentAt(Escaped(c) + rest, Some('"'), false) == |Escaped(c)| + CommentAt(rest, Some('"'), false)
  {
    var e := Escaped(c) + rest;
    if c == '"' || c == '\\' {
      assert e[1..][1..] == rest;
    } else if IsControl(c) {
      UnicodeEscape(c, rest);
      CommentPlain(e[2..], 4, Some('"'));
      assert e[2..][4..] == rest;
      assert e[1..][1..] == e[2..];
    } else {
      assert e[1..] == rest;
    }
  }

  lemma CloseEscaped(c: char, rest: string)
    ensures HasClose(Escaped(c) + rest, Some('"')) == HasClose(rest, Some('"'))
  {
    var e := Escaped(c) + rest;
    if c == '"' || c == '\\' {
      assert e[2..] == rest;
    } else if IsControl(c) {
      UnicodeEscape(c, rest);
      ClosePlain(e[2..], 4, Some('"'));
      assert e[2..][4..] == rest;
    } else {
      assert e[1..] == rest;
    }
  }

  lemma UnescapeEscaped(c: char, rest: string)
    ensures Unescaped(Escaped(c) + rest) == Prepend([c], Unescaped(rest))
  {
    var e := Escaped(c) + rest;
    if c == '"' || c == '\\' {
      assert e[1] == c && e[2..] == rest;
    } else if IsControl(c) {
      UnicodeEscape(c, rest);
      Hex4Reads(c as nat);
      assert Min(6, |e|) == 6;
    } else {
      assert e[1..] == rest;
    }
  }

  // ---------------------------------------------------------------- a quoted string

  lemma {:induction false} EscapedLexes(s: string, rest: string)
    ensures var e := EscapedAll(s) + "\"" + rest;
      && CommentAt(e, Some('"'), false) == |EscapedAll(s)| + 1 + CommentAt(rest, None, false)
      && HasClose(e, Some('"')) == HasClose(rest, None)
      && Unescaped(e) == Ok((s, rest))
    decreases |s|
  {
    var e := EscapedAll(s) + "\"" + rest;
    if s == [] {
      assert e[0] == '"' && e[1..] == rest;
    } else {
      var e' := EscapedAll(s[1..]) + "\"" + rest;
      assert e == Escaped(s[0]) + e';
      EscapedLexes(s[1..], rest);
      CommentEscaped(s[0], e');
      CloseEscaped(s[0], e');
      UnescapeEscaped(s[0], e');
      assert [s[0]] + s[1..] == s;
    }
  }

  lemma LiteralLexes(s: string, rest: string)
    requires '\'' !in s
    ensures var e := s + "'" + rest;
      && CommentAt(e, Some('\''), false) == |s| + 1 + CommentAt(rest, None, false)
      && HasClose(e, Some('\'')) == HasClose(rest, None)
  {
    var e := s + "'" + rest;
    assert e[|s|..][1..] == rest && e[|s|] == '\'';
    CommentLiteral(e, |s|);
    ClosePlain(e, |s|, Some('\''));
  }

  lemma {:induction false} CommentLiteral(s: string, n: nat)
    requires n <= |s| && forall k :: 0 <= k < n ==> s[k] != '\''
    ensures CommentAt(s, Some('\''), false) == n + CommentAt(s[n..], Some('\''), false)
    decreases n
  {
    if n == 0 {
      assert s[0..] == s;
    } else {
      CommentLiteral(s[1..], n - 1);
      assert s[1..][n - 1..] == s[n..];
    }
  }

  lemma LiteralQuoted(s: string, rest: string)
    requires Literal(s)
    ensures var q := Quoted(s) + rest;
      && CommentAt(q, None, false) == |Quoted(s)| + CommentAt(rest, None, false)
      && HasClose(q, None) == HasClose(rest, None)
      && ReadString(q) == Ok((s, rest))
  {
    hide Find;
    var body := s + "'" + rest;
    var q := Quoted(s) + rest;
    LiteralLexes(s, rest);
    assert q == "'" + body;
    assert q[1..] == body && q[0] == '\'';
    assert s + ['\''] + rest == body;
    FindAt(s, '\'', rest);
    assert body[..|s|] == s && body[|s| + 1..] == rest;
  }

  lemma EscapedQuoted(s: string, rest: string)
    requires !Literal(s)
    ensures var q := Quoted(s) + rest;
      && CommentAt(q, None, false) == |Quoted(s)| + CommentAt(rest, None, false)
      && HasClose(q, None) == HasClose(rest, None)
      && ReadString(q) == Ok((s, rest))
  {
    hide Unescaped, EscapedAll, Literal;
    var e := EscapedAll(s) + "\"" + rest;
    var q := Quoted(s) + rest;
    EscapedLexes(s, rest);
    assert q == "\"" + e;
    assert q[1..] == e && q[0] == '"';
  }

  /** The three lexers agree on where a quoted string ends, and it reads as itself. */
  lemma QuotedLexes(s: string, rest: string)
    ensures var q := Quoted(s) + rest;
      && CommentAt(q, None, false) == |Quoted(s)| + CommentAt(rest, None, false)
      && HasClose(q, None) == HasClose(rest, None)
      && ReadString(q) == Ok((s, rest))
  {
    hide *;
    if Literal(s) {
      LiteralQuoted(s, rest);
    } else {
      EscapedQuoted(s, rest);
    }
  }
}
