/** The JSON the bridge writes (`json.rs`), with a reader of RFC 8259 that gets every value
    back. */
module Json {
  import opened Hex
  import opened Text
  import opened Wrappers

  // ---------------------------------------------------------------- strings written

  predicate IsEscaped(c: char) {
    c < ' ' || c == '\U{2028}' || c == '\U{2029}'
  }

  function Written(c: char): string {
    if c == '"' then "\\\""
    else if c == '\\' then "\\\\"
    else if c == '\n' then "\\n"
    else if c == '\r' then "\\r"
    else if c == '\t' then "\\t"
    else if IsEscaped(c) then "\\u" + Hex4(c as nat)
    else [c]
  }

  function WrittenAll(s: string): string {
    if s == "" then "" else Written(s[0]) + WrittenAll(s[1..])
  }

  /** `string`. */
  function StringText(value: string): string {
    "\"" + WrittenAll(value) + "\""
  }

  lemma {:induction false} WrittenAppend(a: string, b: string)
    ensures WrittenAll(a + b) == WrittenAll(a) + WrittenAll(b)
    decreases |a|
  {
    if a == [] {
      assert a + b == b;
    } else {
      assert (a + b)[1..] == a[1..] + b;
      WrittenAppend(a[1..], b);
    }
  }

  lemma WrittenOne(c: char)
    ensures WrittenAll([c]) == Written(c) && WrittenAll("") == ""
  {}

  lemma OneMore(start: string, out: string, value: string, i: nat)
    requires i < |value| && out == start + "\"" + WrittenAll(value[..i])
    ensures out + Written(value[i]) == start + "\"" + WrittenAll(value[..i + 1])
  {
    hide WrittenAll, Written;
    assert value[..i + 1] == value[..i] + [value[i]];
    WrittenAppend(value[..i], [value[i]]);
    WrittenOne(value[i]);
  }

  /** `push_string`. */
  method PushString(start: string, value: string) returns (out: string)
    ensures out == start + StringText(value)
  {
    hide WrittenAll, Hex4;
    WrittenOne(' ');
    out := start + "\"";
    for i := 0 to |value|
      invariant out == start + "\"" + WrittenAll(value[..i])
    {
      OneMore(start, out, value, i);
      var c := value[i];
      match c
      case '"' => out := out + "\\\"";
      case '\\' => out := out + "\\\\";
      case '\n' => out := out + "\\n";
      case '\r' => out := out + "\\r";
      case '\t' => out := out + "\\t";
      case _ => out := out + (if IsEscaped(c) then "\\u" + Hex4(c as nat) else [c]);
    }
    assert value[..|value|] == value;
    out := out + "\"";
  }

  // ---------------------------------------------------------------- lengths

  /** The bytes of a character in UTF-8. */
  function Utf8Len(c: char): nat {
    if c < '\U{80}' then 1 else if c < '\U{800}' then 2 else if c < '\U{10000}' then 3 else 4
  }

  function Utf8(s: string): nat {
    if s == "" then 0 else Utf8Len(s[0]) + Utf8(s[1..])
  }

  function WrittenLen(c: char): nat {
    if c == '"' || c == '\\' || c == '\n' || c == '\r' || c == '\t' then 2
    else if IsEscaped(c) then 6
    else Utf8Len(c)
  }

  function WrittenLens(s: string): nat {
    if s == "" then 0 else WrittenLen(s[0]) + WrittenLens(s[1..])
  }

  /** `string_len`. */
  function StringLen(value: string): nat {
    2 + WrittenLens(value)
  }

  lemma {:induction false} Utf8Append(a: string, b: string)
    ensures Utf8(a + b) == Utf8(a) + Utf8(b)
    decreases |a|
  {
    if a == [] {
      assert a + b == b;
    } else {
      assert (a + b)[1..] == a[1..] + b;
      Utf8Append(a[1..], b);
    }
  }

  lemma {:induction false} Utf8Ascii(s: string)
    requires forall i :: 0 <= i < |s| ==> s[i] < '\U{80}'
    ensures Utf8(s) == |s|
  {
    if s != [] {
      Utf8Ascii(s[1..]);
    }
  }

  lemma HexAscii(n: nat)
    requires n < 0x1_0000
    ensures |Hex4(n)| == 4 && forall i :: 0 <= i < 4 ==> Hex4(n)[i] < '\U{80}'
  {}

  lemma WrittenUtf8(c: char)
    ensures Utf8(Written(c)) == WrittenLen(c)
  {
    hide Hex4, Utf8;
    if c == '"' || c == '\\' || c == '\n' || c == '\r' || c == '\t' {
      Utf8Ascii(Written(c));
    } else if IsEscaped(c) {
      HexAscii(c as nat);
      Utf8Ascii(Written(c));
    } else {
      Utf8One(c);
    }
  }

  lemma Utf8One(c: char)
    ensures Utf8([c]) == Utf8Len(c)
  {}

  lemma {:induction false} WrittenAllUtf8(s: string)
    ensures Utf8(WrittenAll(s)) == WrittenLens(s)
  {
    hide Written;
    if s != [] {
      WrittenUtf8(s[0]);
      WrittenAllUtf8(s[1..]);
      Utf8Append(Written(s[0]), WrittenAll(s[1..]));
    }
  }

  /** `string_len` tells how many bytes are written. */
  lemma LengthIsBytes(value: string)
    ensures StringLen(value) == Utf8(StringText(value))
  {
    hide WrittenAll, Utf8;
    WrittenAllUtf8(value);
    Utf8Append("\"" + WrittenAll(value), "\"");
    Utf8Append("\"", WrittenAll(value));
    Utf8One('"');
    assert ['"'] == "\"";
  }

  // ---------------------------------------------------------------- strings read

  function HexCode(s: string): Option<nat> {
    if |s| != 4 then None else FromHexDigits(s)
  }

  type Read = Option<(string, string)>

  function Prepend(text: string, r: Read): Read {
    match r
    case None => None
    case Some((s, rest)) => Some((text + s, rest))
  }

  /** A string from after its opening quote, and what follows it (section 7 of RFC 8259). */
  function Unquoted(s: string): (r: Read)
    ensures r.Some? ==> |r.value.1| < |s|
    decreases |s|
  {
    if s == "" || s[0] < ' ' then None
    else if s[0] == '"' then Some(("", s[1..]))
    else if s[0] != '\\' then Prepend([s[0]], Unquoted(s[1..]))
    else if |s| < 2 then None
    else
      match s[1]
      case '"' => Prepend("\"", Unquoted(s[2..]))
      case '\\' => Prepend("\\", Unquoted(s[2..]))
      case '/' => Prepend("/", Unquoted(s[2..]))
      case 'b' => Prepend("\U{8}", Unquoted(s[2..]))
      case 'f' => Prepend("\U{C}", Unquoted(s[2..]))
      case 'n' => Prepend("\n", Unquoted(s[2..]))
      case 'r' => Prepend("\r", Unquoted(s[2..]))
      case 't' => Prepend("\t", Unquoted(s[2..]))
      case 'u' => Unicode(s)
      case _ => None
  }

  /** A `\u` escape, or two of them for a character past the first plane. */
  function Unicode(s: string): (r: Read)
    requires |s| >= 2
    ensures r.Some? ==> |r.value.1| < |s|
    decreases |s|, 0
  {
    if |s| < 6 then None
    else
      match HexCode(s[2..6])
      case None => None
      case Some(code) =>
        if code < 0xd800 || 0xe000 <= code < 0x1_0000 then Prepend([code as char], Unquoted(s[6..]))
        else if code < 0xdc00 && |s| >= 12 && s[6] == '\\' && s[7] == 'u' then
          match HexCode(s[8..12])
          case None => None
          case Some(low) =>
            if 0xdc00 <= low < 0xe000 then
              Prepend([(0x1_0000 + (code - 0xd800) * 0x400 + (low - 0xdc00)) as char], Unquoted(s[12..]))
            else None
        else None
  }

  lemma HexReads(n: nat)
    requires n < 0x1_0000
    ensures HexCode(Hex4(n)) == Some(n)
  {
    hide HexDigit, HexValue, FromHexDigits;
    Nibbles(n);
    FourHexDigits(n / 0x1000, n / 0x100 % 16, n / 0x10 % 16, n % 16);
  }

  lemma UnicodeReads(c: char, rest: string)
    requires IsEscaped(c)
    ensures Unicode("\\u" + Hex4(c as nat) + rest) == Prepend([c], Unquoted(rest))
  {
    hide Hex4, HexCode, Unquoted;
    HexAscii(c as nat);
    HexReads(c as nat);
    var s := "\\u" + Hex4(c as nat) + rest;
    assert s[2..6] == Hex4(c as nat) && s[6..] == rest;
  }

  lemma CharReads(c: char, rest: string)
    ensures Unquoted(Written(c) + rest) == Prepend([c], Unquoted(rest))
  {
    hide Hex4, Unicode;
    var s := Written(c) + rest;
    if c == '"' || c == '\\' || c == '\n' || c == '\r' || c == '\t' {
      assert s[2..] == rest;
    } else if IsEscaped(c) {
      UnicodeReads(c, rest);
      assert s[0] == '\\' && s[1] == 'u';
    } else {
      assert s[1..] == rest;
    }
  }

  lemma {:induction false} StringReads(value: string, rest: string)
    ensures Unquoted(WrittenAll(value) + ("\"" + rest)) == Some((value, rest))
    decreases |value|
  {
    hide Written, Unquoted;
    if value == "" {
      QuoteEnds(rest);
      assert WrittenAll(value) + ("\"" + rest) == "\"" + rest;
    } else {
      var more := WrittenAll(value[1..]) + ("\"" + rest);
      assert WrittenAll(value) + ("\"" + rest) == Written(value[0]) + more;
      CharReads(value[0], more);
      StringReads(value[1..], rest);
      assert [value[0]] + value[1..] == value;
    }
  }

  lemma QuoteEnds(rest: string)
    ensures Unquoted("\"" + rest) == Some(("", rest))
  {
    assert ("\"" + rest)[1..] == rest;
  }
}
