/** The bytes of the JSON written, in UTF-8 (RFC 3629), and what is never among them. */
module JsonBytes {
  import Hex
  import opened Json
  import opened Wrappers

  type Byte = n: nat | n < 0x100

  /** A character's bytes. */
  function Encoded(c: char): seq<Byte> {
    var n := c as nat;
    if n < 0x80 then [n]
    else if n < 0x800 then [0xc0 + n / 0x40, 0x80 + n % 0x40]
    else if n < 0x1_0000 then [0xe0 + n / 0x1000, 0x80 + n / 0x40 % 0x40, 0x80 + n % 0x40]
    else [0xf0 + n / 0x4_0000, 0x80 + n / 0x1000 % 0x40, 0x80 + n / 0x40 % 0x40, 0x80 + n % 0x40]
  }

  function EncodedAll(s: string): seq<Byte> {
    if s == "" then [] else Encoded(s[0]) + EncodedAll(s[1..])
  }

  // ---------------------------------------------------------------- a reader of section 4

  /** How many bytes follow the first. */
  function Follow(first: Byte): Option<nat> {
    if first < 0x80 then Some(0)
    else if 0xc0 <= first < 0xe0 then Some(1)
    else if 0xe0 <= first < 0xf0 then Some(2)
    else if 0xf0 <= first < 0xf8 then Some(3)
    else None
  }

  /** The bits of the first byte of so many. */
  function Lead(first: Byte, follow: nat): int {
    if follow == 0 then first else if follow == 1 then first - 0xc0 else if follow == 2 then first - 0xe0
    else first - 0xf0
  }

  /** Six bits more from each byte that follows. */
  function Bits(lead: int, tail: seq<Byte>): int {
    if tail == [] then lead else Bits(lead, tail[..|tail| - 1]) * 0x40 + tail[|tail| - 1] - 0x80
  }

  /** The least number that needs so many bytes: no longer form is read. */
  function Least(follow: nat): nat {
    if follow == 0 then 0 else if follow == 1 then 0x80 else if follow == 2 then 0x800 else 0x1_0000
  }

  function Decoded(b: seq<Byte>): Option<string> {
    if b == [] then Some("")
    else
      match Follow(b[0])
      case None => None
      case Some(follow) =>
        if |b| <= follow || exists i :: 1 <= i <= follow && !(0x80 <= b[i] < 0xc0) then None
        else
          var n := Bits(Lead(b[0], follow), b[1..1 + follow]);
          if !(Least(follow) <= n < 0x11_0000) || 0xd800 <= n < 0xe000 then None
          else
            match Decoded(b[1 + follow..])
            case None => None
            case Some(s) => Some([n as char] + s)
  }

  lemma BitsOne(lead: int, a: Byte)
    ensures Bits(lead, [a]) == lead * 0x40 + a - 0x80
  {
    assert [a][..0] == [];
  }

  lemma BitsTwo(lead: int, a: Byte, b: Byte)
    ensures Bits(lead, [a, b]) == (lead * 0x40 + a - 0x80) * 0x40 + b - 0x80
  {
    assert [a, b][..1] == [a];
    BitsOne(lead, a);
  }

  lemma BitsThree(lead: int, a: Byte, b: Byte, c: Byte)
    ensures Bits(lead, [a, b, c]) == ((lead * 0x40 + a - 0x80) * 0x40 + b - 0x80) * 0x40 + c - 0x80
  {
    assert [a, b, c][..2] == [a, b];
    BitsTwo(lead, a, b);
  }

  /** A character's bytes are read as it, whatever follows. */
  lemma OneReads(c: char)
    ensures var (e, n) := (Encoded(c), c as nat);
      && e != [] && Follow(e[0]) == Some(|e| - 1) && Least(|e| - 1) <= n
      && (forall i :: 1 <= i < |e| ==> 0x80 <= e[i] < 0xc0)
      && Bits(Lead(e[0], |e| - 1), e[1..]) == n
  {
    hide Bits;
    var (e, n) := (Encoded(c), c as nat);
    if n < 0x80 {
      assert e[1..] == [];
      BitsNone(n);
    } else if n < 0x800 {
      assert e[1..] == [e[1]];
      BitsOne(n / 0x40, e[1]);
    } else if n < 0x1_0000 {
      assert e[1..] == [e[1], e[2]];
      BitsTwo(n / 0x1000, e[1], e[2]);
      assert n / 0x1000 == n / 0x40 / 0x40;
    } else {
      assert e[1..] == [e[1], e[2], e[3]];
      BitsThree(n / 0x4_0000, e[1], e[2], e[3]);
      assert n / 0x1000 == n / 0x40 / 0x40 && n / 0x4_0000 == n / 0x1000 / 0x40;
    }
  }

  lemma BitsNone(lead: int)
    ensures Bits(lead, []) == lead
  {}

  /** The bytes of every text are read as that text. */
  lemma {:induction false} BytesRead(s: string)
    ensures Decoded(EncodedAll(s)) == Some(s)
  {
    hide Encoded, Bits, Lead, Least, Follow;
    if s != "" {
      OneReads(s[0]);
      BytesRead(s[1..]);
      var (e, b) := (Encoded(s[0]), EncodedAll(s));
      assert b == e + EncodedAll(s[1..]);
      assert b[1..|e|] == e[1..] && b[|e|..] == EncodedAll(s[1..]) && b[0] == e[0];
      assert forall i :: 1 <= i < |e| ==> b[i] == e[i];
      assert s == [s[0]] + s[1..];
    }
  }

  // ---------------------------------------------------------------- the length told

  lemma LenOne(c: char)
    ensures |Encoded(c)| == Utf8Len(c)
  {}

  lemma {:induction false} BytesCount(s: string)
    ensures |EncodedAll(s)| == Utf8(s)
  {
    hide Encoded, Utf8Len;
    if s != "" {
      LenOne(s[0]);
      BytesCount(s[1..]);
    }
  }

  /** `string_len` tells how many bytes the string written has. */
  lemma LengthWritten(value: string)
    ensures StringLen(value) == |EncodedAll(StringText(value))|
  {
    hide StringLen, StringText, EncodedAll;
    LengthIsBytes(value);
    BytesCount(StringText(value));
  }

  // ---------------------------------------------------------------- what is escaped

  /** What no string holds as it is: controls, and the two that end a line of a script. */
  predicate IsRaw(c: char) {
    c as int < 0x20 || c as int == 0x2028 || c as int == 0x2029
  }

  lemma HexPlain(n: nat, c: char)
    requires n < 0x1_0000 && c in "\\u" + Hex.Hex4(n)
    ensures !IsRaw(c)
  {}

  /** No string written holds any of them. */
  lemma {:induction false} NothingRaw(value: string, c: char)
    requires c in StringText(value)
    ensures !IsRaw(c)
    decreases |value|
  {
    hide Hex.Hex4;
    if c != '"' {
      assert c in WrittenAll(value);
      if c in Written(value[0]) {
        if IsEscaped(value[0]) && c in "\\u" + Hex.Hex4(value[0] as nat) {
          HexPlain(value[0] as nat, c);
        }
      } else {
        assert c in StringText(value[1..]);
        NothingRaw(value[1..], c);
      }
    }
  }

  lemma {:induction false} WrittenPlain(value: string)
    requires forall c :: c in value ==> !IsRaw(c) && c != '"' && c != '\\'
    ensures WrittenAll(value) == value
  {
    if value != "" {
      WrittenPlain(value[1..]);
      assert value[0] in value && !IsRaw(value[0]);
      assert Written(value[0]) == [value[0]];
    }
  }

  /** Text that holds none of them, and nothing that is quoted, is written as it is. */
  lemma PlainStays(value: string)
    requires forall c :: c in value ==> !IsRaw(c) && c != '"' && c != '\\'
    ensures StringText(value) == "\"" + value + "\""
  {
    WrittenPlain(value);
  }

  /** The five that have an escape of their own are written with it. */
  lemma ShortEscapes()
    ensures StringText("\"\\\n\r\t") == "\"\\\"\\\\\\n\\r\\t\""
  {
    assert WrittenAll("\t") == "\\t";
    assert WrittenAll("\r\t") == "\\r\\t";
    assert WrittenAll("\n\r\t") == "\\n\\r\\t";
    assert WrittenAll("\\\n\r\t") == "\\\\\\n\\r\\t";
  }
}
