/** The quoted strings of `bridge.toml` as a grammar: what may be written, and what it means.
    What `parse_string` reads is exactly what the grammar has, and it reads it as what it means. */
module SettingsStrings {
  import opened Text
  import opened Wrappers
  import opened Hex
  import opened SettingsParse

  // ---------------------------------------------------------------- the grammar

  /** A hexadecimal digit of either case. */
  datatype HexChar = HexChar(n: nat, upper: bool)

  datatype Piece =
    | Bare(c: char)
    | Escape(c: char)                             // a backslash and one character
    | Code(plus: bool, digits: seq<HexChar>)      // \u and four characters, the first perhaps a plus

  datatype Written =
    | Raw(body: string)                           // between single quotes
    | Basic(pieces: seq<Piece>)                   // between double quotes

  predicate IsHexChar(d: HexChar) {
    d.n < 16
  }

  function SpellHexChar(d: HexChar): char
    requires IsHexChar(d)
  {
    if d.n < 10 then '0' + d.n as char
    else if d.upper then 'A' + (d.n - 10) as char
    else 'a' + (d.n - 10) as char
  }

  predicate AllHexChars(ds: seq<HexChar>) {
    forall d <- ds :: IsHexChar(d)
  }

  function SpellHex(ds: seq<HexChar>): (s: string)
    requires AllHexChars(ds)
    ensures |s| == |ds|
  {
    if ds == [] then [] else SpellHex(ds[..|ds| - 1]) + [SpellHexChar(ds[|ds| - 1])]
  }

  function HexNumber(ds: seq<HexChar>): nat {
    if ds == [] then 0 else 16 * HexNumber(ds[..|ds| - 1]) + ds[|ds| - 1].n
  }

  /** A Unicode scalar: no half of a surrogate pair. */
  predicate IsScalar(n: nat) {
    n < 0xd800 || 0xe000 <= n < 0x11_0000
  }

  predicate IsPiece(p: Piece) {
    match p
    case Bare(c) => c != '"' && c != '\\'
    case Escape(c) => c in {'"', '\\', 'n', 't'}
    case Code(plus, ds) =>
      && ds != [] && (if plus then |ds| == 3 else |ds| == 4) && AllHexChars(ds) && IsScalar(HexNumber(ds))
  }

  predicate AllPieces(ps: seq<Piece>) {
    forall p <- ps :: IsPiece(p)
  }

  predicate IsWritten(w: Written) {
    match w
    case Raw(body) => '\'' !in body
    case Basic(pieces) => AllPieces(pieces)
  }

  function SpellPiece(p: Piece): string
    requires IsPiece(p)
  {
    match p
    case Bare(c) => [c]
    case Escape(c) => ['\\', c]
    case Code(plus, ds) => "\\u" + (if plus then "+" else "") + SpellHex(ds)
  }

  function SpellPieces(ps: seq<Piece>): string
    requires AllPieces(ps)
  {
    if ps == [] then [] else SpellPiece(ps[0]) + SpellPieces(ps[1..])
  }

  function Spell(w: Written): (s: string)
    requires IsWritten(w)
    ensures s != [] && s[0] in {'\'', '"'} && s[|s| - 1] == s[0]
  {
    match w
    case Raw(body) => "'" + body + "'"
    case Basic(pieces) => "\"" + SpellPieces(pieces) + "\""
  }

  function PieceMeans(p: Piece): char
    requires IsPiece(p)
  {
    match p
    case Bare(c) => c
    case Escape(c) => if c == 'n' then '\n' else if c == 't' then '\t' else c
    case Code(_, ds) => HexNumber(ds) as char
  }

  function PiecesMean(ps: seq<Piece>): string
    requires AllPieces(ps)
  {
    if ps == [] then [] else [PieceMeans(ps[0])] + PiecesMean(ps[1..])
  }

  function Means(w: Written): string
    requires IsWritten(w)
  {
    match w
    case Raw(body) => body
    case Basic(pieces) => PiecesMean(pieces)
  }

  // ---------------------------------------------------------------- hexadecimal digits

  lemma HexCharReads(d: HexChar)
    requires IsHexChar(d)
    ensures HexValue(SpellHexChar(d)) == Some(d.n) && SpellHexChar(d) != '+'
  {}

  lemma {:induction false} HexReads(ds: seq<HexChar>)
    requires AllHexChars(ds)
    ensures FromHexDigits(SpellHex(ds)) == Some(HexNumber(ds))
  {
    hide HexValue, SpellHexChar;
    if ds != [] {
      var n := |ds| - 1;
      HexReads(ds[..n]);
      HexCharReads(ds[n]);
      HexDigitsOne(SpellHex(ds[..n]), SpellHexChar(ds[n]), HexNumber(ds[..n]), ds[n].n);
    }
  }

  lemma {:induction false} ReadsHex(s: string) returns (ds: seq<HexChar>)
    requires FromHexDigits(s).Some?
    ensures AllHexChars(ds) && SpellHex(ds) == s && FromHexDigits(s) == Some(HexNumber(ds))
  {
    ds := [];
    if s != [] {
      var n := |s| - 1;
      ds := ReadsHex(s[..n]);
      var d := HexChar(HexValue(s[n]).value, 'A' <= s[n] <= 'F');
      assert SpellHexChar(d) == s[n];
      ds := ds + [d];
      assert ds[..|ds| - 1] + [d] == ds && s == s[..n] + [s[n]];
    }
  }

  lemma CodeReads(plus: bool, ds: seq<HexChar>)
    requires ds != [] && AllHexChars(ds)
    ensures FromHex((if plus then "+" else "") + SpellHex(ds)) == Some(HexNumber(ds))
  {
    HexReads(ds);
    var s := SpellHex(ds);
    if plus {
      assert ("+" + s)[1..] == s;
    } else {
      assert "" + s == s;
      NoPlus(ds);
    }
  }

  lemma {:induction false} NoPlus(ds: seq<HexChar>)
    requires ds != [] && AllHexChars(ds)
    ensures SpellHex(ds)[0] != '+'
  {
    if |ds| == 1 {
      assert SpellHex(ds) == [SpellHexChar(ds[0])];
    } else {
      NoPlus(ds[..|ds| - 1]);
    }
  }

  lemma ReadsCode(s: string) returns (plus: bool, ds: seq<HexChar>)
    requires FromHex(s).Some?
    ensures ds != [] && AllHexChars(ds) && s == (if plus then "+" else "") + SpellHex(ds)
    ensures FromHex(s) == Some(HexNumber(ds))
  {
    plus := s[0] == '+';
    ds := ReadsHex(if plus then s[1..] else s);
    if plus {
      assert s == "+" + s[1..];
    } else {
      assert s == "" + s;
    }
  }

  // ---------------------------------------------------------------- strings

  lemma PieceReads(p: Piece, rest: string)
    requires IsPiece(p)
    ensures Unescaped(SpellPiece(p) + rest) == Prepend([PieceMeans(p)], Unescaped(rest))
  {
    var body := SpellPiece(p) + rest;
    match p
    case Bare(c) =>
      assert body[1..] == rest;
    case Escape(c) =>
      assert body[2..] == rest;
    case Code(plus, ds) =>
      var hex := (if plus then "+" else "") + SpellHex(ds);
      assert |hex| == 4 && body == "\\u" + hex + rest;
      assert body[2..6] == hex && body[6..] == rest;
      CodeReads(plus, ds);
  }

  lemma {:induction false} PiecesRead(ps: seq<Piece>, after: string)
    requires AllPieces(ps)
    ensures Unescaped(SpellPieces(ps) + "\"" + after) == Ok((PiecesMean(ps), after))
    decreases |ps|
  {
    hide Unescaped, SpellPiece, PieceMeans, IsPiece;
    if ps == [] {
      QuoteEnds(after);
      assert SpellPieces(ps) + "\"" + after == "\"" + after;
    } else {
      var rest := SpellPieces(ps[1..]) + "\"" + after;
      PieceReads(ps[0], rest);
      PiecesRead(ps[1..], after);
      assert SpellPieces(ps) + "\"" + after == SpellPiece(ps[0]) + rest;
    }
  }

  lemma QuoteEnds(after: string)
    ensures Unescaped("\"" + after) == Ok(("", after))
  {
    assert ("\"" + after)[1..] == after;
  }

  lemma RawReads(body: string, after: string)
    requires '\'' !in body
    ensures ReadString("'" + body + "'" + after) == Ok((body, after))
  {
    hide Find, Unescaped;
    var rest := body + ['\''] + after;
    assert ("'" + body + "'" + after)[1..] == rest;
    FindAt(body, '\'', after);
    assert rest[..|body|] == body && rest[|body| + 1..] == after;
  }

  /** What the grammar has is read as what it means, with what follows it. */
  lemma WrittenReads(w: Written, after: string)
    requires IsWritten(w)
    ensures ReadString(Spell(w) + after) == Ok((Means(w), after))
  {
    hide Unescaped, SpellPieces, PiecesMean;
    match w
    case Raw(body) =>
      RawReads(body, after);
    case Basic(pieces) =>
      var text := "\"" + SpellPieces(pieces) + "\"" + after;
      assert text[1..] == SpellPieces(pieces) + "\"" + after;
      PiecesRead(pieces, after);
  }

  lemma ReadsPiece(body: string) returns (p: Piece)
    requires Unescaped(body).Ok? && body[0] != '"'
    ensures IsPiece(p) && SpellPiece(p) <= body
  {
    if body[0] != '\\' {
      p := Bare(body[0]);
    } else if body[1] != 'u' {
      p := Escape(body[1]);
    } else {
      var end := Min(6, |body|);
      if end < 6 {
        NothingAfter(body[end..]);
      }
      var plus, ds := ReadsCode(body[2..6]);
      p := Code(plus, ds);
      assert SpellPiece(p) == body[..6];
    }
  }

  lemma NothingAfter(s: string)
    ensures s == [] ==> Unescaped(s).Err?
  {}

  lemma {:induction false} ReadsPieces(body: string) returns (ps: seq<Piece>)
    requires Unescaped(body).Ok?
    ensures AllPieces(ps) && body == SpellPieces(ps) + "\"" + Unescaped(body).value.1
    ensures Unescaped(body).value.0 == PiecesMean(ps)
    decreases |body|
  {
    hide SpellPiece, PieceMeans, IsPiece;
    ps := [];
    if body[0] != '"' {
      var p := ReadsPiece(body);
      var rest := body[|SpellPiece(p)|..];
      assert body == SpellPiece(p) + rest;
      PieceReads(p, rest);
      PieceLonger(p);
      ps := ReadsPieces(rest);
      ps := [p] + ps;
      assert ps[1..] == ps[1..];
    }
  }

  lemma PieceLonger(p: Piece)
    requires IsPiece(p)
    ensures SpellPiece(p) != []
  {}

  /** What is read is in the grammar. */
  lemma ReadsWritten(text: string) returns (w: Written)
    requires ReadString(text).Ok?
    ensures IsWritten(w) && text == Spell(w) + ReadString(text).value.1 && ReadString(text).value.0 == Means(w)
  {
    hide Unescaped;
    if text[0] == '\'' {
      var body := text[1..];
      var end := Find(body, '\'');
      w := Raw(body[..end]);
    } else {
      var ps := ReadsPieces(text[1..]);
      w := Basic(ps);
    }
  }

  /** A string is read exactly when the grammar has it, as what it means. */
  lemma StringGrammar(text: string, s: string, after: string)
    ensures ReadString(text) == Ok((s, after)) <==>
            exists w :: IsWritten(w) && text == Spell(w) + after && Means(w) == s
  {
    hide IsWritten, ReadString, Spell, Means;
    if ReadString(text) == Ok((s, after)) {
      var w := ReadsWritten(text);
    }
    forall w | IsWritten(w) && text == Spell(w) + after && Means(w) == s
      ensures ReadString(text) == Ok((s, after))
    {
      WrittenReads(w, after);
    }
  }
}
