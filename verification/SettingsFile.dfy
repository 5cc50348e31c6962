/** `bridge.toml` as `config.rs` writes it: the settings, the quoting of a string, and
    the default file's text with the values put in its place. */
module SettingsFile {
  import opened Text
  import opened Wrappers
  import opened Hex

  type U16 = n: nat | n < 0x1_0000
  type U32 = n: nat | n < 0x1_0000_0000

  datatype Config = Config(
    port: U16,
    origins: seq<string>,
    databases: seq<string>,
    web: string,
    engine: Option<string>,
    threads: Option<U32>,
    hash: Option<U32>)

  const DEFAULT_WEB := "https://oschess.org"
  const DEFAULT := Config(39581, [], [], DEFAULT_WEB, None, None, None)

  // ---------------------------------------------------------------- strings

  /** Text that is quoted as it is. */
  predicate Literal(text: string) {
    '\'' !in text && forall c | c in text :: !IsControl(c)
  }

  function Escaped(c: char): string {
    if c == '"' then "\\\""
    else if c == '\\' then "\\\\"
    else if IsControl(c) then "\\u" + Hex4(c as nat)
    else [c]
  }

  function EscapedAll(text: string): string {
    if text == [] then [] else Escaped(text[0]) + EscapedAll(text[1..])
  }

  function Quoted(text: string): string {
    if Literal(text) then "'" + text + "'" else "\"" + EscapedAll(text) + "\""
  }

  /** A string is written as it is, in single quotes, exactly when it has none and no control
      character, which keeps paths readable. */
  lemma Readable(text: string)
    ensures Quoted(text) == "'" + text + "'" <==>
      '\'' !in text && forall c | c in text :: 32 <= c as int && !(127 <= c as int < 160)
    ensures Quoted(text) != "'" + text + "'" ==> Quoted(text)[..1] == "\""
  {
    if !Literal(text) {
      assert Quoted(text)[0] == '"';
    }
  }

  lemma {:induction false} EscapedAppend(a: string, b: string)
    ensures EscapedAll(a + b) == EscapedAll(a) + EscapedAll(b)
    decreases |a|
  {
    if a == [] {
      assert a + b == b;
    } else {
      assert (a + b)[1..] == a[1..] + b;
      EscapedAppend(a[1..], b);
    }
  }

  lemma NothingEscaped()
    ensures EscapedAll("") == ""
  {}

  lemma EscapedOne(c: char)
    ensures EscapedAll([c]) == Escaped(c)
  {}

  lemma OneMore(out: string, text: string, i: nat)
    requires i < |text| && out == "\"" + EscapedAll(text[..i])
    ensures out + Escaped(text[i]) == "\"" + EscapedAll(text[..i + 1])
  {
    hide EscapedAll, Escaped;
    assert text[..i + 1] == text[..i] + [text[i]];
    EscapedAppend(text[..i], [text[i]]);
    EscapedOne(text[i]);
  }

  /** `quote`. */
  method Quote(text: string) returns (out: string)
    ensures out == Quoted(text)
  {
    hide EscapedAll, Hex4;
    if Literal(text) {
      return "'" + text + "'";
    }
    NothingEscaped();
    out := "\"";
    for i := 0 to |text|
      invariant out == "\"" + EscapedAll(text[..i])
    {
      OneMore(out, text, i);
      if text[i] == '"' {
        out := out + "\\\"";
      } else if text[i] == '\\' {
        out := out + "\\\\";
      } else if IsControl(text[i]) {
        out := out + ("\\u" + Hex4(text[i] as nat));
      } else {
        out := out + [text[i]];
      }
    }
    assert text[..|text|] == text;
    out := out + ['"'];
  }

  // ---------------------------------------------------------------- the default file

  // A long line is written in two parts: the verifier takes a literal character by character,
  // and one of more than some forty costs too much.

  const N1 := "# oschess bridge settings. A new port, o" + "rigin or web site takes effect when the"
  const N2 := "# bridge restarts; the databases and the" + " engine take effect as soon as this"
  const N3 := "# file is saved. A file that cannot be r" + "ead leaves the settings read before."
  const N4 := "# Web origins allowed in addition to osc" + "hess.org, for local development,"
  const N5 := "# for example [\"http://localhost:5173\"]."
  const N6 := "# Databases in addition to those ChessBa" + "se shows: paths to .2cbh, .cbh or .pgn"
  const N7 := "# files, or to folders whose databases a" + "re all served, in every folder below"
  const N8 := "# them too,"
  const N9 := "# for example ['C:\\Users\\me\\Documents\\" + "ChessBase\\MyWork\\Games.2cbh']."
  const N10 := "# The oschess site the pairing link open" + "s, one of the allowed origins, for"
  const N11 := "# example \"https://staging.oschess.org\"."
  const N12 := "# The UCI engine the analysis board uses" + ". oschess's engine panel sets its"
  const N13 := "# threads and hash table for each analys" + "is; engine_threads and engine_hash (MB)"
  const N14 := "# are what it uses when oschess names no" + "ne, by default all processors but two"
  const N15 := "# and at most 512 MB."
  const N16 := "# For example engine " + "= 'C:\\Program Files\\" + "Stockfish\\stockfish.exe'"

  const NOTES0: seq<string> := [N1, N2, N3, ""]
  const PORT := "port = 39581"
  const NOTES1: seq<string> := ["", N4, N5]
  const ORIGINS := "origins = []"
  const NOTES2: seq<string> := ["", N6, N7, N8, N9]
  const DATABASES := "databases = []"
  const NOTES3: seq<string> := ["", N10, N11]
  const WEB := "# web = \"https://oschess.org\""
  const NOTES4: seq<string> := ["", N12, N13, N14, N15, N16]

  function Template(): string {
    Joined(NOTES0 + [PORT] + NOTES1 + [ORIGINS] + NOTES2 + [DATABASES] + NOTES3 + [WEB] + NOTES4)
  }

  // ---------------------------------------------------------------- the file written

  function ItemLine(item: string): string {
    "    " + Quoted(item) + ","
  }

  function ItemLines(items: seq<string>): seq<string> {
    if items == [] then [] else [ItemLine(items[0])] + ItemLines(items[1..])
  }

  function ListText(items: seq<string>): string {
    if items == [] then "[]" else "[\n" + Joined(ItemLines(items)) + "]"
  }

  function WebLine(web: string): string {
    if web == DEFAULT_WEB then WEB else "web = " + Quoted(web)
  }

  function EngineLines(c: Config): seq<string> {
    (if c.engine.Some? then ["engine = " + Quoted(c.engine.value)] else [])
    + (if c.threads.Some? then ["engine_threads = " + Decimal(c.threads.value)] else [])
    + (if c.hash.Some? then ["engine_hash = " + Decimal(c.hash.value)] else [])
  }

  function Replaced(c: Config): string {
    var t1 := Replace(Template(), PORT, "port = " + Decimal(c.port));
    var t2 := Replace(t1, ORIGINS, "origins = " + ListText(c.origins));
    var t3 := Replace(t2, DATABASES, "databases = " + ListText(c.databases));
    Replace(t3, WEB, WebLine(c.web))
  }

  /** `render`. */
  function Render(c: Config): string {
    Replaced(c) + Joined(EngineLines(c))
  }
}
