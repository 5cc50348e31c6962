/** What `render` writes `parse` reads back: every line is read as the line it was
    written as, and each gives its setting back, across arrays of many lines. */
module SettingsRoundTrip {
  import opened Text
  import opened Wrappers
  import opened Hex
  import opened SettingsFile
  import opened SettingsLines
  import opened SettingsParse
  import opened SettingsLexers

  // ---------------------------------------------------------------- lines stay lines

  predicate Unbroken(s: string) {
    forall i :: 0 <= i < |s| ==> s[i] != '\n' && s[i] != '\r'
  }

  lemma EscapedUnbroken(c: char)
    ensures Unbroken(Escaped(c)) && Escaped(c) != []
  {
    if IsControl(c) {
      HexUnbroken(c as nat);
    }
  }

  lemma HexUnbroken(n: nat)
    requires n < 0x1_0000
    ensures Unbroken(Hex4(n))
  {}

  lemma {:induction false} EscapedAllUnbroken(s: string)
    ensures Unbroken(EscapedAll(s))
  {
    hide Escaped;
    if s != [] {
      EscapedUnbroken(s[0]);
      EscapedAllUnbroken(s[1..]);
    }
  }

  lemma QuotedUnbroken(s: string)
    ensures Unbroken(Quoted(s)) && |Quoted(s)| >= 2
    ensures var q := Quoted(s);
      (q[0] == '\'' || q[0] == '"') && q[|q| - 1] == q[0]
  {
    if Literal(s) {
      forall i | 0 <= i < |s| ensures s[i] != '\n' && s[i] != '\r' {
        assert s[i] in s;
      }
    } else {
      EscapedAllUnbroken(s);
    }
  }

  lemma UnbrokenLine(s: string)
    requires Unbroken(s)
    ensures IsLine(s)
  {}

  lemma DecimalUnbroken(n: nat)
    ensures Unbroken(Decimal(n)) && Decimal(n) != []
    ensures forall i :: 0 <= i < |Decimal(n)| ==> IsDigit(Decimal(n)[i])
  {
    var d := Decimal(n);
    forall i | 0 <= i < |d| ensures IsDigit(d[i]) {
      assert d[i] in d;
    }
  }

  lemma {:induction false} ItemLinesAreLines(items: seq<string>)
    ensures forall l | l in ItemLines(items) :: IsLine(l)
  {
    hide Quoted;
    if items != [] {
      QuotedUnbroken(items[0]);
      UnbrokenLine(ItemLine(items[0]));
      ItemLinesAreLines(items[1..]);
    }
  }

  lemma ListLinesAreLines(key: string, items: seq<string>)
    requires Unbroken(key)
    ensures forall l | l in ListLines(key, items) :: IsLine(l)
  {
    hide Quoted, IsLine, ItemLines;
    ItemLinesAreLines(items);
    UnbrokenLine(key + " = []");
    UnbrokenLine(key + " = [");
    UnbrokenLine("]");
  }

  lemma EngineLinesAreLines(c: Config)
    ensures forall l | l in EngineLines(c) :: IsLine(l)
  {
    hide Quoted, IsLine, Decimal;
    if c.engine.Some? {
      QuotedUnbroken(c.engine.value);
      UnbrokenLine("engine = " + Quoted(c.engine.value));
    }
    if c.threads.Some? {
      DecimalUnbroken(c.threads.value);
      UnbrokenLine("engine_threads = " + Decimal(c.threads.value));
    }
    if c.hash.Some? {
      DecimalUnbroken(c.hash.value);
      UnbrokenLine("engine_hash = " + Decimal(c.hash.value));
    }
  }

  lemma WebLineIsLine(web: string)
    ensures IsLine(WebLine(web))
  {
    hide Quoted, IsLine;
    QuotedUnbroken(web);
    UnbrokenLine("web = " + Quoted(web));
    UnbrokenLine(WEB);
  }

  lemma NotesAreLines()
    ensures forall l | l in NOTES0 || l in NOTES1 || l in NOTES2 || l in NOTES3 || l in NOTES4 ::
      IsLine(l) && (l != [] ==> l[0] == '#')
  {
    hide IsLine, Occurs;
    AllNotes();
  }

  lemma RenderedLinesAreLines(c: Config)
    ensures forall l | l in RenderedLines(c) :: IsLine(l)
  {
    hide IsLine, Decimal, ListLines, WebLine, EngineLines;
    NotesAreLines();
    DecimalUnbroken(c.port);
    UnbrokenLine("port = " + Decimal(c.port));
    ListLinesAreLines("origins", c.origins);
    ListLinesAreLines("databases", c.databases);
    WebLineIsLine(c.web);
    EngineLinesAreLines(c);
  }

  // ---------------------------------------------------------------- one line

  /** Text outside strings that starts no string and no comment. */
  predicate Bare(s: string) {
    forall i :: 0 <= i < |s| ==> s[i] != '"' && s[i] != '\'' && s[i] != '#'
  }

  lemma {:induction false} CommentBare(p: string, rest: string)
    requires Bare(p)
    ensures CommentAt(p + rest, None, false) == |p| + CommentAt(rest, None, false)
  {
    if p == [] {
      assert p + rest == rest;
    } else {
      assert (p + rest)[1..] == p[1..] + rest;
      CommentBare(p[1..], rest);
    }
  }

  /** Text with a value's ends: trimming takes nothing from it. */
  predicate Firm(v: string) {
    v != [] && !IsWhitespace(v[0]) && !IsWhitespace(v[|v| - 1])
  }

  predicate IsKey(key: string) {
    Firm(key) && Bare(key) && forall i :: 0 <= i < |key| ==> key[i] != '='
  }

  lemma TrimSpaced(v: string)
    requires Firm(v)
    ensures Trim(v + " ") == v && Trim(" " + v) == v && Trim(v) == v
  {
    var (a, b) := (v + " ", " " + v);
    assert a[..|a| - 1] == v && b[1..] == v;
    assert TrimStart(a) == a && TrimEnd(a) == TrimEnd(v) == v;
    assert TrimStart(b) == TrimStart(v) == v;
  }

  lemma ValueLineWhole(key: string, v: string)
    requires IsKey(key) && Firm(v) && CommentAt(v, None, false) == |v|
    ensures var l := key + " = " + v; WithoutComment(l) == l && Trim(l) == l
  {
    hide Trim, CommentAt, IsWhitespace;
    var l := key + " = " + v;
    assert Bare(key + " = ");
    CommentBare(key + " = ", v);
    assert l[0] == key[0] && l[|l| - 1] == v[|v| - 1];
    TrimSpaced(l);
  }

  lemma ValueLineParts(key: string, v: string)
    requires IsKey(key) && Firm(v)
    ensures var l := key + " = " + v;
      Find(l, '=') == |key| + 1 && Trim(l[..|key| + 1]) == key && Trim(l[|key| + 2..]) == v
  {
    hide Trim, IsWhitespace, Find;
    var l := key + " = " + v;
    FindAt(key + " ", '=', " " + v);
    assert key + " " + ['='] + (" " + v) == l;
    assert l[..|key| + 1] == key + " " && l[|key| + 2..] == " " + v;
    TrimSpaced(key);
    TrimSpaced(v);
  }

  /** A line that gives a value is read as its key and its value. */
  lemma ValueLine(key: string, v: string)
    requires IsKey(key) && Firm(v) && CommentAt(v, None, false) == |v|
    ensures var l := key + " = " + v;
      && Trim(WithoutComment(l)) == l
      && Find(l, '=') == |key| + 1 && Trim(l[..|key| + 1]) == key && Trim(l[|key| + 2..]) == v
  {
    hide Trim, WithoutComment, Find, Firm, IsKey;
    ValueLineWhole(key, v);
    ValueLineParts(key, v);
  }

  predicate IsNote(l: string) {
    l != [] ==> l[0] == '#'
  }

  lemma NoteLine(l: string)
    requires IsNote(l)
    ensures Trim(WithoutComment(l)) == ""
  {}

  lemma QuotedValue(s: string)
    ensures Firm(Quoted(s)) && CommentAt(Quoted(s), None, false) == |Quoted(s)|
    ensures ReadValue(Quoted(s)) == Ok(Str(s)) && !OpenArray(Quoted(s))
  {
    hide Quoted, HasClose, ParseI64, Items, ReadString;
    QuotedUnbroken(s);
    QuotedLexes(s, "");
    assert Quoted(s) + "" == Quoted(s);
  }

  lemma DecimalFirm(n: nat)
    ensures Firm(Decimal(n)) && Bare(Decimal(n)) && Decimal(n)[0] != '['
  {
    hide Decimal;
    DecimalUnbroken(n);
  }

  lemma DecimalValue(n: nat)
    requires n <= I64_MAX
    ensures Firm(Decimal(n)) && CommentAt(Decimal(n), None, false) == |Decimal(n)|
    ensures ReadValue(Decimal(n)) == Ok(Int(n)) && !OpenArray(Decimal(n))
  {
    hide HasClose, Items, ReadString, Decimal, ParseI64, Firm;
    DecimalFirm(n);
    CommentBare(Decimal(n), "");
    CommentNothing();
    assert Decimal(n) + "" == Decimal(n);
    assert Decimal(n) != [] by { DecimalUnbroken(n); }
    ParseDecimal(n);
  }

  // ---------------------------------------------------------------- one array

  /** An array's items as the lines that continue it are put together. */
  function ItemsText(items: seq<string>): string
    decreases |items|, 1
  {
    if items == [] then "" else " " + ItemsFrom(items)
  }

  function ItemsFrom(items: seq<string>): string
    requires items != []
    decreases |items|, 0
  {
    Quoted(items[0]) + "," + ItemsText(items[1..])
  }

  /** Text that ends outside strings and closes no array. */
  ghost predicate Neutral(acc: string) {
    forall x :: HasClose(acc + x, None) == HasClose(x, None)
  }

  lemma NeutralItem(acc: string, item: string)
    requires Neutral(acc)
    ensures Neutral(acc + " " + Quoted(item) + ",")
  {
    hide Quoted;
    var next := acc + " " + Quoted(item) + ",";
    forall x ensures HasClose(next + x, None) == HasClose(x, None) {
      var y := Quoted(item) + ("," + x);
      assert next + x == acc + (" " + y);
      assert (" " + y)[1..] == y && ("," + x)[1..] == x;
      QuotedLexes(item, "," + x);
    }
  }

  lemma ItemLineReads(item: string)
    ensures Trim(WithoutComment(ItemLine(item))) == Quoted(item) + ","
  {
    hide Quoted, CommentAt, TrimEnd;
    var v := Quoted(item) + ",";
    QuotedLexes(item, ",");
    QuotedUnbroken(item);
    CommentBare("    ", v);
    CommentBare(",", "");
    assert "," + "" == "," && "    " + v == ItemLine(item);
    CommentNothing();
    TrimStartSpaces(4, v);
    assert seq(4, _ => ' ') == "    ";
    TrimInner(v);
    assert WithoutComment(ItemLine(item)) == ItemLine(item);
    assert TrimStart(ItemLine(item)) == v;
  }

  lemma CommentNothing()
    ensures CommentAt("", None, false) == 0
  {}

  lemma ItemsTextStarts(acc: string, items: seq<string>)
    requires items != []
    ensures acc + " " + Quoted(items[0]) + "," + ItemsText(items[1..]) == acc + ItemsText(items)
  {
    hide Quoted;
  }

  /** The lines of an array's items are put together one by one. */
  lemma {:induction false} GatherItems(lines: seq<string>, j: nat, acc: string, items: seq<string>)
    requires j + |items| <= |lines| && forall k :: 0 <= k < |items| ==> lines[j + k] == ItemLine(items[k])
    requires acc != [] && acc[0] == '[' && Neutral(acc)
    ensures Neutral(acc + ItemsText(items))
    ensures Gathered(lines, j, acc) == Gathered(lines, j + |items|, acc + ItemsText(items))
    decreases |items|
  {
    hide Neutral, HasClose, Quoted, Trim, WithoutComment, ItemLine, CommentAt, IsWhitespace;
    if items == [] {
      assert acc + ItemsText(items) == acc;
    } else {
      assert lines[j + 0] == ItemLine(items[0]);
      NeutralOpen(acc);
      ItemLineReads(items[0]);
      NeutralItem(acc, items[0]);
      var next := acc + " " + Quoted(items[0]) + ",";
      assert acc + " " + (Quoted(items[0]) + ",") == next;
      forall k | 0 <= k < |items| - 1 ensures lines[j + 1 + k] == ItemLine(items[1..][k]) {
        assert lines[j + (k + 1)] == ItemLine(items[k + 1]);
      }
      GatherItems(lines, j + 1, next, items[1..]);
      ItemsTextStarts(acc, items);
    }
  }

  lemma {:induction false} ItemLinesAt(items: seq<string>)
    ensures |ItemLines(items)| == |items|
    ensures forall k :: 0 <= k < |items| ==> ItemLines(items)[k] == ItemLine(items[k])
  {
    hide ItemLine;
    if items != [] {
      ItemLinesAt(items[1..]);
    }
  }

  lemma NeutralOpen(acc: string)
    requires Neutral(acc)
    ensures !HasClose(acc, None)
  {
    assert acc + "" == acc;
  }

  lemma OpeningNeutral()
    ensures Neutral("[")
  {
    forall x ensures HasClose("[" + x, None) == HasClose(x, None) {
      assert ("[" + x)[1..] == x;
    }
  }

  /** The line that closes an array. */
  lemma GatherClose(lines: seq<string>, j: nat, acc: string)
    requires j < |lines| && lines[j] == "]"
    requires acc != [] && acc[0] == '[' && Neutral(acc)
    ensures Gathered(lines, j, acc) == Some((acc + " ]", j + 1))
  {
    NeutralOpen(acc);
    assert Trim(WithoutComment("]")) == "]";
    assert acc + " " + "]" == acc + " ]";
    assert HasClose(acc + " ]", None) == HasClose(" ]", None);
    assert " ]"[1..] == "]";
  }

  lemma TrimStartOnce(r: string)
    requires r != [] && !IsWhitespace(r[0])
    ensures TrimStart(" " + r) == r
  {
    assert (" " + r)[1..] == r;
  }

  lemma ItemsFromEnds(items: seq<string>)
    requires items != []
    ensures Firm(ItemsFrom(items)) && ItemsFrom(items)[0] == Quoted(items[0])[0]
  {
    hide Quoted, Unbroken;
    QuotedUnbroken(items[0]);
    ItemsFromEnd(items);
  }

  lemma {:induction false} ItemsFromEnd(items: seq<string>)
    requires items != []
    ensures var t := ItemsFrom(items); t != [] && t[|t| - 1] == ','
    decreases |items|
  {
    hide Quoted;
    if |items| > 1 {
      ItemsFromEnd(items[1..]);
    }
  }

  lemma TrimStartItems(items: seq<string>)
    ensures TrimStart(ItemsText(items)) == if items == [] then "" else ItemsFrom(items)
  {
    hide ItemsFrom, Quoted;
    if items != [] {
      ItemsFromEnds(items);
      TrimStartOnce(ItemsFrom(items));
    }
  }

  lemma CommaFirst(after: string)
    requires after != [] && after[0] == ','
    ensures TrimStart(after) == after
  {}

  /** Items are read back from the text they are put together in. */
  lemma {:induction false} ItemsRead(items: seq<string>)
    requires items != []
    ensures Items(ItemsFrom(items)) == Ok(items)
    decreases |items|
  {
    hide Quoted, ReadString, ItemsText, Unbroken, TrimStart;
    var after := "," + ItemsText(items[1..]);
    assert ItemsFrom(items) == Quoted(items[0]) + after;
    QuotedLexes(items[0], after);
    QuotedUnbroken(items[0]);
    assert after[1..] == ItemsText(items[1..]);
    CommaFirst(after);
    TrimStartItems(items[1..]);
    if |items| > 1 {
      ItemsRead(items[1..]);
    }
    assert [items[0]] + items[1..] == items;
  }

  lemma TrimBoth(v: string)
    requires Firm(v)
    ensures Trim(" " + v + " ") == v
  {
    var t := " " + v + " ";
    assert t[1..] == v + " ";
    TrimSpaced(v);
  }

  lemma TrimItems(items: seq<string>)
    ensures Trim(ItemsText(items) + " ") == if items == [] then "" else ItemsFrom(items)
  {
    hide ItemsFrom, Quoted, Trim;
    if items == [] {
      TrimSpace();
      assert ItemsText(items) + " " == " ";
    } else {
      ItemsFromEnds(items);
      TrimBoth(ItemsFrom(items));
    }
  }

  lemma TrimSpace()
    ensures Trim(" ") == ""
  {}

  lemma ArrayReads(items: seq<string>)
    ensures ReadValue("[" + ItemsText(items) + " ]") == Ok(List(items))
  {
    hide Quoted, ReadString, Trim, ParseI64;
    var text := "[" + ItemsText(items) + " ]";
    assert text[1..|text| - 1] == ItemsText(items) + " ";
    TrimItems(items);
    if items != [] {
      ItemsRead(items);
      assert ItemsFrom(items) != [];
    }
  }

  // ---------------------------------------------------------------- the lines in order

  lemma {:induction false} NotesParse(lines: seq<string>, i: nat, n: nat, c: Config)
    requires i + n <= |lines| && forall k :: i <= k < i + n ==> IsNote(lines[k])
    ensures ParseLines(lines, i, c) == ParseLines(lines, i + n, c)
    decreases n
  {
    hide WithoutComment, Trim, Gathered, Assign, ReadValue, Find;
    if n > 0 {
      NoteLine(lines[i]);
      NotesParse(lines, i + 1, n - 1, c);
    }
  }

  /** What an entry leaves when its value is `v` and the next line `next`. */
  function Entered(c: Config, key: string, v: Value, at: nat, next: nat): Result<(Config, nat), Syntax> {
    match Assign(c, key, v)
    case Err(f) => Err(Syntax(at + 1, f))
    case Ok(c') => Ok((c', next))
  }

  lemma ValueEntry(lines: seq<string>, i: nat, key: string, v: string, value: Value, c: Config)
    requires i < |lines| && lines[i] == key + " = " + v
    requires IsKey(key) && Firm(v) && CommentAt(v, None, false) == |v|
    requires !OpenArray(v) && ReadValue(v) == Ok(value)
    ensures Entry(lines, i, c) == Entered(c, key, value, i, i + 1)
  {
    hide WithoutComment, CommentAt, Trim, Assign, ReadValue, Find, OpenArray, Firm, IsKey;
    ValueLine(key, v);
    assert lines[i][|key| + 1 + 1..] == lines[i][|key| + 2..];
  }

  lemma EmptyArray()
    ensures Firm("[]") && CommentAt("[]", None, false) == |"[]"| && !OpenArray("[]") && ReadValue("[]") == Ok(List([]))
    ensures Firm("[") && CommentAt("[", None, false) == |"["|
  {
    assert "[]"[1..1] == "";
    assert "[]"[1..] == "]" && "[]"[0] == '[' && "[]"[1] == ']';
    assert Bare("[]") && Bare("[");
    CommentBare("[]", "");
    CommentBare("[", "");
    assert "[]" + "" == "[]" && "[" + "" == "[";
  }

  lemma ListEntry(lines: seq<string>, i: nat, key: string, items: seq<string>, c: Config)
    requires i + |ListLines(key, items)| <= |lines| && IsKey(key)
    requires lines[i..i + |ListLines(key, items)|] == ListLines(key, items)
    ensures Entry(lines, i, c) == Entered(c, key, List(items), i, i + |ListLines(key, items)|)
  {
    hide WithoutComment, CommentAt, Trim, Assign, ReadValue, Find, OpenArray, Firm, IsKey, ItemLines, Gathered;
    EmptyArray();
    var list := ListLines(key, items);
    assert lines[i] == lines[i..i + |list|][0];
    if items == [] {
      assert key + " = []" == key + " = " + "[]";
      ValueEntry(lines, i, key, "[]", List([]), c);
    } else {
      assert key + " = [" == key + " = " + "[";
      ValueLine(key, "[");
      assert lines[i][|key| + 1 + 1..] == lines[i][|key| + 2..];
      ListGathers(lines, i, key, items);
      ArrayReads(items);
    }
  }

  lemma ListGathers(lines: seq<string>, i: nat, key: string, items: seq<string>)
    requires items != [] && i + |ListLines(key, items)| <= |lines|
    requires lines[i..i + |ListLines(key, items)|] == ListLines(key, items)
    ensures Gathered(lines, i + 1, "[") == Some(("[" + ItemsText(items) + " ]", i + |ListLines(key, items)|))
  {
    hide Neutral, HasClose, Quoted, Trim, WithoutComment, ItemLine, Gathered, ItemsText, ItemLines;
    var list := ListLines(key, items);
    ItemLinesAt(items);
    OpeningNeutral();
    forall k | 0 <= k < |items| ensures lines[i + 1 + k] == ItemLine(items[k]) {
      assert lines[i + 1 + k] == lines[i..i + |list|][k + 1] == list[k + 1] == ItemLines(items)[k];
    }
    GatherItems(lines, i + 1, "[", items);
    assert lines[i + 1 + |items|] == lines[i..i + |list|][|items| + 1] == "]";
    GatherClose(lines, i + 1 + |items|, "[" + ItemsText(items));
  }

  // ---------------------------------------------------------------- the whole file

  /** The settings from the line after `a` on, when the lines between are comments. */
  lemma AfterNotes(a: seq<string>, notes: seq<string>, d: seq<string>, c: Config)
    requires forall l | l in notes :: IsNote(l)
    ensures var all := a + notes + d; ParseLines(all, |a|, c) == ParseLines(all, |a + notes|, c)
  {
    hide ParseLines;
    var all := a + notes + d;
    forall k | |a| <= k < |a| + |notes| ensures IsNote(all[k]) {
      assert all[k] == notes[k - |a|];
    }
    NotesParse(all, |a|, |notes|, c);
  }

  /** The settings from the line after `a` on, when the next gives `key` the value `value`. */
  function AfterEntry(a: seq<string>, b: seq<string>, d: seq<string>, c: Config, key: string, value: Value)
    : Result<Config, Syntax>
  {
    match Assign(c, key, value)
    case Err(f) => Err(Syntax(|a| + 1, f))
    case Ok(c') => ParseLines(a + b + d, |a + b|, c')
  }

  lemma AfterValue(a: seq<string>, key: string, v: string, d: seq<string>, c: Config, value: Value)
    requires IsKey(key) && Firm(v) && CommentAt(v, None, false) == |v|
    requires !OpenArray(v) && ReadValue(v) == Ok(value)
    ensures var b := [key + " = " + v]; ParseLines(a + b + d, |a|, c) == AfterEntry(a, b, d, c, key, value)
  {
    hide IsKey, Firm, CommentAt, OpenArray, ReadValue, Entry, Assign;
    var all := a + [key + " = " + v] + d;
    assert all[|a|] == key + " = " + v;
    ValueEntry(all, |a|, key, v, value, c);
  }

  lemma AfterNumber(a: seq<string>, key: string, n: nat, d: seq<string>, c: Config)
    requires IsKey(key) && n <= I64_MAX
    ensures var b := [key + " = " + Decimal(n)];
      ParseLines(a + b + d, |a|, c) == AfterEntry(a, b, d, c, key, Int(n))
  {
    hide *;
    DecimalValue(n);
    AfterValue(a, key, Decimal(n), d, c, Int(n));
  }

  lemma AfterString(a: seq<string>, key: string, s: string, d: seq<string>, c: Config)
    requires IsKey(key)
    ensures var b := [key + " = " + Quoted(s)];
      ParseLines(a + b + d, |a|, c) == AfterEntry(a, b, d, c, key, Str(s))
  {
    hide *;
    QuotedValue(s);
    AfterValue(a, key, Quoted(s), d, c, Str(s));
  }

  lemma AfterList(a: seq<string>, key: string, items: seq<string>, d: seq<string>, c: Config)
    requires IsKey(key)
    ensures var b := ListLines(key, items);
      ParseLines(a + b + d, |a|, c) == AfterEntry(a, b, d, c, key, List(items))
  {
    hide IsKey, Entry, Assign, ListLines;
    var b := ListLines(key, items);
    var all := a + b + d;
    assert b != [] by { ListSome(key, items); }
    assert all[|a|..|a| + |b|] == b;
    ListEntry(all, |a|, key, items, c);
  }

  lemma ListSome(key: string, items: seq<string>)
    ensures ListLines(key, items) != []
  {}

  lemma Keys()
    ensures IsKey("port") && IsKey("origins") && IsKey("databases") && IsKey("web")
    ensures IsKey("engine") && IsKey("engine_threads") && IsKey("engine_hash")
  {}

  /** The port's line, with the comments around it. */
  function HeadLines(c: Config): seq<string> {
    NOTES0 + ["port = " + Decimal(c.port)] + NOTES1
  }

  lemma HeadParses(c: Config, d: seq<string>)
    ensures var all := HeadLines(c) + d;
      ParseLines(all, 0, DEFAULT) ==
        if c.port == 0 then Err(Syntax(|NOTES0| + 1, Fixed("port out of range")))
        else ParseLines(all, |HeadLines(c)|, DEFAULT.(port := c.port))
  {
    hide ParseLines, Decimal, IsKey, IsNote;
    AllAreNotes();
    Keys();
    var (port, d') := (["port = " + Decimal(c.port)], NOTES1 + d);
    var all := HeadLines(c) + d;
    assert all == [] + NOTES0 + (port + d') == NOTES0 + port + d' == (NOTES0 + port) + NOTES1 + d;
    AfterNotes([], NOTES0, port + d', DEFAULT);
    assert [] + NOTES0 == NOTES0;
    assert "port" + " = " == "port = ";
    AfterNumber(NOTES0, "port", c.port, d', DEFAULT);
    AfterNotes(NOTES0 + port, NOTES1, d, DEFAULT.(port := c.port));
  }

  lemma AllAreNotes()
    ensures forall l | l in NOTES0 || l in NOTES1 || l in NOTES2 || l in NOTES3 || l in NOTES4 :: IsNote(l)
    ensures IsNote(WEB)
  {
    hide IsLine;
    NotesAreLines();
  }

  /** A list and the comments after it. */
  lemma ListParses(a: seq<string>, key: string, items: seq<string>, notes: seq<string>, d: seq<string>, c: Config)
    requires key == "origins" || key == "databases"
    requires forall l | l in notes :: IsNote(l)
    ensures var all := a + ListLines(key, items) + notes + d;
      ParseLines(all, |a|, c) == ParseLines(all, |a + ListLines(key, items) + notes|,
        if key == "origins" then c.(origins := items) else c.(databases := items))
  {
    hide ParseLines, ListLines, IsKey, IsNote;
    Keys();
    var b := ListLines(key, items);
    assert a + b + notes + d == a + b + (notes + d);
    AfterList(a, key, items, notes + d, c);
    AfterNotes(a + b, notes, d, if key == "origins" then c.(origins := items) else c.(databases := items));
  }

  lemma WebParses(a: seq<string>, web: string, d: seq<string>, c: Config)
    requires c.web == DEFAULT_WEB
    ensures var all := a + [WebLine(web)] + d;
      ParseLines(all, |a|, c) == ParseLines(all, |a| + 1, c.(web := web))
  {
    hide *;
    WebLineIs(web);
    if web == DEFAULT_WEB {
      AllAreNotes();
      AfterNotes(a, [WEB], d, c);
      assert c.(web := web) == c;
    } else {
      Keys();
      AfterString(a, "web", web, d, c);
      WebAssigns(c, web);
      AfterOk(a, ["web" + " = " + Quoted(web)], d, c, "web", Str(web), c.(web := web));
    }
  }

  lemma WebLineIs(web: string)
    ensures WebLine(web) == if web == DEFAULT_WEB then WEB else "web" + " = " + Quoted(web)
  {
    hide Quoted;
    assert "web" + " = " == "web = ";
  }

  lemma WebAssigns(c: Config, web: string)
    ensures Assign(c, "web", Str(web)) == Ok(c.(web := web))
  {}

  lemma AfterOk(a: seq<string>, b: seq<string>, d: seq<string>, c: Config, key: string, value: Value, c': Config)
    requires Assign(c, key, value) == Ok(c')
    ensures AfterEntry(a, b, d, c, key, value) == ParseLines(a + b + d, |a + b|, c')
  {}

  lemma EngineParses(a: seq<string>, engine: Option<string>, d: seq<string>, c: Config)
    requires c.engine == None
    ensures var b := if engine.Some? then ["engine = " + Quoted(engine.value)] else [];
      ParseLines(a + b + d, |a|, c) == ParseLines(a + b + d, |a + b|, c.(engine := engine))
  {
    hide ParseLines, IsKey, Quoted;
    Keys();
    if engine.Some? {
      assert "engine" + " = " == "engine = ";
      AfterString(a, "engine", engine.value, d, c);
    } else {
      assert a + [] + d == a + d && a + [] == a && c.(engine := engine) == c;
    }
  }

  lemma ThreadsParses(a: seq<string>, n: Option<U32>, d: seq<string>, c: Config)
    requires c.threads == None
    ensures var b := if n.Some? then ["engine_threads = " + Decimal(n.value)] else [];
      ParseLines(a + b + d, |a|, c) ==
        if n == Some(0) then Err(Syntax(|a| + 1, Fixed("engine_threads out of range")))
        else ParseLines(a + b + d, |a + b|, c.(threads := n))
  {
    hide ParseLines, IsKey, Decimal;
    Keys();
    if n.Some? {
      assert "engine_threads" + " = " == "engine_threads = ";
      AfterNumber(a, "engine_threads", n.value, d, c);
    } else {
      assert a + [] + d == a + d && a + [] == a && c.(threads := n) == c;
    }
  }

  lemma HashParses(a: seq<string>, n: Option<U32>, c: Config)
    requires c.hash == None
    ensures var b := if n.Some? then ["engine_hash = " + Decimal(n.value)] else [];
      ParseLines(a + b, |a|, c) ==
        if n == Some(0) then Err(Syntax(|a| + 1, Fixed("engine_hash out of range"))) else Ok(c.(hash := n))
  {
    hide IsKey, Decimal, Entry, Assign;
    Keys();
    if n.Some? {
      var b := ["engine_hash = " + Decimal(n.value)];
      assert "engine_hash" + " = " == "engine_hash = ";
      AfterNumber(a, "engine_hash", n.value, [], c);
      assert a + b + [] == a + b;
      HashAssigns(c, n.value);
    } else {
      assert a + [] == a && c.(hash := n) == c;
    }
  }

  lemma HashAssigns(c: Config, n: U32)
    ensures Assign(c, "engine_hash", Int(n)) ==
      if n == 0 then Err(Fixed("engine_hash out of range")) else Ok(c.(hash := Some(n)))
  {}

  /** The numbers `parse` takes: a port, and threads and hash that are not zero. */
  predicate InRange(c: Config) {
    c.port != 0 && c.threads != Some(0) && c.hash != Some(0)
  }

  lemma TailParses(a: seq<string>, c: Config, before: Config)
    requires before == DEFAULT.(port := c.port, origins := c.origins, databases := c.databases)
    ensures var all := a + [WebLine(c.web)] + NOTES4 + EngineLines(c);
      if c.threads == Some(0) || c.hash == Some(0) then ParseLines(all, |a|, before).Err?
      else ParseLines(all, |a|, before) == Ok(c)
  {
    hide ParseLines, IsNote, Decimal, Quoted, WebLine;
    AllAreNotes();
    var web := [WebLine(c.web)];
    var engine := if c.engine.Some? then ["engine = " + Quoted(c.engine.value)] else [];
    var threads := if c.threads.Some? then ["engine_threads = " + Decimal(c.threads.value)] else [];
    var hash := if c.hash.Some? then ["engine_hash = " + Decimal(c.hash.value)] else [];
    var all := a + web + NOTES4 + EngineLines(c);
    assert EngineLines(c) == engine + threads + hash;
    var c1 := before.(web := c.web);
    var c2 := c1.(engine := c.engine);
    var c3 := c2.(threads := c.threads);
    assert all == a + web + (NOTES4 + EngineLines(c));
    WebParses(a, c.web, NOTES4 + EngineLines(c), before);
    AfterNotes(a + web, NOTES4, EngineLines(c), c1);
    var b := a + web + NOTES4;
    assert all == b + engine + (threads + hash) == (b + engine) + threads + hash == (b + engine + threads) + hash;
    EngineParses(b, c.engine, threads + hash, c1);
    ThreadsParses(b + engine, c.threads, hash, c2);
    HashParses(b + engine + threads, c.hash, c3);
    assert c3.(hash := c.hash) == c;
  }

  /** Without a marker in a value, the file reads back exactly when its numbers are in range. */
  lemma UnmarkedRoundTrip(c: Config)
    requires Unmarked(c)
    ensures Parsed(Render(c)) == Ok(c) <==> InRange(c)
  {
    hide ParseLines, IsNote, Decimal, Quoted, WebLine, ListLines, EngineLines, Render, Joined, Lines, Unmarked, IsLine;
    RenderIsLines(c);
    RenderedLinesAreLines(c);
    LinesJoined(RenderedLines(c));
    AllAreNotes();
    var (origins, databases) := (ListLines("origins", c.origins), ListLines("databases", c.databases));
    var (head, tail) := (HeadLines(c), [WebLine(c.web)] + NOTES4 + EngineLines(c));
    var all := RenderedLines(c);
    var c0 := DEFAULT.(port := c.port);
    var c1 := c0.(origins := c.origins);
    assert all == head + (origins + NOTES2 + databases + NOTES3 + tail);
    HeadParses(c, origins + NOTES2 + databases + NOTES3 + tail);
    if c.port != 0 {
      assert all == head + origins + NOTES2 + (databases + NOTES3 + tail);
      ListParses(head, "origins", c.origins, NOTES2, databases + NOTES3 + tail, c0);
      var a := head + origins + NOTES2;
      assert all == a + databases + NOTES3 + tail;
      ListParses(a, "databases", c.databases, NOTES3, tail, c1);
      assert all == (a + databases + NOTES3) + [WebLine(c.web)] + NOTES4 + EngineLines(c);
      TailParses(a + databases + NOTES3, c, c1.(databases := c.databases));
    }
  }
}
