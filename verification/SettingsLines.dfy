/** The file `render` writes, line by line: the default file's lines with the lines of
    each value in place of its own, whenever no quoted value holds the marker of a value
    put in later. */
module SettingsLines {
  import opened Text
  import opened Wrappers
  import opened Hex
  import opened SettingsFile

  /** What `render` needs of the settings: its replacements run one after the other over
      the whole text, so a value that holds the marker of a later one is altered by it,
      unless the later value is the default and its marker stays as it is. */
  ghost predicate Unmarked(c: Config) {
    && (c.databases != [] ==> forall s | s in c.origins :: !Occurs(DATABASES, Quoted(s)))
    && (c.web != DEFAULT_WEB ==> forall s | s in c.origins || s in c.databases :: !Occurs(WEB, Quoted(s)))
  }

  function ListLines(key: string, items: seq<string>): seq<string> {
    if items == [] then [key + " = []"] else [key + " = ["] + ItemLines(items) + ["]"]
  }

  function RenderedLines(c: Config): seq<string> {
    NOTES0 + ["port = " + Decimal(c.port)] + NOTES1 + ListLines("origins", c.origins)
    + NOTES2 + ListLines("databases", c.databases) + NOTES3 + [WebLine(c.web)] + NOTES4 + EngineLines(c)
  }

  // ---------------------------------------------------------------- replacing in lines

  ghost predicate Untouched(lines: seq<string>, p: string) {
    forall l | l in lines :: !Occurs(p, l)
  }

  lemma {:induction false} ReplaceUntouched(lines: seq<string>, rest: string, p: string, value: string)
    requires p != [] && '\n' !in p && Untouched(lines, p)
    ensures Replace(Joined(lines) + rest, p, value) == Joined(lines) + Replace(rest, p, value)
    decreases |lines|
  {
    if lines == [] {
      assert Joined(lines) + rest == rest;
    } else {
      var (l, more) := (lines[0], Joined(lines[1..]) + rest);
      assert l in lines;
      assert Joined(lines) + rest == l + ['\n'] + more;
      ReplaceAcross(l, '\n', more, p, value);
      ReplaceNone(l, p, value);
      ReplaceUntouched(lines[1..], rest, p, value);
    }
  }

  lemma JoinedAround(before: seq<string>, line: string, after: seq<string>)
    ensures Joined(before + [line] + after) == Joined(before) + (line + ['\n'] + Joined(after))
  {
    hide Joined;
    JoinedAppend(before + [line], after);
    JoinedAppend(before, [line]);
    JoinedOne(line);
    assert Joined(before) + (line + "\n") + Joined(after) == Joined(before) + (line + ['\n'] + Joined(after));
  }

  /** One line of many replaced by others. */
  lemma ReplaceLine(before: seq<string>, line: string, after: seq<string>, p: string, value: string, put: seq<string>)
    requires p != [] && '\n' !in p && Untouched(before, p) && Untouched(after, p)
    requires Replace(line, p, value) + "\n" == Joined(put)
    ensures Replace(Joined(before + [line] + after), p, value) == Joined(before + put + after)
  {
    hide Replace, Joined, Occurs;
    var (rest, text) := (Joined(after), Replace(line, p, value));
    JoinedAround(before, line, after);
    ReplaceUntouched(before, line + ['\n'] + rest, p, value);
    ReplaceAcross(line, '\n', rest, p, value);
    assert Replace(rest, p, value) == rest by {
      ReplaceUntouched(after, "", p, value);
      ReplaceEmpty(p, value);
      assert rest + "" == rest;
    }
    JoinedAppend(before + put, after);
    JoinedAppend(before, put);
    assert Joined(before) + (text + ['\n'] + rest) == Joined(before) + (text + "\n") + rest;
  }

  lemma ReplaceEmpty(p: string, value: string)
    requires p != []
    ensures Replace("", p, value) == ""
  {}

  lemma ListTextLines(key: string, items: seq<string>)
    ensures key + " = " + ListText(items) + "\n" == Joined(ListLines(key, items))
  {
    hide ItemLines;
    if items == [] {
      assert key + " = " + "[]" == key + " = []";
    } else {
      var (first, lines) := (key + " = [", ItemLines(items));
      JoinedAppend([first] + lines, ["]"]);
      JoinedAppend([first], lines);
      assert Joined([first]) == first + "\n" && Joined(["]"]) == "]\n";
      assert key + " = " + ("[\n" + Joined(lines) + "]") + "\n" == first + "\n" + Joined(lines) + "]\n";
    }
  }

  // ---------------------------------------------------------------- where no marker is

  lemma NoChar(p: string, s: string, c: char)
    requires c in p && c !in s
    ensures !Occurs(p, s)
  {
    var k :| 0 <= k < |p| && p[k] == c;
    forall i ensures !OccursAt(p, s, i) {
      if 0 <= i && i + |p| <= |s| {
        assert s[i..i + |p|][k] == s[i + k];
      }
    }
  }

  predicate Plain(s: string) {
    forall i :: 0 <= i < |s| ==> s[i] != '=' && s[i] != '\n' && s[i] != '\r'
  }

  /** A line of the default file that holds no value: a comment or an empty line. */
  ghost predicate Note(l: string) {
    && IsLine(l) && (l != [] ==> l[0] == '#')
    && !Occurs(PORT, l) && !Occurs(ORIGINS, l) && !Occurs(DATABASES, l) && !Occurs(WEB, l)
  }

  lemma PlainNote(a: string, b: string)
    requires Plain(a) && Plain(b) && (a != [] ==> a[0] == '#') && (a == [] ==> b == [])
    ensures Note(a + b)
  {
    var l := a + b;
    assert Plain(l);
    NoChar(PORT, l, '=');
    NoChar(ORIGINS, l, '=');
    NoChar(DATABASES, l, '=');
    NoChar(WEB, l, '=');
  }

  lemma NoteN1()
    ensures Note(N1)
  {
    hide Note;
    PlainNote("# oschess bridge settings. A new port, o", "rigin or web site takes effect when the");
  }

  lemma NoteN2()
    ensures Note(N2)
  {
    hide Note;
    PlainNote("# bridge restarts; the databases and the", " engine take effect as soon as this");
  }

  lemma NoteN3()
    ensures Note(N3)
  {
    hide Note;
    PlainNote("# file is saved. A file that cannot be r", "ead leaves the settings read before.");
  }

  lemma NoteN4()
    ensures Note(N4)
  {
    hide Note;
    PlainNote("# Web origins allowed in addition to osc", "hess.org, for local development,");
  }

  lemma NoteN5()
    ensures Note(N5)
  {
    hide Note;
    PlainNote("# for example [\"http://localhost:5173\"].", "");
    assert N5 + "" == N5;
  }

  lemma NoteN6()
    ensures Note(N6)
  {
    hide Note;
    PlainNote("# Databases in addition to those ChessBa", "se shows: paths to .2cbh, .cbh or .pgn");
  }

  lemma NoteN7()
    ensures Note(N7)
  {
    hide Note;
    PlainNote("# files, or to folders whose databases a", "re all served, in every folder below");
  }

  lemma NoteN8()
    ensures Note(N8)
  {
    hide Note;
    PlainNote("# them too,", "");
    assert N8 + "" == N8;
  }

  lemma NoteN9()
    ensures Note(N9)
  {
    hide Note;
    PlainNote("# for example ['C:\\Users\\me\\Documents\\", "ChessBase\\MyWork\\Games.2cbh'].");
  }

  lemma NoteN10()
    ensures Note(N10)
  {
    hide Note;
    PlainNote("# The oschess site the pairing link open", "s, one of the allowed origins, for");
  }

  lemma NoteN11()
    ensures Note(N11)
  {
    hide Note;
    PlainNote("# example \"https://staging.oschess.org\".", "");
    assert N11 + "" == N11;
  }

  lemma NoteN12()
    ensures Note(N12)
  {
    hide Note;
    PlainNote("# The UCI engine the analysis board uses", ". oschess's engine panel sets its");
  }

  lemma NoteN13()
    ensures Note(N13)
  {
    hide Note;
    PlainNote("# threads and hash table for each analys", "is; engine_threads and engine_hash (MB)");
  }

  lemma NoteN14()
    ensures Note(N14)
  {
    hide Note;
    PlainNote("# are what it uses when oschess names no", "ne, by default all processors but two");
  }

  lemma NoteN15()
    ensures Note(N15)
  {
    hide Note;
    PlainNote("# and at most 512 MB.", "");
    assert N15 + "" == N15;
  }

  lemma NoteN16()
    ensures Note(N16)
  {
    hide Occurs, IsLine;
    N16Line();
    N16Lacks();
    NoChar(PORT, N16, '3');
    NoChar(ORIGINS, N16, '[');
    NoChar(DATABASES, N16, '[');
    NoChar(WEB, N16, '"');
  }

  lemma N16Line()
    ensures IsLine(N16)
  {}

  predicate NoMarks(s: string) {
    forall i :: 0 <= i < |s| ==> s[i] != '3' && s[i] != '[' && s[i] != '"'
  }

  lemma N16Lacks()
    ensures '3' !in N16 && '[' !in N16 && '"' !in N16
  {
    var (a, b, c) := ("# For example engine ", "= 'C:\\Program Files\\", "Stockfish\\stockfish.exe'");
    assert NoMarks(a) && NoMarks(b) && NoMarks(c);
    assert NoMarks(a + b + c) && N16 == a + b + c;
  }

  lemma AllNotes()
    ensures forall l | l in NOTES0 || l in NOTES1 || l in NOTES2 || l in NOTES3 || l in NOTES4 :: Note(l)
  {
    hide Note;
    PlainNote("", "");
    NoteN1();
    NoteN2();
    NoteN3();
    NoteN4();
    NoteN5();
    NoteN6();
    NoteN7();
    NoteN8();
    NoteN9();
    NoteN10();
    NoteN11();
    NoteN12();
    NoteN13();
    NoteN14();
    NoteN15();
    NoteN16();
  }

  lemma NotesUntouched()
    ensures NotesOnly(NOTES0) && NotesOnly(NOTES1) && NotesOnly(NOTES2) && NotesOnly(NOTES3) && NotesOnly(NOTES4)
  {
    hide Occurs, IsLine;
    AllNotes();
  }

  // ---------------------------------------------------------------- the values' lines

  /** A marker in a list item's line is in its quoted value. */
  lemma InItem(p: string, item: string)
    requires p != [] && p[0] != ' ' && p[|p| - 1] != ','
    ensures Occurs(p, ItemLine(item)) ==> Occurs(p, Quoted(item))
  {
    hide Quoted;
    var (l, q, n) := (ItemLine(item), Quoted(item), |p|);
    if i :| OccursAt(p, l, i) {
      assert l[i] == l[i..i + n][0] && l[i + n - 1] == l[i..i + n][n - 1];
      assert q[i - 4..i - 4 + n] == l[i..i + n];
      assert OccursAt(p, q, i - 4);
    }
  }

  lemma {:induction false} ItemsUntouched(items: seq<string>, p: string)
    requires p != [] && p[0] != ' ' && p[|p| - 1] != ','
    requires forall s | s in items :: !Occurs(p, Quoted(s))
    ensures Untouched(ItemLines(items), p)
  {
    hide Occurs, Quoted;
    if items != [] {
      InItem(p, items[0]);
      ItemsUntouched(items[1..], p);
    }
  }

  lemma ListUntouched(key: string, items: seq<string>, p: string)
    requires p != [] && p[0] != ' ' && p[|p| - 1] != ',' && '=' in p
    requires !Occurs(p, key + " = [") && !Occurs(p, key + " = []")
    requires forall s | s in items :: !Occurs(p, Quoted(s))
    ensures Untouched(ListLines(key, items), p)
  {
    hide Occurs, Quoted;
    ItemsUntouched(items, p);
    NoChar(p, "]", '=');
  }

  lemma PortUntouched(n: nat)
    ensures var l := "port = " + Decimal(n);
      !Occurs(ORIGINS, l) && !Occurs(DATABASES, l) && !Occurs(WEB, l)
  {
    hide Occurs;
    var l := "port = " + Decimal(n);
    assert forall c | c in l :: c in "port = " || IsDigit(c);
    assert '[' !in l && '#' !in l;
    NoChar(ORIGINS, l, '[');
    NoChar(DATABASES, l, '[');
    NoChar(WEB, l, '#');
  }

  lemma PortApart()
    ensures !Occurs(PORT, ORIGINS) && !Occurs(PORT, DATABASES) && !Occurs(PORT, WEB)
  {
    hide Occurs;
    NoChar(PORT, ORIGINS, '9');
    NoChar(PORT, DATABASES, '9');
    NoChar(PORT, WEB, '9');
  }

  lemma MarkersApart()
    ensures !Occurs(PORT, ORIGINS) && !Occurs(PORT, DATABASES) && !Occurs(PORT, WEB)
    ensures !Occurs(ORIGINS, DATABASES) && !Occurs(ORIGINS, WEB) && !Occurs(DATABASES, WEB)
  {
    hide Occurs;
    PortApart();
    NoChar(ORIGINS, DATABASES, 'o');
    NoChar(ORIGINS, WEB, '[');
    NoChar(DATABASES, WEB, '[');
  }

  lemma KeysApart()
    ensures !Occurs(DATABASES, "origins" + " = [") && !Occurs(DATABASES, "origins" + " = []")
    ensures !Occurs(WEB, "origins" + " = [") && !Occurs(WEB, "origins" + " = []")
    ensures !Occurs(WEB, "databases" + " = [") && !Occurs(WEB, "databases" + " = []")
  {
    hide Occurs;
    NoChar(DATABASES, "origins" + " = [", 'd');
    NoChar(DATABASES, "origins" + " = []", 'd');
    NoChar(WEB, "origins" + " = [", '#');
    NoChar(WEB, "origins" + " = []", '#');
    NoChar(WEB, "databases" + " = [", '#');
    NoChar(WEB, "databases" + " = []", '#');
  }

  lemma OriginsUntouched(items: seq<string>, p: string)
    requires p == DATABASES || p == WEB
    requires forall s | s in items :: !Occurs(p, Quoted(s))
    ensures Untouched(ListLines("origins", items), p)
  {
    hide Occurs, Quoted, ListLines, Untouched;
    KeysApart();
    ListUntouched("origins", items, p);
  }

  lemma DatabasesUntouched(items: seq<string>)
    requires forall s | s in items :: !Occurs(WEB, Quoted(s))
    ensures Untouched(ListLines("databases", items), WEB)
  {
    hide Occurs, Quoted, ListLines, Untouched;
    KeysApart();
    ListUntouched("databases", items, WEB);
  }

  ghost predicate NotesOnly(n: seq<string>) {
    Untouched(n, PORT) && Untouched(n, ORIGINS) && Untouched(n, DATABASES) && Untouched(n, WEB)
  }

  /** The four replacements one after the other, each of its own line alone. */
  lemma FourReplacements(n0: seq<string>, n1: seq<string>, n2: seq<string>, n3: seq<string>, n4: seq<string>, c: Config)
    requires NotesOnly(n0) && NotesOnly(n1) && NotesOnly(n2) && NotesOnly(n3) && NotesOnly(n4)
    requires c.databases != [] ==> Untouched(ListLines("origins", c.origins), DATABASES)
    requires c.web != DEFAULT_WEB ==>
      Untouched(ListLines("origins", c.origins), WEB) && Untouched(ListLines("databases", c.databases), WEB)
    ensures var port := "port = " + Decimal(c.port);
      var t0 := Joined(n0 + [PORT] + n1 + [ORIGINS] + n2 + [DATABASES] + n3 + [WEB] + n4);
      var t1 := Replace(t0, PORT, port);
      var t2 := Replace(t1, ORIGINS, "origins = " + ListText(c.origins));
      var t3 := Replace(t2, DATABASES, "databases = " + ListText(c.databases));
      Replace(t3, WEB, WebLine(c.web))
      == Joined(n0 + [port] + n1 + ListLines("origins", c.origins) + n2 + ListLines("databases", c.databases)
                + n3 + [WebLine(c.web)] + n4)
  {
    hide Occurs, Replace, Joined, ListText, ListLines, WebLine, Decimal, Untouched, NotesOnly;
    var port := "port = " + Decimal(c.port);
    FirstTwo(n0, port, n1, n2 + [DATABASES] + n3 + [WEB] + n4, c, n2, n3, n4);
    Regroup(n0 + [PORT] + n1 + [ORIGINS], n2, [DATABASES], n3, [WEB], n4);
    LastTwo(n0 + [port] + n1 + ListLines("origins", c.origins) + n2, n3, n4, c) by {
      BeforeDatabases(n0, port, n1, n2, c);
    }
    Regroup(n0 + [port] + n1 + ListLines("origins", c.origins), n2, [DATABASES], n3, [WEB], n4);
  }

  lemma Regroup<T>(a: seq<T>, b: seq<T>, c: seq<T>, d: seq<T>, e: seq<T>, f: seq<T>)
    ensures a + b + c + d + e + f == a + (b + c + d + e + f)
  {}

  lemma BeforeDatabases(n0: seq<string>, port: string, n1: seq<string>, n2: seq<string>, c: Config)
    requires NotesOnly(n0) && NotesOnly(n1) && NotesOnly(n2) && port == "port = " + Decimal(c.port)
    requires c.databases != [] ==> Untouched(ListLines("origins", c.origins), DATABASES)
    requires c.web != DEFAULT_WEB ==> Untouched(ListLines("origins", c.origins), WEB)
    ensures var before := n0 + [port] + n1 + ListLines("origins", c.origins) + n2;
      && (c.databases != [] ==> Untouched(before, DATABASES)) && (c.web != DEFAULT_WEB ==> Untouched(before, WEB))
  {
    hide Occurs, ListLines, Decimal;
    PortUntouched(c.port);
  }

  lemma FirstTwo(n0: seq<string>, port: string, n1: seq<string>, after: seq<string>, c: Config,
                 n2: seq<string>, n3: seq<string>, n4: seq<string>)
    requires NotesOnly(n0) && NotesOnly(n1) && NotesOnly(n2) && NotesOnly(n3) && NotesOnly(n4)
    requires port == "port = " + Decimal(c.port) && after == n2 + [DATABASES] + n3 + [WEB] + n4
    ensures Replace(Replace(Joined(n0 + [PORT] + n1 + [ORIGINS] + after), PORT, port),
                    ORIGINS, "origins = " + ListText(c.origins))
         == Joined(n0 + [port] + n1 + ListLines("origins", c.origins) + after)
  {
    hide Occurs, Replace, Joined, ListText, ListLines, Decimal;
    MarkersApart();
    PortUntouched(c.port);
    JoinedOne(port);
    ListTextLines("origins", c.origins);
    PutLine(n0, PORT, n1 + [ORIGINS] + after, port, [port]);
    assert n0 + [PORT] + n1 + [ORIGINS] + after == n0 + [PORT] + (n1 + [ORIGINS] + after);
    assert n0 + [port] + (n1 + [ORIGINS] + after) == (n0 + [port] + n1) + [ORIGINS] + after;
    PutLine(n0 + [port] + n1, ORIGINS, after, "origins = " + ListText(c.origins), ListLines("origins", c.origins));
  }

  lemma LastTwo(before: seq<string>, n3: seq<string>, n4: seq<string>, c: Config)
    requires NotesOnly(n3) && NotesOnly(n4)
    requires c.databases != [] ==> Untouched(before, DATABASES)
    requires c.web != DEFAULT_WEB ==> Untouched(before, WEB) && Untouched(ListLines("databases", c.databases), WEB)
    ensures Replace(Replace(Joined(before + [DATABASES] + n3 + [WEB] + n4),
                            DATABASES, "databases = " + ListText(c.databases)), WEB, WebLine(c.web))
         == Joined(before + ListLines("databases", c.databases) + n3 + [WebLine(c.web)] + n4)
  {
    hide Occurs, Replace, Joined, ListText, ListLines, WebLine;
    MarkersApart();
    Defaults();
    JoinedOne(WebLine(c.web));
    ListTextLines("databases", c.databases);
    var databases := ListLines("databases", c.databases);
    PutLine(before, DATABASES, n3 + [WEB] + n4, "databases = " + ListText(c.databases), databases);
    assert before + [DATABASES] + n3 + [WEB] + n4 == before + [DATABASES] + (n3 + [WEB] + n4);
    assert before + databases + (n3 + [WEB] + n4) == (before + databases + n3) + [WEB] + n4;
    PutLine(before + databases + n3, WEB, n4, WebLine(c.web), [WebLine(c.web)]);
  }

  /** A marker's line replaced by its value's lines; a marker put back for itself
      changes no line, whatever holds it. */
  lemma PutLine(before: seq<string>, p: string, after: seq<string>, value: string, put: seq<string>)
    requires p != [] && '\n' !in p && value + "\n" == Joined(put)
    requires value != p ==> Untouched(before, p) && Untouched(after, p)
    ensures Replace(Joined(before + [p] + after), p, value) == Joined(before + put + after)
  {
    hide Occurs, Replace, Joined;
    if value == p {
      ReplaceBySame(Joined(before + [p] + after), p);
      JoinedAround(before, p, after);
      JoinedAppend(before + put, after);
      JoinedAppend(before, put);
      assert Joined(before) + (p + ['\n'] + Joined(after)) == Joined(before) + (p + "\n") + Joined(after);
    } else {
      ReplaceWhole(p, value);
      ReplaceLine(before, p, after, p, value, put);
    }
  }

  /** The file is written line by line exactly as the default file is, with each value's
      own lines. */
  lemma RenderIsLines(c: Config)
    requires Unmarked(c)
    ensures Render(c) == Joined(RenderedLines(c))
  {
    hide Occurs, Replace, Joined, ListText, ListLines, WebLine, Decimal, Quoted, EngineLines;
    NotesUntouched();
    var (origins, databases) := (ListLines("origins", c.origins), ListLines("databases", c.databases));
    if c.databases != [] {
      OriginsUntouched(c.origins, DATABASES);
    }
    if c.web != DEFAULT_WEB {
      OriginsUntouched(c.origins, WEB);
      DatabasesUntouched(c.databases);
    }
    FourReplacements(NOTES0, NOTES1, NOTES2, NOTES3, NOTES4, c);
    JoinedAppend(NOTES0 + ["port = " + Decimal(c.port)] + NOTES1 + origins + NOTES2 + databases + NOTES3
                 + [WebLine(c.web)] + NOTES4, EngineLines(c));
  }

  lemma Defaults()
    ensures "databases = " + ListText([]) == DATABASES && WebLine(DEFAULT_WEB) == WEB
  {}

  lemma JoinedOne(line: string)
    ensures Joined([line]) == line + "\n"
  {}
}
