/** Reading a file whose list holds an item that a later replacement broke into: the
    parser fails, or reads another list, and no later line can put the list right. */
module SettingsSpoiled {
  import opened Text
  import opened Wrappers
  import opened Hex
  import opened SettingsFile
  import opened SettingsLines
  import opened SettingsParse
  import opened SettingsLexers
  import opened SettingsRoundTrip

  // ---------------------------------------------------------------- an item cut short

  predicate IsQuote(c: char) {
    c == '"' || c == '\''
  }

  /** A quoted string as far as its first `t` characters. */
  function Opened(s: string, t: nat): (o: string)
    requires t <= |s|
    ensures o != [] && IsQuote(o[0])
  {
    if Literal(s) then "'" + s[..t] else "\"" + EscapedAll(s[..t])
  }

  /** Item `s` goes on after `t` characters with `w` and something else than it held: the
      closing bracket of a marker became a line's end, or its `#` a `w`. */
  predicate Spoilt(s: string, t: nat, w: string) {
    && t < |s|
    && ((w == "" && s[t] == ']' && t > 0 && s[t - 1] == '[') || (w == "w" && s[t] == '#'))
  }

  /** What follows: nothing or a space where the line ended. */
  predicate Follows(w: string, x: string) {
    w == "" && x != [] ==> x[0] == ' '
  }

  lemma {:induction false} EscapedPrefix(s: string, x: string)
    ensures Unescaped(EscapedAll(s) + x) == Prepend(s, Unescaped(x))
    ensures CommentAt(EscapedAll(s) + x, Some('"'), false) == |EscapedAll(s)| + CommentAt(x, Some('"'), false)
  {
    hide Escaped, Unescaped, CommentAt;
    if s == [] {
      assert EscapedAll(s) + x == x;
      PrependNothing(Unescaped(x));
    } else {
      var more := EscapedAll(s[1..]) + x;
      assert EscapedAll(s) + x == Escaped(s[0]) + more;
      EscapedPrefix(s[1..], x);
      UnescapeEscaped(s[0], more);
      CommentEscaped(s[0], more);
      PrependTwice([s[0]], s[1..], Unescaped(x));
      assert [s[0]] + s[1..] == s;
    }
  }

  lemma SpoiltLiteral(s: string, t: nat, y: string)
    requires Literal(s) && t < |s| && (y != [] ==> y[0] != s[t] && y[0] != '\'')
    ensures var r := ReadString("'" + s[..t] + y); r.Err? || r.value.0 != s
  {
    hide Unescaped, Find;
    var text := "'" + s[..t] + y;
    var body := text[1..];
    assert body == s[..t] + y;
    var end := Find(body, '\'');
    if end < |body| {
      assert forall i :: 0 <= i < t ==> body[i] == s[i] && s[i] in s;
      assert body[t] == y[0] != s[t];
      assert body[..end][t] == body[t];
    }
  }

  /** Such an item is no longer read as itself. */
  lemma SpoiltString(s: string, t: nat, w: string, x: string)
    requires Spoilt(s, t, w) && Follows(w, x)
    ensures var r := ReadString(Opened(s, t) + w + x); r.Err? || r.value.0 != s
  {
    hide Unescaped, EscapedAll, Find, Literal;
    var y := w + x;
    assert Opened(s, t) + w + x == Opened(s, t) + y;
    if Literal(s) {
      SpoiltLiteral(s, t, y);
    } else {
      assert (Opened(s, t) + y)[1..] == EscapedAll(s[..t]) + y;
      EscapedPrefix(s[..t], y);
      SpoiltRest(s, t, y);
    }
  }

  lemma SpoiltRest(s: string, t: nat, y: string)
    requires t < |s| && (y != [] ==> y[0] != s[t] && y[0] != '"' && y[0] != '\\')
    ensures var r := Prepend(s[..t], Unescaped(y)); r.Err? || r.value.0 != s
  {
    if y != [] && Unescaped(y).Ok? {
      var rest := Unescaped(y[1..]);
      assert Unescaped(y) == Prepend([y[0]], rest);
      assert (s[..t] + ([y[0]] + rest.value.0))[t] == y[0];
    }
  }

  // ---------------------------------------------------------------- its array

  function Front(items: seq<string>): string {
    if items == [] then "" else Quoted(items[0]) + "," + " " + Front(items[1..])
  }

  lemma {:induction false} FrontText(items: seq<string>, y: string)
    ensures ItemsText(items) + (" " + y) == " " + (Front(items) + y)
    decreases |items|
  {
    hide Quoted;
    if items == [] {
      assert Front(items) + y == y && "" + (" " + y) == " " + y;
    } else {
      FrontText(items[1..], y);
      var q := Quoted(items[0]) + ",";
      assert ItemsText(items) == " " + (q + ItemsText(items[1..]));
      assert ItemsText(items) + (" " + y) == " " + (q + (ItemsText(items[1..]) + (" " + y)));
      assert Front(items) + y == q + (" " + (Front(items[1..]) + y));
    }
  }

  lemma FrontStarts(items: seq<string>, y: string)
    requires y != [] && IsQuote(y[0])
    ensures var f := Front(items) + y; f != [] && IsQuote(f[0])
  {
    hide Quoted, Unbroken;
    if items != [] {
      QuotedUnbroken(items[0]);
    }
  }

  lemma {:induction false} ItemsAfterFront(items: seq<string>, y: string)
    requires y != [] && IsQuote(y[0])
    ensures Items(Front(items) + y) == PrependItems(items, Items(y))
    decreases |items|
  {
    hide Quoted, ReadString, Unbroken, TrimStart;
    if items == [] {
      assert Front(items) + y == y;
      PrependNoItems(Items(y));
    } else {
      var more := Front(items[1..]) + y;
      var after := "," + " " + more;
      assert Front(items) + y == Quoted(items[0]) + after;
      QuotedLexes(items[0], after);
      QuotedUnbroken(items[0]);
      CommaFirst(after);
      assert after[1..] == " " + more;
      FrontStarts(items[1..], y);
      TrimStartOnce(more);
      ItemsAfterFront(items[1..], y);
      PrependItemsTwice([items[0]], items[1..], Items(y));
      assert [items[0]] + items[1..] == items;
    }
  }

  lemma {:induction false} TrimEndKeeps(a: string, b: string)
    requires a != [] && !IsWhitespace(a[|a| - 1])
    ensures exists n: nat :: n <= |b| && TrimEnd(a + b) == a + b[..n]
    decreases |b|
  {
    if b == [] {
      assert a + b == a && TrimEnd(a) == a + b[..0];
    } else if IsWhitespace(b[|b| - 1]) {
      var b' := b[..|b| - 1];
      assert (a + b)[..|a + b| - 1] == a + b';
      TrimEndKeeps(a, b');
      var n: nat :| n <= |b'| && TrimEnd(a + b') == a + b'[..n];
      assert b'[..n] == b[..n];
    } else {
      assert TrimEnd(a + b) == a + b[..|b|];
    }
  }

  lemma OpenedEnds(s: string, t: nat, w: string)
    requires Spoilt(s, t, w)
    ensures var o := Opened(s, t) + w; o != [] && !IsWhitespace(o[|o| - 1]) && o[|o| - 1] != ']'
  {
    if w == "" {
      assert s[..t] == s[..t - 1] + ["["[0]];
      EscapedAppend(s[..t - 1], "[");
      assert EscapedAll("[") == "[" by { assert Escaped('[') == "["; assert "["[1..] == ""; assert "[" + "" == "["; }
      assert Opened(s, t) + w == Opened(s, t);
    }
  }

  /** Its array is refused or read as another list. */
  lemma SpoiltArray(before: seq<string>, s: string, after: seq<string>, t: nat, w: string, x: string)
    requires Spoilt(s, t, w) && Follows(w, x)
    ensures ReadValue("[" + ItemsText(before) + " " + (Opened(s, t) + w) + x) != Ok(List(before + [s] + after))
  {
    hide Quoted, ReadString, Trim, Opened, ParseI64, Front, ItemsText, TrimEnd;
    var o := Opened(s, t) + w;
    var text := "[" + ItemsText(before) + " " + o + x;
    OpenedEnds(s, t, w);
    if |text| > 1 && text[|text| - 1] == ']' {
      assert x == [] ==> o + x == o;
      assert text == "[" + ItemsText(before) + " " + (o + x);
      var x' := x[..|x| - 1];
      assert text[1..|text| - 1] == ItemsText(before) + (" " + (o + x'));
      FrontText(before, o + x');
      SpoiltItems(before, s, after, t, w, x');
    }
  }

  lemma SpoiltItems(before: seq<string>, s: string, after: seq<string>, t: nat, w: string, x: string)
    requires Spoilt(s, t, w) && Follows(w, x)
    ensures var r := Items(Trim(" " + (Front(before) + (Opened(s, t) + w + x))));
      r.Ok? ==> r.value != before + [s] + after
  {
    hide Quoted, ReadString, Opened, Front, TrimEnd, TrimStart, Items, IsWhitespace;
    var o := Opened(s, t) + w;
    var inner := Front(before) + (o + x);
    OpenedEnds(s, t, w);
    FrontStarts(before, o + x);
    QuoteFirm();
    TrimStartOnce(inner);
    var a := Front(before) + o;
    assert inner == a + x;
    TrimEndKeeps(a, x);
    var n: nat :| n <= |x| && TrimEnd(a + x) == a + x[..n];
    assert a + x[..n] == Front(before) + (o + x[..n]);
    ItemsAfterFront(before, o + x[..n]);
    SpoiltString(s, t, w, x[..n]);
    SpoiltFirst(s, o + x[..n]);
    var r := Items(o + x[..n]);
    if r.Ok? {
      assert (before + r.value)[|before|] == r.value[0];
      assert (before + [s] + after)[|before|] == s;
    }
  }

  lemma QuoteFirm()
    ensures !IsWhitespace('"') && !IsWhitespace('\'')
  {}

  lemma SpoiltFirst(s: string, y: string)
    requires y != [] && (ReadString(y).Err? || ReadString(y).value.0 != s)
    ensures var r := Items(y); r.Ok? ==> r.value != [] && r.value[0] != s
  {
    hide ReadString, TrimStart;
  }

  // ---------------------------------------------------------------- its entry

  /** What an array's first lines put together stays its beginning. */
  lemma {:induction false} GatheredExtends(lines: seq<string>, j: nat, text: string)
    requires j <= |lines|
    ensures var g := Gathered(lines, j, text);
      g.Some? ==> text <= g.value.0 && Follows("", g.value.0[|text|..])
    decreases |lines| - j
  {
    hide OpenArray, Trim, WithoutComment;
    if OpenArray(text) && j < |lines| {
      var next := text + " " + Trim(WithoutComment(lines[j]));
      GatheredExtends(lines, j + 1, next);
      var g := Gathered(lines, j + 1, next);
      if g.Some? {
        assert next[..|text|] == text && next[|text|] == ' ';
        assert g.value.0[..|text|] == g.value.0[..|next|][..|text|];
        assert g.value.0[|text|..][0] == g.value.0[..|next|][|text|];
      }
    }
  }

  lemma CommentLiteralOpened(s: string, t: nat, y: string)
    requires Literal(s) && t <= |s|
    ensures CommentAt("'" + s[..t] + y, None, false) == 1 + t + CommentAt(y, Some('\''), false)
  {
    var text := "'" + s[..t] + y;
    var body := text[1..];
    assert body == s[..t] + y;
    forall k | 0 <= k < t ensures body[k] != '\'' {
      assert body[k] == s[k] && s[k] in s;
    }
    CommentLiteral(body, t);
    assert body[t..] == y;
  }

  lemma CommentEscapedOpened(s: string, t: nat, y: string)
    requires t <= |s|
    ensures CommentAt("\"" + EscapedAll(s[..t]) + y, None, false)
         == 1 + |EscapedAll(s[..t])| + CommentAt(y, Some('"'), false)
  {
    hide EscapedAll;
    var text := "\"" + EscapedAll(s[..t]) + y;
    assert text[1..] == EscapedAll(s[..t]) + y;
    EscapedPrefix(s[..t], y);
  }

  lemma CommentW(w: string, z: string, quote: char)
    requires w == "w" || (w == "" && z == "")
    requires IsQuote(quote)
    ensures CommentAt(w + z, Some(quote), false) >= |w|
  {}

  lemma CommentOpened(s: string, t: nat, w: string, z: string)
    requires Spoilt(s, t, w)
    requires w == "" ==> z == ""
    ensures CommentAt(Opened(s, t) + w + z, None, false) >= |Opened(s, t) + w|
  {
    hide EscapedAll, CommentAt, Literal;
    assert Opened(s, t) + w + z == Opened(s, t) + (w + z);
    CommentW(w, z, '"');
    CommentW(w, z, '\'');
    if Literal(s) {
      CommentLiteralOpened(s, t, w + z);
    } else {
      CommentEscapedOpened(s, t, w + z);
    }
  }

  /** The line of such an item as it is put to the array's text. */
  lemma SpoiltLine(s: string, t: nat, w: string, z: string)
    requires Spoilt(s, t, w)
    requires w == "" ==> z == ""
    ensures var l := Trim(WithoutComment("    " + (Opened(s, t) + w + z)));
      var o := Opened(s, t) + w;
      o <= l && (w == "" ==> l == o)
  {
    hide Opened, CommentAt, TrimStart, TrimEnd, IsWhitespace;
    var o := Opened(s, t) + w;
    var line := "    " + (o + z);
    CommentOpened(s, t, w, z);
    CommentBare("    ", o + z);
    var n := CommentAt(o + z, None, false) - |o|;
    assert line[..|line|] == line;
    assert WithoutComment(line) == "    " + (o + z[..n]);
    OpenedEnds(s, t, w);
    QuoteFirm();
    TrimStartSpaces(4, o + z[..n]);
    assert seq(4, _ => ' ') == "    ";
    TrimEndKeeps(o, z[..n]);
    var m: nat :| m <= |z[..n]| && TrimEnd(o + z[..n]) == o + z[..n][..m];
    assert (o + z[..n][..m])[..|o|] == o;
    assert z == "" ==> o + z[..n][..m] == o;
  }

  function ListOf(c: Config, key: string): seq<string> {
    if key == "origins" then c.origins else c.databases
  }

  predicate IsList(key: string) {
    key == "origins" || key == "databases"
  }

  /** The entry of a list with a spoilt item fails or gives another list. */
  lemma SpoiltEntry(lines: seq<string>, i: nat, key: string, before: seq<string>, s: string, after: seq<string>,
                    t: nat, w: string, z: string, c: Config)
    requires IsList(key) && Spoilt(s, t, w)
    requires w == "" ==> z == ""
    requires i + |before| + 1 < |lines| && lines[i] == key + " = ["
    requires forall k :: 0 <= k < |before| ==> lines[i + 1 + k] == ItemLine(before[k])
    requires lines[i + 1 + |before|] == "    " + (Opened(s, t) + w + z)
    ensures var r := Entry(lines, i, c); r.Ok? ==> ListOf(r.value.0, key) != before + [s] + after
  {
    hide WithoutComment, CommentAt, Trim, Assign, ReadValue, Find, OpenArray;
    hide Firm, IsKey, Gathered, ItemsText, Opened, ItemLine;
    Keys();
    EmptyArray();
    ValueLine(key, "[");
    assert key + " = [" == key + " = " + "[";
    assert lines[i][|key| + 1 + 1..] == lines[i][|key| + 2..];
    SpoiltGathers(lines, i, before, s, t, w, z);
    var g := Gathered(lines, i + 1, "[");
    if g.Some? {
      var x :| g.value.0 == "[" + ItemsText(before) + " " + (Opened(s, t) + w) + x && Follows(w, x);
      SpoiltArray(before, s, after, t, w, x);
      ListAssigns(c, key, ReadValue(g.value.0), before + [s] + after);
    }
  }

  lemma ListAssigns(c: Config, key: string, v: Result<Value, Fault>, items: seq<string>)
    requires IsList(key) && v != Ok(List(items))
    ensures v.Ok? ==> var r := Assign(c, key, v.value); r.Ok? ==> ListOf(r.value, key) != items
  {}

  lemma SpoiltGathers(lines: seq<string>, i: nat, before: seq<string>, s: string, t: nat, w: string, z: string)
    requires Spoilt(s, t, w)
    requires w == "" ==> z == ""
    requires i + |before| + 1 < |lines|
    requires forall k :: 0 <= k < |before| ==> lines[i + 1 + k] == ItemLine(before[k])
    requires lines[i + 1 + |before|] == "    " + (Opened(s, t) + w + z)
    ensures var g := Gathered(lines, i + 1, "[");
      g.Some? ==> exists x :: g.value.0 == "[" + ItemsText(before) + " " + (Opened(s, t) + w) + x && Follows(w, x)
  {
    hide Neutral, HasClose, Quoted, Trim, WithoutComment, ItemLine, ItemsText, Opened;
    OpeningNeutral();
    GatherItems(lines, i + 1, "[", before);
    var acc := "[" + ItemsText(before);
    NeutralOpen(acc);
    SpoiltLine(s, t, w, z);
    var o := Opened(s, t) + w;
    var l := Trim(WithoutComment(lines[i + 1 + |before|]));
    var next := acc + " " + l;
    assert Gathered(lines, i + 1, "[") == Gathered(lines, i + 2 + |before|, next);
    GatheredExtends(lines, i + 2 + |before|, next);
    var g := Gathered(lines, i + 1, "[");
    if g.Some? {
      var x := l[|o|..] + g.value.0[|next|..];
      assert l == o + l[|o|..];
      assert g.value.0 == next + g.value.0[|next|..] == acc + " " + o + x;
      if w == "" {
        assert l[|o|..] == "" && x == g.value.0[|next|..];
      }
    }
  }

  // ---------------------------------------------------------------- the lines after it

  /** A line that gives no value to a key that starts with `c`. */
  predicate StartsOk(u: string, c: char) {
    || u == []
    || (u[0] != c && (u[0] == '\n' || !IsWhitespace(u[0])))
    || (|u| >= 5 && u[..4] == "    " && IsQuote(u[4]) && c != u[4])
  }

  lemma TrimEndPrefix(s: string)
    ensures TrimEnd(s) <= s
  {}

  lemma StartsTrimmed(u: string, c: char, n: nat)
    requires StartsOk(u, c) && n <= |u| && (u != [] ==> u[0] != '\n')
    ensures var l := Trim(u[..n]); l != [] ==> l[0] != c
  {
    hide TrimEnd, IsWhitespace;
    var m := u[..n];
    TrimEndPrefix(TrimStart(m));
    if u != [] && !(u[0] != c && (u[0] == '\n' || !IsWhitespace(u[0]))) {
      QuoteFirm();
      assert seq(4, _ => ' ') == "    ";
      if n <= 4 {
        AllSpaces(m);
      } else {
        assert m == "    " + m[4..];
        TrimStartSpaces(4, m[4..]);
      }
    } else if m != [] {
      StartFirm(m);
    }
  }

  lemma StartFirm(m: string)
    requires m != [] && !IsWhitespace(m[0])
    ensures TrimStart(m) == m
  {}

  lemma {:induction false} AllSpaces(m: string)
    requires forall i :: 0 <= i < |m| ==> m[i] == ' '
    ensures TrimStart(m) == ""
  {
    if m != [] {
      AllSpaces(m[1..]);
    }
  }

  /** Such a line leaves the list as it is. */
  lemma EntryKeeps(lines: seq<string>, i: nat, key: string, c: Config)
    requires IsList(key) && i < |lines| && '\n' !in lines[i] && StartsOk(lines[i], key[0])
    ensures var r := Entry(lines, i, c); r.Ok? ==> ListOf(r.value.0, key) == ListOf(c, key)
  {
    hide CommentAt, Gathered, ReadValue, StartsOk, TrimStart, TrimEnd, Find, Assign;
    StartsTrimmed(lines[i], key[0], CommentAt(lines[i], None, false));
    var line := Trim(WithoutComment(lines[i]));
    var eq := Find(line, '=');
    if line != [] && eq < |line| {
      TrimmedFirst(lines[i][..CommentAt(lines[i], None, false)], eq);
      var k := Trim(line[..eq]);
      assert k != key;
      forall v: Value {
        OtherKey(c, k, v, key);
      }
    }
  }

  /** The first character of trimmed text stays first when its beginning is trimmed. */
  lemma TrimmedFirst(s: string, n: nat)
    requires n <= |Trim(s)|
    ensures var k := Trim(Trim(s)[..n]); k != [] ==> k[0] == Trim(s)[0]
  {
    hide IsWhitespace;
    var l := Trim(s);
    TrimStartFirm(s);
    TrimEndPrefix(TrimStart(s));
    TrimEndPrefix(TrimStart(l[..n]));
    if n > 0 {
      assert l[..n][0] == l[0] == TrimStart(s)[0];
      StartFirm(l[..n]);
    }
  }

  lemma {:induction false} TrimStartFirm(s: string)
    ensures TrimStart(s) != [] ==> !IsWhitespace(TrimStart(s)[0])
  {
    if s != [] && IsWhitespace(s[0]) {
      TrimStartFirm(s[1..]);
    }
  }

  lemma OtherKey(c: Config, k: string, v: Value, key: string)
    requires IsList(key) && k != key
    ensures var r := Assign(c, k, v); r.Ok? ==> ListOf(r.value, key) == ListOf(c, key)
  {}

  lemma {:induction false} ParseKeeps(lines: seq<string>, i: nat, key: string, c: Config)
    requires IsList(key) && i <= |lines|
    requires forall j :: i <= j < |lines| ==> '\n' !in lines[j] && StartsOk(lines[j], key[0])
    ensures var r := ParseLines(lines, i, c); r.Ok? ==> ListOf(r.value, key) == ListOf(c, key)
    decreases |lines| - i
  {
    hide Entry, StartsOk;
    if i < |lines| {
      EntryKeeps(lines, i, key, c);
      var r := Entry(lines, i, c);
      if r.Ok? {
        ParseKeeps(lines, r.value.1, key, r.value.0);
      }
    }
  }

  /** A file with a spoilt item in a list is refused, or read with another list. */
  lemma SpoiltFile(lines: seq<string>, i: nat, key: string, before: seq<string>, s: string, after: seq<string>,
                   t: nat, w: string, z: string, c: Config)
    requires IsList(key) && Spoilt(s, t, w)
    requires w == "" ==> z == ""
    requires i + |before| + 1 < |lines| && lines[i] == key + " = ["
    requires forall k :: 0 <= k < |before| ==> lines[i + 1 + k] == ItemLine(before[k])
    requires lines[i + 1 + |before|] == "    " + (Opened(s, t) + w + z)
    requires forall j :: i < j < |lines| ==> '\n' !in lines[j] && StartsOk(lines[j], key[0])
    ensures var r := ParseLines(lines, i, c); r.Ok? ==> ListOf(r.value, key) != before + [s] + after
  {
    hide Entry, StartsOk, Opened, ItemLine;
    SpoiltEntry(lines, i, key, before, s, after, t, w, z, c);
    var r := Entry(lines, i, c);
    if r.Ok? {
      ParseKeeps(lines, r.value.1, key, r.value.0);
    }
  }
}
