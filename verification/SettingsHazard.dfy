/** When a value holds the marker of a later one: `render` writes a file that does not
    read back. With the round trip of the other files this says exactly which settings
    survive being saved. */
module SettingsHazard {
  import opened Text
  import opened Wrappers
  import opened Hex
  import opened SettingsFile
  import opened SettingsLines
  import opened SettingsParse
  import opened SettingsLexers
  import opened SettingsRoundTrip
  import opened SettingsSpoiled

  // ---------------------------------------------------------------- where a marker is

  lemma EscapedHolds(c: char, k: nat)
    requires k < |Escaped(c)| && Escaped(c)[k] in ['[', ']', '#']
    ensures Escaped(c) == [c]
  {
    if IsControl(c) {
      ControlHolds(c);
    }
  }

  lemma ControlHolds(c: char)
    requires IsControl(c)
    ensures forall k :: 0 <= k < |Escaped(c)| ==> Escaped(c)[k] != '[' && Escaped(c)[k] != ']' && Escaped(c)[k] != '#'
  {
    hide HexDigit;
    HexHolds(c as nat);
    var e := Escaped(c);
    assert e == "\\u" + Hex4(c as nat);
    assert forall k :: 2 <= k < |e| ==> e[k] == Hex4(c as nat)[k - 2];
  }

  lemma HexHolds(n: nat)
    requires n < 0x1_0000
    ensures forall k :: 0 <= k < 4 ==> Hex4(n)[k] != '[' && Hex4(n)[k] != ']' && Hex4(n)[k] != '#'
  {}

  /** A character of a marker that no escape holds stands for itself. */
  lemma {:induction false} EscapedPosition(s: string, j: nat) returns (t: nat)
    requires j < |EscapedAll(s)| && EscapedAll(s)[j] in ['[', ']', '#']
    ensures t < |s| && s[t] == EscapedAll(s)[j] && EscapedAll(s[..t]) == EscapedAll(s)[..j]
    decreases |s|
  {
    hide Escaped, EscapedAll;
    t := 0;
    NothingEscaped();
    if s != [] {
      var (s', c) := (s[..|s| - 1], s[|s| - 1]);
      assert s == s' + [c];
      EscapedAppend(s', [c]);
      EscapedOne(c);
      if j < |EscapedAll(s')| {
        t := EscapedPosition(s', j);
        assert s'[..t] == s[..t];
        assert EscapedAll(s)[..j] == EscapedAll(s')[..j];
      } else {
        EscapedHolds(c, j - |EscapedAll(s')|);
        t := |s| - 1;
        assert EscapedAll(s)[..j] == EscapedAll(s');
      }
    }
  }

  lemma LastEscaped(s: string)
    requires EscapedAll(s) != [] && EscapedAll(s)[|EscapedAll(s)| - 1] == '['
    ensures s != [] && s[|s| - 1] == '['
  {
    hide EscapedAll;
    NothingEscaped();
    var j := |EscapedAll(s)| - 1;
    var t := EscapedPosition(s, j);
    assert s[..t + 1] == s[..t] + [s[t]];
    EscapedAppend(s[..t], [s[t]]);
    EscapedOne(s[t]);
    EscapedAppend(s[..t + 1], s[t + 1..]);
    assert s == s[..t + 1] + s[t + 1..];
    EscapedSome(s[t + 1..]);
  }

  lemma EscapedSome(s: string)
    ensures s != [] ==> EscapedAll(s) != []
  {
    hide Escaped;
    if s != [] {
      EscapedUnbroken(s[0]);
    }
  }

  /** A quoted string up to such a character is the string opened up to it. */
  lemma QuotedPosition(s: string, j: nat) returns (t: nat)
    requires j < |Quoted(s)| && Quoted(s)[j] in ['[', ']', '#']
    ensures t < |s| && s[t] == Quoted(s)[j] && Opened(s, t) == Quoted(s)[..j]
  {
    hide EscapedAll;
    if Literal(s) {
      t := j - 1;
      assert Quoted(s)[j] == s[j - 1];
      assert Quoted(s)[..j] == "'" + s[..t];
    } else {
      t := EscapedPosition(s, j - 1);
      assert Quoted(s)[..j] == "\"" + EscapedAll(s)[..j - 1];
    }
  }

  lemma MarkerBracket(s: string, i: nat) returns (t: nat)
    requires OccursAt(DATABASES, Quoted(s), i)
    ensures Spoilt(s, t, "") && i + 13 < |Quoted(s)| && Opened(s, t) == Quoted(s)[..i + 13]
  {
    hide Quoted, EscapedAll, Literal;
    var (q, m) := (Quoted(s), Quoted(s)[i..i + 14]);
    assert m[13] == q[i + 13] == ']' && m[12] == q[i + 12] == '[';
    t := QuotedPosition(s, i + 13);
    OpenedLast(s, t);
  }

  lemma OpenedLast(s: string, t: nat)
    requires t <= |s| && |Opened(s, t)| > 1 && Opened(s, t)[|Opened(s, t)| - 1] == '['
    ensures t > 0 && s[t - 1] == '['
  {
    hide EscapedAll, Literal;
    if !Literal(s) {
      LastEscaped(s[..t]);
    }
  }

  lemma MarkerHash(s: string, i: nat) returns (t: nat)
    requires OccursAt(WEB, Quoted(s), i)
    ensures Spoilt(s, t, "w") && i < |Quoted(s)| && Opened(s, t) == Quoted(s)[..i]
  {
    hide Quoted, EscapedAll, Literal, Opened;
    assert Quoted(s)[i..i + |WEB|][0] == Quoted(s)[i] == '#';
    t := QuotedPosition(s, i);
  }

  // ---------------------------------------------------------------- a marker replaced

  lemma {:induction false} ReplaceFirst(s: string, p: string, value: string, i: nat)
    requires p != [] && OccursAt(p, s, i) && forall j :: 0 <= j < i ==> !OccursAt(p, s, j)
    ensures Replace(s, p, value) == s[..i] + value + Replace(s[i + |p|..], p, value)
    decreases i
  {
    hide OccursAt, Replace;
    OccursWithin(p, s, i);
    ReplaceStep(s, p, value);
    if i == 0 {
      OccursFirst(p, s);
      assert s[..0] + value == value && s[0 + |p|..] == s[|p|..];
    } else {
      OccursFirst(p, s);
      OccursLater(p, s, i - 1);
      forall j | 0 <= j < i - 1 ensures !OccursAt(p, s[1..], j) {
        assert !OccursAt(p, s, j + 1);
        OccursLater(p, s, j);
      }
      ReplaceFirst(s[1..], p, value, i - 1);
      assert s[1..][i - 1 + |p|..] == s[i + |p|..];
      assert [s[0]] + s[1..][..i - 1] == s[..i];
    }
  }

  lemma ReplaceStep(s: string, p: string, value: string)
    requires 0 < |p| <= |s|
    ensures Replace(s, p, value)
         == if s[..|p|] == p then value + Replace(s[|p|..], p, value) else [s[0]] + Replace(s[1..], p, value)
  {}

  lemma OccursWithin(p: string, s: string, i: nat)
    requires OccursAt(p, s, i)
    ensures i + |p| <= |s|
  {}

  lemma OccursFirst(p: string, s: string)
    ensures OccursAt(p, s, 0) <==> |p| <= |s| && s[..|p|] == p
  {}

  lemma OccursLater(p: string, s: string, j: nat)
    requires s != []
    ensures OccursAt(p, s[1..], j) <==> OccursAt(p, s, j + 1)
  {
    if j + |p| <= |s[1..]| {
      assert s[1..][j..j + |p|] == s[j + 1..j + 1 + |p|];
    }
  }

  lemma First(p: string, s: string) returns (i: nat)
    requires Occurs(p, s)
    ensures OccursAt(p, s, i) && forall j :: 0 <= j < i ==> !OccursAt(p, s, j)
  {
    var k :| OccursAt(p, s, k);
    i := Least(p, s, k);
  }

  lemma Least(p: string, s: string, k: nat) returns (i: nat)
    requires OccursAt(p, s, k)
    ensures OccursAt(p, s, i) && forall j :: 0 <= j < i ==> !OccursAt(p, s, j)
    decreases k
  {
    if j: nat :| j < k && OccursAt(p, s, j) {
      i := Least(p, s, j);
    } else {
      i := k;
    }
  }

  function DatabasesPut(c: Config, text: string): string {
    Replace(text, DATABASES, "databases = " + ListText(c.databases))
  }

  function WebPut(c: Config, text: string): string {
    Replace(text, WEB, WebLine(c.web))
  }

  ghost predicate WebIn(c: Config, text: string) {
    c.web != DEFAULT_WEB && Occurs(WEB, text)
  }

  ghost predicate DatabasesIn(c: Config, text: string) {
    c.databases != [] && Occurs(DATABASES, text)
  }

  lemma WebNotIn(c: Config, text: string)
    requires !WebIn(c, text)
    ensures WebPut(c, text) == text
  {
    hide Replace, Occurs;
    if c.web == DEFAULT_WEB {
      Defaults();
      ReplaceBySame(text, WEB);
    } else {
      ReplaceNone(text, WEB, WebLine(c.web));
    }
  }

  lemma DatabasesNotIn(c: Config, text: string)
    requires !DatabasesIn(c, text)
    ensures DatabasesPut(c, text) == text
  {
    hide Replace, Occurs;
    if c.databases == [] {
      Defaults();
      ReplaceBySame(text, DATABASES);
    } else {
      ReplaceNone(text, DATABASES, "databases = " + ListText(c.databases));
    }
  }

  /** `text` is the line of item `s` cut after `t` characters and gone on with `w`, then
      `u`, which starts a new line where the closing bracket was. */
  ghost predicate CutLine(text: string, s: string, t: nat, w: string, u: string) {
    Spoilt(s, t, w) && text == "    " + (Opened(s, t) + w + u) && (w == "" ==> u != [] && u[0] == '\n')
  }

  lemma WebStart(c: Config)
    requires c.web != DEFAULT_WEB
    ensures WebLine(c.web) == "w" + ("eb = " + Quoted(c.web))
  {
    hide Quoted;
    assert "w" + "eb = " == "web = ";
  }

  /** The web site's marker in the beginning `a` of an item's line. */
  lemma CutAtWeb(c: Config, s: string, a: string) returns (t: nat, u: string)
    requires a <= ItemLine(s) && WebIn(c, a)
    ensures CutLine(WebPut(c, a), s, t, "w", u)
  {
    hide Replace, Quoted, Opened, WebLine, Spoilt;
    var j := First(WEB, a);
    var line := ItemLine(s);
    assert line[j..j + |WEB|] == a[j..j + |WEB|];
    InItemAt(WEB, s, j);
    t := MarkerHash(s, j - 4);
    SpoiltWithin(s, t, "w");
    WebStart(c);
    ReplaceFirst(a, WEB, WebLine(c.web), j);
    var more := Replace(a[j + |WEB|..], WEB, WebLine(c.web));
    u := "eb = " + Quoted(c.web) + more;
    assert a[..j] == line[..j] == "    " + Quoted(s)[..j - 4];
    assert WebPut(c, a) == "    " + (Opened(s, t) + "w" + u);
  }

  lemma SpoiltWithin(s: string, t: nat, w: string)
    requires Spoilt(s, t, w)
    ensures t < |s|
  {}

  lemma InItemAt(p: string, item: string, i: nat)
    requires p == DATABASES || p == WEB
    requires OccursAt(p, ItemLine(item), i)
    ensures i >= 4 && OccursAt(p, Quoted(item), i - 4) && i + |p| - 4 <= |Quoted(item)|
  {
    hide Quoted;
    var (l, q, n) := (ItemLine(item), Quoted(item), |p|);
    assert l[i] == l[i..i + n][0] && l[i + n - 1] == l[i..i + n][n - 1];
    assert q[i - 4..i - 4 + n] == l[i..i + n];
  }

  lemma DatabasesStart(c: Config)
    requires c.databases != []
    ensures "databases = " + ListText(c.databases)
         == ['d'] + ("atabases = [" + ['\n'] + (Joined(ItemLines(c.databases)) + "]"))
  {
    hide Joined, ItemLines;
    assert ['d'] + "atabases = [" == "databases = " + "[";
    assert ListText(c.databases) == "[" + ['\n'] + (Joined(ItemLines(c.databases)) + "]");
  }

  lemma WebMarker()
    ensures '\n' !in WEB && 'd' !in WEB && !Occurs(WEB, "atabases = [") && '\n' !in DATABASES
  {
    hide Occurs;
    WebHash();
    WebLacks();
    NoChar(WEB, "atabases = [", '#');
    assert Unbroken(DATABASES);
  }

  predicate NoLine(s: string) {
    forall i :: 0 <= i < |s| ==> s[i] != '\n' && s[i] != 'd'
  }

  lemma WebHash()
    ensures '#' in WEB
  {
    assert WEB[0] == '#';
  }

  lemma WebLacks()
    ensures '\n' !in WEB && 'd' !in WEB
  {
    assert NoLine(WEB);
  }

  /** An item that holds a marker: its line is cut where the first one was. */
  lemma ItemCut(c: Config, s: string) returns (t: nat, w: string, u: string)
    requires DatabasesIn(c, Quoted(s)) || WebIn(c, Quoted(s))
    ensures CutLine(WebPut(c, DatabasesPut(c, ItemLine(s))), s, t, w, u)
  {
    hide Replace, Quoted, Opened, WebLine, Occurs, Spoilt, ListText, Joined, ItemLines;
    var line := ItemLine(s);
    WithinLine(DATABASES, s);
    WithinLine(WEB, s);
    if DatabasesIn(c, line) {
      var i := First(DATABASES, line);
      var (a, rest) := (line[..i], DatabasesPut(c, line[i + 14..]));
      var items := Joined(ItemLines(c.databases)) + "]" + rest;
      ReplaceFirst(line, DATABASES, "databases = " + ListText(c.databases), i);
      DatabasesStart(c);
      assert DatabasesPut(c, line) == a + ['d'] + ("atabases = [" + ['\n'] + items);
      WebMarker();
      ReplaceAcross(a, 'd', "atabases = [" + ['\n'] + items, WEB, WebLine(c.web));
      ReplaceAcross("atabases = [", '\n', items, WEB, WebLine(c.web));
      ReplaceNone("atabases = [", WEB, WebLine(c.web));
      var after := ['d'] + ("atabases = [" + ['\n'] + WebPut(c, items));
      assert WebPut(c, DatabasesPut(c, line)) == WebPut(c, a) + after;
      if WebIn(c, a) {
        w := "w";
        t, u := CutAtWeb(c, s, a);
        assert WebPut(c, a) + after == "    " + (Opened(s, t) + w + (u + after)) by { SpoiltWithin(s, t, w); }
        u := u + after;
      } else {
        WebNotIn(c, a);
        w := "";
        u := ['\n'] + WebPut(c, items);
        t := CutAtDatabases(s, i, WebPut(c, items));
      }
    } else {
      DatabasesNotIn(c, line);
      w := "w";
      t, u := CutAtWeb(c, s, line);
    }
  }

  lemma CutAtDatabases(s: string, i: nat, items: string) returns (t: nat)
    requires OccursAt(DATABASES, ItemLine(s), i)
    ensures CutLine(ItemLine(s)[..i] + (['d'] + ("atabases = [" + ['\n'] + items)), s, t, "", ['\n'] + items)
  {
    hide Quoted, Opened, Spoilt;
    var line := ItemLine(s);
    InItemAt(DATABASES, s, i);
    t := MarkerBracket(s, i - 4);
    SpoiltWithin(s, t, "");
    assert line[i..i + 14] == DATABASES;
    assert line[i..i + 14][..13] == line[i..i + 13] == DATABASES[..13] == ['d'] + "atabases = [";
    assert line[..i] + line[i..i + 13] == line[..i + 13] == "    " + Quoted(s)[..i - 4 + 13];
    assert line[..i] + (['d'] + ("atabases = [" + ['\n'] + items)) == line[..i + 13] + (['\n'] + items);
    assert Opened(s, t) + "" + (['\n'] + items) == Opened(s, t) + (['\n'] + items);
  }

  /** A marker in a quoted value is in its line. */
  lemma WithinLine(p: string, s: string)
    ensures Occurs(p, Quoted(s)) ==> Occurs(p, ItemLine(s))
  {
    hide Quoted;
    if i :| OccursAt(p, Quoted(s), i) {
      assert ItemLine(s)[i + 4..i + 4 + |p|] == Quoted(s)[i..i + |p|];
      assert OccursAt(p, ItemLine(s), i + 4);
    }
  }

  // ---------------------------------------------------------------- where lines start

  /** Every line of `u` but the first starts well. */
  ghost predicate InnerOk(u: string, c: char) {
    forall i :: 0 < i <= |u| && u[i - 1] == '\n' ==> StartsOk(u[i..], c)
  }

  ghost predicate TextOk(u: string, c: char) {
    StartsOk(u, c) && InnerOk(u, c)
  }

  lemma InnerSuffix(a: string, b: string, c: char)
    requires InnerOk(a + b, c)
    ensures InnerOk(b, c)
  {
    hide StartsOk;
    forall i | 0 < i <= |b| && b[i - 1] == '\n' ensures StartsOk(b[i..], c) {
      assert (a + b)[|a| + i - 1] == '\n' && (a + b)[|a| + i..] == b[i..];
    }
  }

  lemma StartsLonger(a: string, b: string, c: char)
    requires StartsOk(a, c) && (a != [] || StartsOk(b, c))
    ensures StartsOk(a + b, c)
  {
    if a == [] {
      assert a + b == b;
    } else {
      assert |a| >= 5 ==> (a + b)[..4] == a[..4];
    }
  }

  lemma InnerAppend(a: string, b: string, c: char)
    requires InnerOk(a, c) && InnerOk(b, c)
    requires a != [] && a[|a| - 1] == '\n' ==> StartsOk(b, c)
    ensures InnerOk(a + b, c)
  {
    hide StartsOk;
    forall i | 0 < i <= |a + b| && (a + b)[i - 1] == '\n' ensures StartsOk((a + b)[i..], c) {
      if i <= |a| {
        assert (a + b)[i - 1] == a[i - 1] && (a + b)[i..] == a[i..] + b;
        StartsLonger(a[i..], b, c);
      } else {
        assert (a + b)[i - 1] == b[i - |a| - 1] && (a + b)[i..] == b[i - |a|..];
      }
    }
  }

  lemma InnerUnbroken(a: string, c: char)
    requires '\n' !in a
    ensures InnerOk(a, c)
  {
    hide StartsOk;
    forall i | 0 <= i < |a| ensures a[i] != '\n' {
      assert a[i] in a;
    }
  }

  ghost predicate LineOk(l: string, c: char) {
    '\n' !in l && StartsOk(l, c)
  }

  lemma {:induction false} JoinedOk(lines: seq<string>, c: char)
    requires c != '\n' && forall l | l in lines :: LineOk(l, c)
    ensures TextOk(Joined(lines), c)
  {
    hide StartsOk;
    if lines == [] {
      StartsNothing(c);
    } else {
      var (l, rest) := (lines[0], Joined(lines[1..]));
      assert LineOk(l, c);
      JoinedOk(lines[1..], c);
      InnerUnbroken(l, c);
      StartsNewline(c);
      NewlineOk(rest, c);
      InnerAppend(l, "\n" + rest, c);
      StartsNewlineThen(rest, c);
      StartsLonger(l, "\n" + rest, c);
      assert Joined(lines) == l + ("\n" + rest);
    }
  }

  lemma StartsNothing(c: char)
    ensures StartsOk("", c)
  {}

  lemma StartsNewline(c: char)
    requires c != '\n'
    ensures StartsOk("\n", c)
  {}

  lemma StartsNewlineThen(rest: string, c: char)
    requires c != '\n'
    ensures StartsOk("\n" + rest, c)
  {}

  lemma NewlineOk(rest: string, c: char)
    requires TextOk(rest, c)
    ensures InnerOk("\n" + rest, c)
  {
    hide StartsOk;
    var u := "\n" + rest;
    forall i | 0 < i <= |u| && u[i - 1] == '\n' ensures StartsOk(u[i..], c) {
      assert u[i..] == rest[i - 1..];
      if i == 1 {
        assert rest[0..] == rest;
      } else {
        assert u[i - 1] == rest[i - 2];
      }
    }
  }

  /** Text to be put in for a marker, whose lines start well. */
  ghost predicate PutOk(p: string, v: string, c: char) {
    && p != [] && p[0] != ' ' && !IsQuote(p[0])
    && v != [] && v[0] != c && !IsWhitespace(v[0]) && v[|v| - 1] != '\n' && InnerOk(v, c)
  }

  lemma CopyOne(t: string, p: string, v: string)
    requires p != [] && t != [] && t[0] != p[0]
    ensures Replace(t, p, v) == [t[0]] + Replace(t[1..], p, v)
  {}

  lemma StartsReplaced(t: string, p: string, v: string, c: char)
    requires PutOk(p, v, c) && StartsOk(t, c)
    ensures StartsOk(Replace(t, p, v), c)
  {
    hide Replace, InnerOk, IsWhitespace;
    if t == [] {
      ReplaceEmpty(p, v);
    } else if t[0] != c && (t[0] == '\n' || !IsWhitespace(t[0])) {
      if |p| <= |t| {
        ReplaceStep(t, p, v);
      } else {
        ReplaceShort(t, p, v);
      }
    } else {
      IndentReplaced(t, p, v);
    }
  }

  lemma ReplaceShort(t: string, p: string, v: string)
    requires p != [] && |t| < |p|
    ensures Replace(t, p, v) == t
  {}

  lemma IndentReplaced(t: string, p: string, v: string)
    requires p != [] && p[0] != ' ' && !IsQuote(p[0])
    requires |t| >= 5 && t[..4] == "    " && IsQuote(t[4])
    ensures var r := Replace(t, p, v); |r| >= 5 && r[..4] == "    " && r[4] == t[4]
  {
    hide Replace;
    assert t[0] == t[..4][0] && t[1] == t[..4][1] && t[2] == t[..4][2] && t[3] == t[..4][3];
    CopyOne(t, p, v);
    CopyOne(t[1..], p, v);
    CopyOne(t[1..][1..], p, v);
    CopyOne(t[1..][1..][1..], p, v);
    CopyOne(t[1..][1..][1..][1..], p, v);
  }

  lemma {:induction false} InnerReplaced(t: string, p: string, v: string, c: char)
    requires PutOk(p, v, c) && InnerOk(t, c)
    ensures InnerOk(Replace(t, p, v), c)
    decreases |t|
  {
    hide Replace, StartsOk, InnerOk, IsWhitespace;
    if |t| < |p| {
      ReplaceShort(t, p, v);
    } else {
      ReplaceStep(t, p, v);
      if t[..|p|] == p {
        assert t == t[..|p|] + t[|p|..];
        InnerSuffix(t[..|p|], t[|p|..], c);
        InnerReplaced(t[|p|..], p, v, c);
        InnerAppend(v, Replace(t[|p|..], p, v), c);
      } else {
        assert t == [t[0]] + t[1..];
        InnerSuffix([t[0]], t[1..], c);
        InnerReplaced(t[1..], p, v, c);
        InnerFirst(t, c);
        if t[0] == '\n' {
          StartsReplaced(t[1..], p, v, c);
          NewlineOk(Replace(t[1..], p, v), c);
          assert "\n" == [t[0]];
        } else {
          InnerUnbroken([t[0]], c);
          InnerAppend([t[0]], Replace(t[1..], p, v), c);
        }
      }
    }
  }

  lemma InnerFirst(t: string, c: char)
    requires t != [] && (t[0] == '\n' ==> InnerOk(t, c))
    ensures t[0] == '\n' ==> StartsOk(t[1..], c)
  {
    hide StartsOk;
  }

  lemma LinesOk(u: string, c: char)
    requires TextOk(u, c)
    ensures forall l | l in Lines(u) :: LineOk(l, c)
  {
    hide StartsOk;
    if u != [] {
      var i := Find(u, '\n');
      FirstLineOk(u, i, c);
      if i < |u| {
        assert u == u[..i + 1] + u[i + 1..];
        InnerSuffix(u[..i + 1], u[i + 1..], c);
        assert u[i + 1 - 1] == '\n';
        LinesOk(u[i + 1..], c);
      } else {
        assert u[..i] == u;
      }
    }
  }

  lemma FirstLineOk(u: string, i: nat, c: char)
    requires StartsOk(u, c) && i <= |u| && forall k :: 0 <= k < i ==> u[k] != '\n'
    requires i < |u| ==> u[i] == '\n'
    ensures LineOk(u[..i], c) && LineOk(WithoutCr(u[..i]), c)
  {
    assert |u| >= 5 && u[..4] == "    " && IsQuote(u[4]) ==>
      u[0] == u[..4][0] && u[1] == u[..4][1] && u[2] == u[..4][2] && u[3] == u[..4][3];
    assert i >= 5 ==> u[..i][..4] == u[..4];
    var l := WithoutCr(u[..i]);
    assert |l| >= 5 ==> l[..4] == u[..4];
  }

  // ---------------------------------------------------------------- the lines of the file

  /** The line an item was cut in, and what the file holds after it. */
  lemma CutLines(y: string, w: string, rest: string, c: char) returns (z: string, after: seq<string>)
    requires Unbroken(y) && y != [] && '\n' in rest && InnerOk(rest, c)
    requires w == "" ==> rest[0] == '\n'
    ensures Lines(y + rest) == [y + z] + after && (w == "" ==> z == "") && '\n' !in y + z
    ensures forall l | l in after :: LineOk(l, c)
  {
    hide StartsOk;
    var n := Find(rest, '\n');
    assert rest == rest[..n] + ['\n'] + rest[n + 1..];
    var line := y + rest[..n];
    assert '\n' !in line;
    FindAt(line, '\n', rest[n + 1..]);
    assert line + ['\n'] + rest[n + 1..] == y + rest;
    assert (y + rest)[..|line|] == line && (y + rest)[|line| + 1..] == rest[n + 1..];
    z := WithoutCr(rest[..n]);
    CrAfter(y, rest[..n]);
    after := Lines(rest[n + 1..]);
    assert rest[n + 1 - 1] == '\n';
    assert rest == rest[..n + 1] + rest[n + 1..];
    InnerSuffix(rest[..n + 1], rest[n + 1..], c);
    LinesOk(rest[n + 1..], c);
  }

  lemma CrAfter(y: string, v: string)
    requires Unbroken(y) && y != []
    ensures WithoutCr(y + v) == y + WithoutCr(v)
  {}

  lemma OpenedUnbroken(s: string, t: nat, w: string)
    requires t <= |s| && Unbroken(w)
    ensures Unbroken("    " + (Opened(s, t) + w))
  {
    hide EscapedAll;
    EscapedAllUnbroken(s[..t]);
    if Literal(s) {
      forall i | 0 <= i < t ensures s[i] != '\n' && s[i] != '\r' {
        assert s[i] in s;
      }
    }
  }

  lemma IndentOk(v: string, c: char)
    requires v != [] && IsQuote(v[0]) && !IsQuote(c)
    ensures StartsOk("    " + v, c)
  {
    assert ("    " + v)[..4] == "    ";
  }

  lemma ItemLineOk(s: string, c: char)
    requires !IsQuote(c)
    ensures LineOk(ItemLine(s), c)
  {
    hide Quoted;
    QuotedUnbroken(s);
    IndentOk(Quoted(s) + ",", c);
    assert "    " + (Quoted(s) + ",") == ItemLine(s);
  }

  lemma CutLinesOk(head: seq<string>, key: string, before: seq<string>, line: string, after: seq<string>)
    requires IsList(key) && LineOk(line, key[0]) && forall l | l in after :: LineOk(l, key[0])
    ensures var lines := head + [key + " = ["] + ItemLines(before) + ([line] + after);
      forall j :: |head| < j < |lines| ==> LineOk(lines[j], key[0])
  {
    hide LineOk, ItemLines, ItemLine;
    ItemLinesAt(before);
    var lines := head + [key + " = ["] + ItemLines(before) + ([line] + after);
    var n := |head| + 1 + |before|;
    forall j | |head| < j < |lines| ensures LineOk(lines[j], key[0]) {
      if j < n {
        assert lines[j] == ItemLines(before)[j - |head| - 1] == ItemLine(before[j - |head| - 1]);
        ItemLineOk(before[j - |head| - 1], key[0]);
      } else if j == n {
        assert lines[j] == line;
      } else {
        assert lines[j] == after[j - n - 1];
      }
    }
  }

  /** A file whose list `key` holds an item cut by a marker does not read back. */
  lemma CutFile(head: seq<string>, key: string, before: seq<string>, s: string, after: seq<string>,
                t: nat, w: string, u: string, line: string, rest: string, c: Config)
    requires IsList(key) && CutLine(line, s, t, w, u)
    requires forall l | l in head :: IsLine(l)
    requires InnerOk(line + ['\n'] + rest, key[0])
    ensures var lines := Lines(Joined(head + [key + " = ["] + ItemLines(before)) + (line + ['\n'] + rest));
      && |head| <= |lines|
      && (var r := ParseLines(lines, |head|, c); r.Ok? ==> ListOf(r.value, key) != before + [s] + after)
  {
    hide Joined, Quoted, ItemLines, ParseLines, Opened, StartsOk, InnerOk, IsLine, Lines;
    var a := head + [key + " = ["] + ItemLines(before);
    var y := "    " + (Opened(s, t) + w);
    var more := u + ['\n'] + rest;
    assert line + ['\n'] + rest == y + more;
    InnerSuffix(y, more, key[0]);
    OpenedUnbroken(s, t, w);
    var z, lines := CutLines(y, w, more, key[0]);
    ItemLinesAreLines(before);
    UnbrokenLine(key + " = [");
    LinesAfter(a, y + more);
    assert y + z == "    " + (Opened(s, t) + w + z);
    IndentOk(Opened(s, t) + w + z, key[0]);
    CutLinesOk(head, key, before, y + z, lines);
    CutParses(head, key, before, s, after, t, w, z, lines, c);
  }

  lemma CutParses(head: seq<string>, key: string, before: seq<string>, s: string, after: seq<string>,
                  t: nat, w: string, z: string, more: seq<string>, c: Config)
    requires IsList(key) && Spoilt(s, t, w) && (w == "" ==> z == "")
    requires var all := head + [key + " = ["] + ItemLines(before) + (["    " + (Opened(s, t) + w + z)] + more);
      forall j :: |head| < j < |all| ==> LineOk(all[j], key[0])
    ensures var all := head + [key + " = ["] + ItemLines(before) + (["    " + (Opened(s, t) + w + z)] + more);
      var r := ParseLines(all, |head|, c); r.Ok? ==> ListOf(r.value, key) != before + [s] + after
  {
    hide ItemLines, ParseLines, Opened, StartsOk, ItemLine;
    var line := "    " + (Opened(s, t) + w + z);
    var all := head + [key + " = ["] + ItemLines(before) + ([line] + more);
    ItemLinesAt(before);
    forall k | 0 <= k < |before| ensures all[|head| + 1 + k] == ItemLine(before[k]) {
      assert all[|head| + 1 + k] == ItemLines(before)[k];
    }
    assert all[|head| + 1 + |before|] == line;
    SpoiltFile(all, |head|, key, before, s, after, t, w, z, c);
  }

  // ---------------------------------------------------------------- the file written

  /** A replacement in text of lines before which the marker does not occur. */
  lemma PutAround(front: seq<string>, line: string, tail: string, p: string, v: string)
    requires p != [] && '\n' !in p
    requires v != p ==> Untouched(front, p)
    ensures Replace(Joined(front) + (line + ['\n'] + tail), p, v)
         == Joined(front) + (Replace(line, p, v) + ['\n'] + Replace(tail, p, v))
  {
    hide Replace, Joined, Occurs;
    if v == p {
      ReplaceBySame(Joined(front) + (line + ['\n'] + tail), p);
      ReplaceBySame(line, p);
      ReplaceBySame(tail, p);
    } else {
      ReplaceUntouched(front, line + ['\n'] + tail, p, v);
      ReplaceAcross(line, '\n', tail, p, v);
    }
  }

  lemma DatabasesPutOk(c: Config)
    ensures PutOk(DATABASES, "databases = " + ListText(c.databases), 'o')
  {
    hide StartsOk, ListText, ListLines, Joined;
    var v := "databases = " + ListText(c.databases);
    ListLinesOk("databases", c.databases);
    JoinedOk(ListLines("databases", c.databases), 'o');
    ListTextLines("databases", c.databases);
    ListTextEnd(c.databases);
    assert v + "\n" == Joined(ListLines("databases", c.databases));
    InnerPrefix(v, "\n", 'o');
    assert v[0] == "databases = "[0] == 'd';
  }

  lemma ListTextEnd(items: seq<string>)
    ensures var t := ListText(items); t != [] && t[|t| - 1] == ']'
  {}

  lemma InnerPrefix(a: string, b: string, c: char)
    requires InnerOk(a + b, c) && b == "\n"
    ensures InnerOk(a, c)
  {
    hide StartsOk;
    forall i | 0 < i <= |a| && a[i - 1] == '\n' ensures StartsOk(a[i..], c) {
      assert (a + b)[i - 1] == '\n' && (a + b)[i..] == a[i..] + b;
      StartsShorter(a[i..], b, c);
    }
  }

  lemma StartsShorter(a: string, b: string, c: char)
    requires StartsOk(a + b, c) && b == "\n"
    ensures StartsOk(a, c)
  {
    if a != [] {
      assert |a| >= 4 ==> (a + b)[..4] == a[..4];
    }
  }

  lemma ListLinesOk(key: string, items: seq<string>)
    requires key == "databases"
    ensures forall l | l in ListLines(key, items) :: LineOk(l, 'o')
  {
    hide ItemLines;
    ItemLinesOk(items, 'o');
  }

  lemma ItemLinesOk(items: seq<string>, c: char)
    requires !IsQuote(c)
    ensures forall l | l in ItemLines(items) :: LineOk(l, c)
  {
    hide ItemLine, LineOk;
    ItemLinesAt(items);
    forall l | l in ItemLines(items) ensures LineOk(l, c) {
      var k :| 0 <= k < |items| && ItemLines(items)[k] == l;
      ItemLineOk(items[k], c);
    }
  }

  lemma WebPutOk(c: Config, ch: char)
    requires ch == 'o' || ch == 'd'
    ensures PutOk(WEB, WebLine(c.web), ch)
  {
    hide StartsOk, Quoted, InnerOk;
    WebLineIsLine(c.web);
    var v := WebLine(c.web);
    assert v != [] && (v[0] == '#' || v[0] == 'w');
    QuotedUnbroken(c.web);
    InnerUnbroken(v, ch);
  }

  lemma NotesOk(c: char)
    requires c == 'o' || c == 'd'
    ensures forall l | l in NOTES2 || l in NOTES3 || l in NOTES4 :: LineOk(l, c)
    ensures LineOk(WEB, c) && LineOk("]", c) && (c == 'o' ==> LineOk(DATABASES, c))
  {
    hide IsLine;
    hide LineOk;
    NotesAreLines();
    forall l | l in NOTES2 || l in NOTES3 || l in NOTES4 ensures LineOk(l, c) {
      NoteOk(l, c);
    }
    MarkerLinesOk(c);
  }

  lemma MarkerLinesOk(c: char)
    requires c == 'o' || c == 'd'
    ensures LineOk(WEB, c) && LineOk("]", c) && (c == 'o' ==> LineOk(DATABASES, c))
  {
    WebMarker();
    assert WEB[0] == '#' && DATABASES[0] == 'd';
  }

  lemma NoteOk(l: string, c: char)
    requires c == 'o' || c == 'd'
    requires IsLine(l) && (l != [] ==> l[0] == '#')
    ensures LineOk(l, c)
  {}

  lemma EngineOk(c: Config, ch: char)
    requires ch == 'o' || ch == 'd'
    ensures TextOk(Joined(EngineLines(c)), ch)
  {
    hide Joined, IsLine, Quoted, Decimal;
    EngineLinesAreLines(c);
    forall l | l in EngineLines(c) ensures LineOk(l, ch) {
      EngineLineOk(l, ch);
    }
    JoinedOk(EngineLines(c), ch);
  }

  lemma EngineLineOk(l: string, c: char)
    requires c == 'o' || c == 'd'
    requires IsLine(l) && l != [] && l[0] == 'e'
    ensures LineOk(l, c)
  {}

  // ---------------------------------------------------------------- a marker in an origin

  lemma {:induction false} ItemLinesAppend(a: seq<string>, b: seq<string>)
    ensures ItemLines(a + b) == ItemLines(a) + ItemLines(b)
    decreases |a|
  {
    hide ItemLine;
    if a == [] {
      assert a + b == b;
    } else {
      assert (a + b)[1..] == a[1..] + b;
      ItemLinesAppend(a[1..], b);
    }
  }

  lemma SplitItems(items: seq<string>, k: nat)
    requires k < |items|
    ensures ItemLines(items) == ItemLines(items[..k]) + ([ItemLine(items[k])] + ItemLines(items[k + 1..]))
  {
    hide ItemLine;
    var (a, b) := (items[..k], items[k..]);
    assert items == a + b;
    ItemLinesAppend(a, b);
    assert b[0] == items[k] && b[1..] == items[k + 1..];
  }

  lemma InnerAcross(c: Config, line: string, tail: string)
    requires InnerOk(line + ['\n'] + tail, 'o')
    ensures InnerOk(WebPut(c, DatabasesPut(c, line)) + ['\n'] + WebPut(c, DatabasesPut(c, tail)), 'o')
  {
    hide Replace, InnerOk, PutOk, ListText, WebLine, Occurs;
    WebMarker();
    DatabasesPutOk(c);
    WebPutOk(c, 'o');
    var text := line + ['\n'] + tail;
    InnerReplaced(text, DATABASES, "databases = " + ListText(c.databases), 'o');
    ReplaceAcross(line, '\n', tail, DATABASES, "databases = " + ListText(c.databases));
    InnerReplaced(DatabasesPut(c, text), WEB, WebLine(c.web), 'o');
    ReplaceAcross(DatabasesPut(c, line), '\n', DatabasesPut(c, tail), WEB, WebLine(c.web));
  }

  ghost predicate Marked(c: Config, s: string) {
    DatabasesIn(c, Quoted(s)) || WebIn(c, Quoted(s))
  }

  function TailLines(): seq<string> {
    NOTES2 + [DATABASES] + NOTES3 + [WEB] + NOTES4
  }

  lemma FrontUntouched(c: Config, before: seq<string>)
    requires forall s | s in before :: !Marked(c, s)
    ensures var front := HeadLines(c) + ["origins = ["] + ItemLines(before);
      && (c.databases != [] ==> Untouched(front, DATABASES)) && (c.web != DEFAULT_WEB ==> Untouched(front, WEB))
  {
    hide Occurs, Quoted, Decimal, ItemLines;
    NotesUntouched();
    PortUntouched(c.port);
    KeysApart();
    assert "origins" + " = [" == "origins = [";
    if c.databases != [] {
      ItemsUntouched(before, DATABASES);
    }
    if c.web != DEFAULT_WEB {
      ItemsUntouched(before, WEB);
    }
  }

  lemma OriginsText(c: Config, k: nat)
    requires k < |c.origins| && forall s | s in c.origins[..k] :: !Marked(c, s)
    ensures var line := ItemLine(c.origins[k]);
      var tail := Joined(ItemLines(c.origins[k + 1..]) + ["]"] + TailLines());
      Replaced(c) == Joined(HeadLines(c) + ["origins = ["] + ItemLines(c.origins[..k]))
        + (WebPut(c, DatabasesPut(c, line)) + ['\n'] + WebPut(c, DatabasesPut(c, tail)))
  {
    hide Occurs, Replace, Joined, ListText, WebLine, Decimal, Quoted, ItemLines, ItemLine, Marked, Untouched, NotesOnly;
    var (before, after) := (c.origins[..k], c.origins[k + 1..]);
    var line := ItemLine(c.origins[k]);
    var tail := ItemLines(after) + ["]"] + TailLines();
    var front := HeadLines(c) + ["origins = ["] + ItemLines(before);
    NotesUntouched();
    FirstTwo(NOTES0, "port = " + Decimal(c.port), NOTES1, TailLines(), c, NOTES2, NOTES3, NOTES4);
    assert NOTES0 + [PORT] + NOTES1 + [ORIGINS] + TailLines()
        == NOTES0 + [PORT] + NOTES1 + [ORIGINS] + NOTES2 + [DATABASES] + NOTES3 + [WEB] + NOTES4;
    SplitItems(c.origins, k);
    assert "origins" + " = [" == "origins = [";
    assert HeadLines(c) + ListLines("origins", c.origins) + TailLines() == front + [line] + tail;
    JoinedAround(front, line, tail);
    WebMarker();
    FrontUntouched(c, before);
    Defaults();
    PutAround(front, line, Joined(tail), DATABASES, "databases = " + ListText(c.databases));
    PutAround(front, DatabasesPut(c, line), DatabasesPut(c, Joined(tail)), WEB, WebLine(c.web));
  }

  lemma OriginsInner(c: Config, s: string, after: seq<string>)
    ensures var tail := Joined(ItemLines(after) + ["]"] + TailLines());
      InnerOk(WebPut(c, DatabasesPut(c, ItemLine(s))) + ['\n'] + WebPut(c, DatabasesPut(c, tail)), 'o')
  {
    hide Occurs, Replace, ListText, WebLine, Quoted, ItemLines;
    hide ItemLine, InnerOk, LineOk, StartsOk, WebPut, DatabasesPut;
    var tail := ItemLines(after) + ["]"] + TailLines();
    NotesOk('o');
    ItemLineOk(s, 'o');
    ItemLinesOk(after, 'o');
    JoinedOk([ItemLine(s)] + tail, 'o');
    JoinedAround([], ItemLine(s), tail);
    assert [] + [ItemLine(s)] + tail == [ItemLine(s)] + tail;
    JoinedNone();
    assert "" + (ItemLine(s) + ['\n'] + Joined(tail)) == ItemLine(s) + ['\n'] + Joined(tail);
    InnerAcross(c, ItemLine(s), Joined(tail));
  }

  lemma JoinedNone()
    ensures Joined([]) == ""
  {}

  lemma EngineAfter(text: string, c: Config, ch: char)
    requires ch == 'o' || ch == 'd'
    requires InnerOk(text, ch)
    ensures InnerOk(text + Joined(EngineLines(c)), ch)
  {
    hide InnerOk, StartsOk, EngineLines, Joined;
    EngineOk(c, ch);
    InnerAppend(text, Joined(EngineLines(c)), ch);
  }

  lemma FileLines(c: Config, more: seq<string>, text: string)
    requires forall l | l in more :: IsLine(l)
    ensures Lines(Joined(HeadLines(c) + more) + text) == HeadLines(c) + (more + Lines(text))
    ensures forall l | l in HeadLines(c) :: IsLine(l)
  {
    hide IsLine, Lines, Joined, Decimal, Quoted;
    NotesAreLines();
    DecimalUnbroken(c.port);
    UnbrokenLine("port = " + Decimal(c.port));
    LinesAfter(HeadLines(c) + more, text);
    assert HeadLines(c) + more + Lines(text) == HeadLines(c) + (more + Lines(text));
  }

  /** A marker in an origin: the file does not read back. */
  lemma OriginsCut(c: Config, k: nat)
    requires k < |c.origins| && Marked(c, c.origins[k]) && forall s | s in c.origins[..k] :: !Marked(c, s)
    ensures Parsed(Render(c)) != Ok(c)
  {
    hide Replace, Joined, ListText, WebLine, Decimal, Quoted, ItemLines, ItemLine, Lines, ParseLines, InnerOk, CutLine;
    hide Occurs, EngineLines, Replaced, WebPut, DatabasesPut, HeadLines, TailLines, IsLine;
    var (before, s, after) := (c.origins[..k], c.origins[k], c.origins[k + 1..]);
    var line := WebPut(c, DatabasesPut(c, ItemLine(s)));
    var tail := WebPut(c, DatabasesPut(c, Joined(ItemLines(after) + ["]"] + TailLines())));
    var rest := tail + Joined(EngineLines(c));
    var t, w, u := ItemCut(c, s);
    OriginsText(c, k);
    OriginsInner(c, s, after);
    EngineAfter(line + ['\n'] + tail, c, 'o');
    assert line + ['\n'] + tail + Joined(EngineLines(c)) == line + ['\n'] + rest;
    var more := ["origins" + " = ["] + ItemLines(before);
    assert "origins" + " = [" == "origins = [";
    assert HeadLines(c) + ["origins" + " = ["] + ItemLines(before) == HeadLines(c) + more;
    assert Render(c) == Joined(HeadLines(c) + more) + (line + ['\n'] + rest);
    ItemLinesAreLines(before);
    UnbrokenLine("origins" + " = [");
    FileLines(c, more, line + ['\n'] + rest);
    CutFile(HeadLines(c), "origins", before, s, after, t, w, u, line, rest, DEFAULT.(port := c.port));
    HeadParses(c, more + Lines(line + ['\n'] + rest));
    assert c.origins == before + [s] + after;
  }

  // ---------------------------------------------------------------- a marker in a database

  lemma DatabasesText(c: Config, k: nat)
    requires k < |c.databases| && c.web != DEFAULT_WEB
    requires forall s | s in c.origins :: !Marked(c, s)
    requires forall s | s in c.databases[..k] :: !WebIn(c, Quoted(s))
    ensures var line := ItemLine(c.databases[k]);
      var tail := Joined(ItemLines(c.databases[k + 1..]) + ["]"] + NOTES3 + [WEB] + NOTES4);
      Replaced(c) == Joined(UpToDatabases(c) + ["databases = ["] + ItemLines(c.databases[..k]))
        + (WebPut(c, line) + ['\n'] + WebPut(c, tail))
  {
    hide Occurs, Replace, Joined, ListText, WebLine, Decimal, Quoted, ItemLines, ItemLine, Untouched, NotesOnly;
    var (before, after) := (c.databases[..k], c.databases[k + 1..]);
    var line := ItemLine(c.databases[k]);
    var origins := ListLines("origins", c.origins);
    var tail := ItemLines(after) + ["]"] + NOTES3 + [WEB] + NOTES4;
    var head := HeadLines(c) + origins + NOTES2;
    var databases := ListLines("databases", c.databases);
    NotesUntouched();
    FirstTwo(NOTES0, "port = " + Decimal(c.port), NOTES1, TailLines(), c, NOTES2, NOTES3, NOTES4);
    assert NOTES0 + [PORT] + NOTES1 + [ORIGINS] + TailLines()
        == NOTES0 + [PORT] + NOTES1 + [ORIGINS] + NOTES2 + [DATABASES] + NOTES3 + [WEB] + NOTES4;
    assert HeadLines(c) + origins + TailLines() == head + [DATABASES] + (NOTES3 + [WEB] + NOTES4);
    ListTextLines("databases", c.databases);
    HeadUntouched(c);
    AfterUntouched();
    WebMarker();
    PutLine(head, DATABASES, NOTES3 + [WEB] + NOTES4, "databases = " + ListText(c.databases), databases);
    SplitItems(c.databases, k);
    assert "databases" + " = [" == "databases = [";
    var front := head + ["databases = ["] + ItemLines(before);
    assert head + databases + (NOTES3 + [WEB] + NOTES4) == front + [line] + tail;
    JoinedAround(front, line, tail);
    DatabasesFront(head, before, c);
    PutAround(front, line, Joined(tail), WEB, WebLine(c.web));
  }

  lemma DatabasesFront(head: seq<string>, before: seq<string>, c: Config)
    requires Untouched(head, WEB) && c.web != DEFAULT_WEB && forall s | s in before :: !WebIn(c, Quoted(s))
    ensures Untouched(head + ["databases = ["] + ItemLines(before), WEB)
  {
    hide Occurs, Quoted, ItemLines;
    KeysApart();
    assert "databases" + " = [" == "databases = [";
    ItemsUntouched(before, WEB);
  }

  lemma AfterUntouched()
    ensures Untouched(NOTES3 + [WEB] + NOTES4, DATABASES)
  {
    hide Occurs;
    NotesUntouched();
    MarkersApart();
  }

  lemma HeadUntouched(c: Config)
    requires c.databases != [] && c.web != DEFAULT_WEB && forall s | s in c.origins :: !Marked(c, s)
    ensures var head := HeadLines(c) + ListLines("origins", c.origins) + NOTES2;
      Untouched(head, DATABASES) && Untouched(head, WEB)
  {
    hide Occurs, Quoted, Decimal, ListLines;
    NotesUntouched();
    OriginsUntouched(c.origins, DATABASES);
    OriginsUntouched(c.origins, WEB);
    BeforeDatabases(NOTES0, "port = " + Decimal(c.port), NOTES1, NOTES2, c);
  }

  lemma DatabasesInner(c: Config, s: string, after: seq<string>)
    ensures var tail := Joined(ItemLines(after) + ["]"] + NOTES3 + [WEB] + NOTES4);
      InnerOk(WebPut(c, ItemLine(s)) + ['\n'] + WebPut(c, tail), 'd')
  {
    hide Occurs, Replace, ListText, WebLine, Quoted, ItemLines, ItemLine, InnerOk, LineOk, StartsOk, PutOk;
    var (line, tail) := (ItemLine(s), ItemLines(after) + ["]"] + NOTES3 + [WEB] + NOTES4);
    NotesOk('d');
    ItemLineOk(s, 'd');
    ItemLinesOk(after, 'd');
    JoinedOk([line] + tail, 'd');
    JoinedAround([], line, tail);
    assert [] + [line] + tail == [line] + tail;
    JoinedNone();
    assert "" + (line + ['\n'] + Joined(tail)) == line + ['\n'] + Joined(tail);
    WebMarker();
    WebPutOk(c, 'd');
    InnerReplaced(line + ['\n'] + Joined(tail), WEB, WebLine(c.web), 'd');
    ReplaceAcross(line, '\n', Joined(tail), WEB, WebLine(c.web));
  }

  lemma ItemCutByWeb(c: Config, s: string) returns (t: nat, u: string)
    requires WebIn(c, Quoted(s))
    ensures CutLine(WebPut(c, ItemLine(s)), s, t, "w", u)
  {
    hide Quoted, Occurs, CutLine;
    WithinLine(WEB, s);
    t, u := CutAtWeb(c, s, ItemLine(s));
  }

  /** The lines before the databases, all as they were written. */
  function UpToDatabases(c: Config): seq<string> {
    HeadLines(c) + ListLines("origins", c.origins) + NOTES2
  }

  lemma UpToDatabasesParses(c: Config, d: seq<string>)
    ensures var r := ParseLines(UpToDatabases(c) + d, 0, DEFAULT);
      || r.Err?
      || r == ParseLines(UpToDatabases(c) + d, |UpToDatabases(c)|, DEFAULT.(port := c.port, origins := c.origins))
  {
    hide ParseLines, ListLines, HeadLines, IsNote;
    var origins := ListLines("origins", c.origins);
    assert UpToDatabases(c) + d == HeadLines(c) + (origins + NOTES2 + d);
    HeadParses(c, origins + NOTES2 + d);
    AllAreNotes();
    ListParses(HeadLines(c), "origins", c.origins, NOTES2, d, DEFAULT.(port := c.port));
  }

  lemma UpToDatabasesLines(c: Config, more: seq<string>, text: string)
    requires forall l | l in more :: IsLine(l)
    ensures Lines(Joined(UpToDatabases(c) + more) + text) == UpToDatabases(c) + (more + Lines(text))
    ensures forall l | l in UpToDatabases(c) :: IsLine(l)
  {
    hide IsLine, Lines, Joined, HeadLines, ListLines;
    NotesAreLines();
    OriginsAreLines(c.origins);
    FileLines(c, [], "");
    LinesAfter(UpToDatabases(c) + more, text);
    assert UpToDatabases(c) + more + Lines(text) == UpToDatabases(c) + (more + Lines(text));
  }

  /** A marker in a database: the file does not read back. */
  lemma DatabasesCut(c: Config, k: nat)
    requires k < |c.databases| && WebIn(c, Quoted(c.databases[k]))
    requires forall s | s in c.origins :: !Marked(c, s)
    requires forall s | s in c.databases[..k] :: !WebIn(c, Quoted(s))
    ensures Parsed(Render(c)) != Ok(c)
  {
    hide Replace, Joined, ListText, WebLine, Decimal, Quoted, ItemLines, ItemLine, Lines, ParseLines, InnerOk, CutLine;
    hide Occurs, EngineLines, Replaced, WebPut, UpToDatabases, IsLine, Marked;
    var (before, s, after) := (c.databases[..k], c.databases[k], c.databases[k + 1..]);
    var line := WebPut(c, ItemLine(s));
    var tail := WebPut(c, Joined(ItemLines(after) + ["]"] + NOTES3 + [WEB] + NOTES4));
    var rest := tail + Joined(EngineLines(c));
    var t, u := ItemCutByWeb(c, s);
    DatabasesText(c, k);
    DatabasesInner(c, s, after);
    EngineAfter(line + ['\n'] + tail, c, 'd');
    assert line + ['\n'] + tail + Joined(EngineLines(c)) == line + ['\n'] + rest;
    var more := ["databases" + " = ["] + ItemLines(before);
    assert "databases" + " = [" == "databases = [";
    assert UpToDatabases(c) + ["databases" + " = ["] + ItemLines(before) == UpToDatabases(c) + more;
    assert Render(c) == Joined(UpToDatabases(c) + more) + (line + ['\n'] + rest);
    ItemLinesAreLines(before);
    UnbrokenLine("databases" + " = [");
    UpToDatabasesLines(c, more, line + ['\n'] + rest);
    CutFile(UpToDatabases(c), "databases", before, s, after, t, "w", u, line, rest,
            DEFAULT.(port := c.port, origins := c.origins));
    UpToDatabasesParses(c, more + Lines(line + ['\n'] + rest));
    assert c.databases == before + [s] + after;
  }

  lemma OriginsAreLines(items: seq<string>)
    ensures forall l | l in ListLines("origins", items) :: IsLine(l)
  {
    hide IsLine;
    ListLinesAreLines("origins", items);
  }

  // ---------------------------------------------------------------- the round trip

  lemma FirstMarked(c: Config, items: seq<string>) returns (k: nat)
    requires exists s :: s in items && Marked(c, s)
    ensures k < |items| && Marked(c, items[k]) && forall s | s in items[..k] :: !Marked(c, s)
  {
    hide Marked;
    if Marked(c, items[0]) {
      k := 0;
    } else {
      assert items == [items[0]] + items[1..];
      var j := FirstMarked(c, items[1..]);
      k := j + 1;
      assert items[..k] == [items[0]] + items[1..][..j];
    }
  }

  lemma FirstWeb(c: Config, items: seq<string>) returns (k: nat)
    requires exists s :: s in items && WebIn(c, Quoted(s))
    ensures k < |items| && WebIn(c, Quoted(items[k])) && forall s | s in items[..k] :: !WebIn(c, Quoted(s))
  {
    hide WebIn, Quoted;
    if WebIn(c, Quoted(items[0])) {
      k := 0;
    } else {
      assert items == [items[0]] + items[1..];
      var j := FirstWeb(c, items[1..]);
      k := j + 1;
      assert items[..k] == [items[0]] + items[1..][..j];
    }
  }

  /** Settings are read back from the file they are written to exactly when their numbers
      are ones the parser takes and no value holds the marker of a later one. */
  lemma RoundTrip(c: Config)
    ensures Parsed(Render(c)) == Ok(c) <==> InRange(c) && Unmarked(c)
  {
    hide Parsed, Render, Occurs, Quoted, InRange;
    if Unmarked(c) {
      UnmarkedRoundTrip(c);
    } else if s :| s in c.origins && Marked(c, s) {
      var k := FirstMarked(c, c.origins);
      OriginsCut(c, k);
    } else {
      var k := FirstWeb(c, c.databases);
      DatabasesCut(c, k);
    }
  }

  /** The default file reads as the default settings. */
  lemma TemplateReads()
    ensures Parsed(Template()) == Ok(DEFAULT)
  {
    hide Parsed, Replace, Template;
    RoundTrip(DEFAULT);
    DefaultRenders();
  }

  lemma DefaultRenders()
    ensures Render(DEFAULT) == Template()
  {
    hide Replace, Template;
    Defaults();
    DefaultPort();
    ReplaceBySame(Template(), PORT);
    ReplaceBySame(Template(), ORIGINS);
    ReplaceBySame(Template(), DATABASES);
    ReplaceBySame(Template(), WEB);
    assert Template() + "" == Template();
  }

  lemma DefaultPort()
    ensures "port = " + Decimal(39581) == PORT && "origins = " + ListText([]) == ORIGINS
  {
    assert Decimal(3) == "3";
    assert Decimal(39) == "39";
    assert Decimal(395) == "395";
    assert Decimal(3958) == "3958";
  }

  /** An origin in which a control character's escape completes a marker. */
  lemma EscapeMarks()
    ensures var c := DEFAULT.(origins := ["\U{1d}atabases = []"], databases := ["D:\\"]);
      InRange(c) && Parsed(Render(c)) != Ok(c)
  {
    hide Parsed, Render, Occurs;
    var s := "\U{1d}atabases = []";
    var c := DEFAULT.(origins := [s], databases := ["D:\\"]);
    EscapeHolds(s);
    assert s in c.origins;
    RoundTrip(c);
  }

  lemma EscapeHolds(s: string)
    requires s == "\U{1d}atabases = []"
    ensures Occurs(DATABASES, Quoted(s))
  {
    hide EscapedAll, Escaped, Quoted, Literal, Occurs;
    var rest := "atabases = []";
    assert s == ['\U{1d}'] + rest;
    EscapedAppend(['\U{1d}'], rest);
    EscapedOne('\U{1d}');
    PlainEscaped(rest);
    EscapeLast();
    ControlQuoted(s);
    HoldsAt("\"\\u001", "d" + rest, "\"");
    assert Quoted(s) == "\"\\u001" + ("d" + rest) + "\"";
  }

  lemma ControlQuoted(s: string)
    requires s != [] && IsControl(s[0])
    ensures Quoted(s) == "\"" + EscapedAll(s) + "\""
  {
    hide EscapedAll;
    assert s[0] in s;
  }

  lemma EscapeLast()
    ensures Escaped('\U{1d}') == "\\u001" + "d"
  {
    assert Hex4(0x1d) == "001d";
  }

  lemma HoldsAt(a: string, p: string, b: string)
    requires p == DATABASES
    ensures Occurs(p, a + p + b)
  {
    assert (a + p + b)[|a|..|a| + |p|] == p;
    assert OccursAt(p, a + p + b, |a|);
  }

  lemma {:induction false} PlainEscaped(s: string)
    requires forall i :: 0 <= i < |s| ==> s[i] != '"' && s[i] != '\\' && !IsControl(s[i])
    ensures EscapedAll(s) == s
  {
    if s != [] {
      PlainEscaped(s[1..]);
    }
  }
}
