/** Arrays of `bridge.toml` as a person writes them: on one line, or on several with comments,
    with no comma after the last item. They are read as their items. */
module SettingsByHand {
  import opened Text
  import opened Wrappers
  import opened SettingsFile
  import opened SettingsParse
  import opened SettingsLexers
  import opened SettingsRoundTrip
  import Strings = SettingsStrings
  import Values = SettingsValues

  // ---------------------------------------------------------------- the array

  /** The items, a comma and a space after each but the last. */
  function Listed(items: seq<string>): string {
    if items == [] then ""
    else if |items| == 1 then Quoted(items[0])
    else Quoted(items[0]) + ", " + Listed(items[1..])
  }

  function Commas(items: seq<string>): string {
    if items == [] then "" else Quoted(items[0]) + ", " + Commas(items[1..])
  }

  lemma QuotedWritten(s: string) returns (w: Strings.Written)
    ensures Strings.IsWritten(w) && Strings.Spell(w) == Quoted(s) && Strings.Means(w) == s
  {
    hide *;
    QuotedLexes(s, "");
    assert Quoted(s) + "" == Quoted(s);
    w := Strings.ReadsWritten(Quoted(s));
    assert Strings.Spell(w) + "" == Strings.Spell(w);
  }

  lemma {:induction false} SlotsFor(items: seq<string>) returns (xs: seq<Values.Slot>)
    ensures Values.AllSlots(xs) && Values.SpellSlots(xs) == Commas(items) && Values.SlotsMean(xs) == items
  {
    hide Quoted, Strings.IsWritten, Strings.Spell, Strings.Means;
    xs := [];
    if items != [] {
      var w := QuotedWritten(items[0]);
      var rest := SlotsFor(items[1..]);
      var x := Values.Slot(w, "", " ");
      assert Values.SpellSlot(x) == Quoted(items[0]) + ", ";
      assert ([x] + rest)[1..] == rest;
      xs := [x] + rest;
      assert items == [items[0]] + items[1..];
    }
  }

  /** The items between brackets, with spaces there or not. */
  lemma BracketReads(items: seq<string>, lead: string, gap: string)
    requires items != [] && Values.AllSpace(lead) && Values.AllSpace(gap)
    ensures var n := |items| - 1;
      ReadValue("[" + (lead + (Commas(items[..n]) + (Quoted(items[n]) + gap))) + "]") == Ok(List(items))
  {
    hide Quoted, ReadValue, Strings.IsWritten, Strings.Spell, Strings.Means, Commas;
    var n := |items| - 1;
    var xs := SlotsFor(items[..n]);
    var w := QuotedWritten(items[n]);
    var last := Some(Values.Slot(w, gap, ""));
    var a := Values.ArrayText(lead, xs, last);
    Values.ArrayReads(a);
    assert Values.SpellItems(xs, last) == Commas(items[..n]) + (Quoted(items[n]) + gap);
    assert items[..n] + [items[n]] == items;
  }

  lemma {:induction false} ListedCommas(items: seq<string>)
    requires items != []
    ensures Listed(items) == Commas(items[..|items| - 1]) + Quoted(items[|items| - 1])
  {
    hide Quoted;
    if |items| > 1 {
      ListedCommas(items[1..]);
      assert items[1..][..|items| - 2] == items[..|items| - 1][1..];
    } else {
      assert items[..0] == [];
    }
  }

  /** An array with no comma after its last item is read as its items. */
  lemma ListedReads(items: seq<string>)
    ensures ReadValue("[" + Listed(items) + "]") == Ok(List(items))
  {
    hide Quoted, ReadValue, Commas, Listed;
    if items == [] {
      EmptyArray();
      NothingListed();
    } else {
      var n := |items| - 1;
      ListedCommas(items);
      BracketReads(items, "", "");
      assert "" + (Commas(items[..n]) + (Quoted(items[n]) + "")) == Listed(items);
    }
  }

  lemma NothingListed()
    ensures "[" + Listed([]) + "]" == "[]"
  {}

  // ---------------------------------------------------------------- on one line

  lemma {:induction false} ListedWhole(items: seq<string>)
    ensures CommentAt(Listed(items) + "]", None, false) == |Listed(items)| + 1
    ensures HasClose(Listed(items) + "]", None) && '\n' !in Listed(items)
  {
    hide Quoted, CommentAt, HasClose;
    BracketLexes();
    if items == [] {
      assert "" + "]" == "]";
    } else {
      QuotedUnbroken(items[0]);
      if |items| == 1 {
        QuotedLexes(items[0], "]");
      } else {
        var rest := Listed(items[1..]) + "]";
        ListedWhole(items[1..]);
        QuotedLexes(items[0], ", " + rest);
        assert Listed(items) + "]" == Quoted(items[0]) + (", " + rest);
        SpaceAfterComma(rest);
      }
    }
  }

  lemma BracketLexes()
    ensures CommentAt("]", None, false) == 1 && HasClose("]", None)
  {
    assert "]"[1..] == "";
  }

  lemma SpaceAfterComma(rest: string)
    ensures CommentAt(", " + rest, None, false) == 2 + CommentAt(rest, None, false)
    ensures HasClose(", " + rest, None) == HasClose(rest, None)
  {
    assert (", " + rest)[1..] == " " + rest && (" " + rest)[1..] == rest;
  }

  lemma OpeningLexes(rest: string)
    ensures CommentAt("[" + rest, None, false) == 1 + CommentAt(rest, None, false)
    ensures HasClose("[" + rest, None) == HasClose(rest, None)
  {
    assert ("[" + rest)[1..] == rest;
  }

  /** The settings with a list put in. */
  function WithList(c: Config, key: string, items: seq<string>): Config {
    if key == "origins" then c.(origins := items) else c.(databases := items)
  }

  lemma OneEntry(text: string, key: string, items: seq<string>)
    requires key in {"origins", "databases"} && Entry([text], 0, DEFAULT) == Entered(DEFAULT, key, List(items), 0, 1)
    requires '\n' !in text && text != []
    ensures Parsed(text) == Ok(WithList(DEFAULT, key, items))
  {
    hide Entry, Lines;
    OneLineText(text);
    var c := WithList(DEFAULT, key, items);
    assert Entry([text], 0, DEFAULT) == Ok((c, 1));
    assert ParseLines([text], 1, c) == Ok(c);
  }

  lemma OneLineText(text: string)
    requires '\n' !in text && text != []
    ensures Lines(text) == [text]
  {}

  /** A file of one array on one line. */
  lemma OneLine(key: string, items: seq<string>)
    requires key in {"origins", "databases"}
    ensures Parsed(key + " = [" + Listed(items) + "]") == Ok(WithList(DEFAULT, key, items))
  {
    hide ReadValue, HasClose, CommentAt, Listed, Entry, Entered, Lines, IsKey;
    var v := "[" + Listed(items) + "]";
    var text := key + " = [" + Listed(items) + "]";
    assert text == key + " = " + v;
    Keys();
    ListedReads(items);
    ListedWhole(items);
    OpeningLexes(Listed(items) + "]");
    assert v == "[" + (Listed(items) + "]");
    ValueEntry([text], 0, key, v, List(items), DEFAULT);
    NoBreak(key);
    OneEntry(text, key, items);
  }

  lemma NoBreak(key: string)
    requires key in {"origins", "databases"}
    ensures '\n' !in key + " = ["
  {}

  // ---------------------------------------------------------------- on several lines

  /** An item on a line of its own, with a comment after it. */
  function NotedLine(item: string, comma: string, note: string): string {
    "  " + Quoted(item) + comma + " #" + note
  }

  /** The items from `k` on: a comma after each but the last. */
  function NotedLines(items: seq<string>, notes: seq<string>, k: nat): seq<string>
    requires |notes| == |items| && k <= |items|
    decreases |items| - k
  {
    if k == |items| then ["]"]
    else [NotedLine(items[k], if k + 1 < |items| then "," else "", notes[k])] + NotedLines(items, notes, k + 1)
  }

  function NotedList(key: string, items: seq<string>, note: string, notes: seq<string>): seq<string>
    requires |notes| == |items|
  {
    [key + " = [ #" + note] + NotedLines(items, notes, 0)
  }

  lemma CommentCuts(code: string, note: string)
    ensures CommentAt(code + "#" + note, None, false) == |code| ==> WithoutComment(code + "#" + note) == code
  {
    assert (code + "#" + note)[..|code|] == code;
  }

  lemma HashFirst(note: string)
    ensures CommentAt("#" + note, None, false) == 0
  {}

  /** Where the comment of such a line begins. */
  lemma NotedLineAt(item: string, end: string, note: string)
    requires Bare(end)
    ensures var code := "  " + (Quoted(item) + end);
      CommentAt("  " + (Quoted(item) + (end + ("#" + note))), None, false) == |code|
  {
    hide Quoted, CommentAt;
    var rest := end + ("#" + note);
    QuotedLexes(item, rest);
    HashFirst(note);
    CommentBare(end, "#" + note);
    CommentBare("  ", Quoted(item) + rest);
  }

  lemma NotedLineText(q: string, comma: string, note: string)
    ensures "  " + q + comma + " #" + note == "  " + (q + (comma + " " + ("#" + note)))
    ensures "  " + q + comma + " #" + note == "  " + (q + comma) + " " + "#" + note
    ensures "  " + (q + (comma + " ")) == "  " + (q + comma) + " "
  {}

  lemma NotedLineCut(item: string, comma: string, note: string)
    requires comma in {"", ","}
    ensures WithoutComment(NotedLine(item, comma, note)) == "  " + (Quoted(item) + comma) + " "
  {
    hide Quoted, CommentAt, WithoutComment;
    assert Bare(comma + " ");
    NotedLineAt(item, comma + " ", note);
    NotedLineText(Quoted(item), comma, note);
    CommentCuts("  " + (Quoted(item) + comma) + " ", note);
  }

  lemma NotedLineReads(item: string, comma: string, note: string)
    requires comma in {"", ","}
    ensures Trim(WithoutComment(NotedLine(item, comma, note))) == Quoted(item) + comma
  {
    hide Quoted, WithoutComment, Trim;
    NotedLineCut(item, comma, note);
    QuotedUnbroken(item);
    TrimSpaces(Quoted(item) + comma);
  }

  lemma TrimSpaces(v: string)
    requires Firm(v)
    ensures Trim("  " + v + " ") == v
  {
    hide TrimStart, TrimEnd, IsWhitespace;
    var a := v + " ";
    assert "  " + v + " " == "  " + a && a[0] == v[0];
    Spaces();
    Values.TrimStartPast("  ", a);
    Values.TrimEndPast(v, " ");
  }

  lemma Spaces()
    ensures Values.AllSpace("") && Values.AllSpace(" ") && Values.AllSpace("  ")
  {}

  lemma {:induction false} NotedAt(items: seq<string>, notes: seq<string>, k: nat, i: nat)
    requires |notes| == |items| && k <= i <= |items|
    ensures |NotedLines(items, notes, k)| == |items| - k + 1
    ensures NotedLines(items, notes, k)[i - k] ==
      if i == |items| then "]" else NotedLine(items[i], if i + 1 < |items| then "," else "", notes[i])
    decreases |items| - k
  {
    hide NotedLine;
    if k < |items| {
      NotedAt(items, notes, k + 1, if k < i then i else k + 1);
    }
  }

  lemma CloseLine()
    ensures Trim(WithoutComment("]")) == "]"
  {
    assert WithoutComment("]") == "]";
  }

  lemma {:induction false} ItemsTextMore(items: seq<string>, item: string)
    ensures ItemsText(items + [item]) == ItemsText(items) + " " + Quoted(item) + ","
  {
    hide Quoted;
    if items == [] {
      assert [] + [item] == [item] && [item][1..] == [];
    } else {
      assert (items + [item])[1..] == items[1..] + [item];
      ItemsTextMore(items[1..], item);
    }
  }

  lemma {:induction false} ItemsTextCommas(items: seq<string>)
    ensures ItemsText(items) + " " == " " + Commas(items)
  {
    hide Quoted;
    if items != [] {
      ItemsTextCommas(items[1..]);
      calc {
        ItemsText(items) + " ";
        " " + (Quoted(items[0]) + "," + (ItemsText(items[1..]) + " "));
        " " + (Quoted(items[0]) + "," + (" " + Commas(items[1..])));
        " " + (Quoted(items[0]) + ", " + Commas(items[1..]));
      }
    }
  }

  lemma {:induction false} ItemsTextNeutral(items: seq<string>)
    ensures Neutral("[" + ItemsText(items))
    decreases |items|
  {
    hide Quoted, HasClose, Neutral;
    if items == [] {
      OpeningNeutral();
      assert "[" + "" == "[";
    } else {
      var n := |items| - 1;
      ItemsTextNeutral(items[..n]);
      NeutralItem("[" + ItemsText(items[..n]), items[n]);
      ItemsTextMore(items[..n], items[n]);
      assert items[..n] + [items[n]] == items;
      assert "[" + ItemsText(items[..n]) + " " + Quoted(items[n]) + "," == "[" + ItemsText(items);
    }
  }

  /** The items but the last are put together line by line. */
  lemma {:induction false} NotedGather(lines: seq<string>, items: seq<string>, notes: seq<string>, k: nat)
    requires |notes| == |items| && k < |items| && |lines| == |items| + 2
    requires lines[1..] == NotedLines(items, notes, 0)
    ensures Gathered(lines, 1, "[") == Gathered(lines, 1 + k, "[" + ItemsText(items[..k]))
  {
    hide Quoted, Trim, WithoutComment, NotedLine, NotedLines, Gathered, ItemsText, HasClose, Neutral;
    if k == 0 {
      NoItemsText();
      assert items[..0] == [] && "[" + "" == "[";
    } else {
      var acc := "[" + ItemsText(items[..k - 1]);
      NotedGather(lines, items, notes, k - 1);
      NotedAt(items, notes, 0, k - 1);
      assert lines[k] == lines[1..][k - 1];
      NotedLineReads(items[k - 1], ",", notes[k - 1]);
      ItemsTextNeutral(items[..k - 1]);
      NeutralOpen(acc);
      GatherOne(lines, k, acc);
      ItemsTextMore(items[..k - 1], items[k - 1]);
      assert items[..k] == items[..k - 1] + [items[k - 1]];
      assert acc + " " + (Quoted(items[k - 1]) + ",") == "[" + ItemsText(items[..k]);
    }
  }

  lemma NoItemsText()
    ensures ItemsText([]) == ""
  {}

  lemma GatherOne(lines: seq<string>, j: nat, acc: string)
    requires j < |lines| && acc != [] && acc[0] == '[' && !HasClose(acc, None)
    ensures Gathered(lines, j, acc) == Gathered(lines, j + 1, acc + " " + Trim(WithoutComment(lines[j])))
  {
    hide HasClose, Trim, WithoutComment;
  }

  lemma GatherDone(lines: seq<string>, j: nat, acc: string)
    requires j <= |lines| && HasClose(acc, None)
    ensures Gathered(lines, j, acc) == Some((acc, j))
  {
    hide HasClose;
  }

  /** All lines of the list: its items between brackets. */
  lemma NotedGathers(lines: seq<string>, items: seq<string>, notes: seq<string>) returns (text: string)
    requires items != [] && |notes| == |items| && |lines| == |items| + 2
    requires lines[1..] == NotedLines(items, notes, 0)
    ensures Gathered(lines, 1, "[") == Some((text, |lines|)) && ReadValue(text) == Ok(List(items))
  {
    hide Quoted, Trim, WithoutComment, NotedLine, NotedLines, Gathered, ItemsText, HasClose, Neutral, ReadValue, Commas;
    var n := |items| - 1;
    var acc := "[" + ItemsText(items[..n]);
    var q := Quoted(items[n]);
    NotedGather(lines, items, notes, n);
    NotedAt(items, notes, 0, n);
    NotedAt(items, notes, 0, n + 1);
    assert lines[n + 1] == lines[1..][n] && lines[n + 2] == lines[1..][n + 1];
    NotedLineReads(items[n], "", notes[n]);
    assert q + "" == q;
    ItemsTextNeutral(items[..n]);
    NeutralOpen(acc);
    GatherOne(lines, n + 1, acc);
    NeutralQuoted(acc, items[n]);
    NeutralOpen(acc + " " + q);
    CloseLine();
    GatherOne(lines, n + 2, acc + " " + q);
    text := acc + " " + q + " " + "]";
    NeutralCloses(acc + " " + q);
    GatherDone(lines, n + 3, text);
    ItemsTextCommas(items[..n]);
    Spaces();
    BracketReads(items, " ", " ");
    assert text == "[" + ((ItemsText(items[..n]) + " ") + (q + " ")) + "]";
    assert (" " + Commas(items[..n])) + (q + " ") == " " + (Commas(items[..n]) + (q + " "));
  }

  lemma NeutralQuoted(acc: string, item: string)
    requires Neutral(acc)
    ensures Neutral(acc + " " + Quoted(item))
  {
    hide Quoted;
    forall x ensures HasClose(acc + " " + Quoted(item) + x, None) == HasClose(x, None) {
      var y := Quoted(item) + x;
      assert acc + " " + Quoted(item) + x == acc + (" " + y) && (" " + y)[1..] == y;
      QuotedLexes(item, x);
    }
  }

  lemma NeutralCloses(acc: string)
    requires Neutral(acc)
    ensures HasClose(acc + " " + "]", None)
  {
    assert acc + " " + "]" == acc + " ]" && " ]"[1..] == "]";
    BracketLexes();
  }

  lemma HeadLineReads(key: string, note: string)
    requires key in {"origins", "databases"}
    ensures var line := key + " = [";
      && Trim(WithoutComment(key + " = [ #" + note)) == line
      && Find(line, '=') == |key| + 1 && Trim(line[..|key| + 1]) == key && Trim(line[|key| + 2..]) == "["
  {
    hide CommentAt, IsWhitespace, Firm, IsKey, WithoutComment, Find, Trim;
    Keys();
    EmptyArray();
    ValueLine(key, "[");
    var line := key + " = [";
    assert line == key + " = " + "[";
    var code := line + " ";
    HeadBare(key);
    CommentBare(code, "#" + note);
    HashFirst(note);
    assert code + ("#" + note) == code + "#" + note == key + " = [ #" + note;
    CommentCuts(code, note);
    TrimSpaced(line);
  }

  lemma HeadBare(key: string)
    requires key in {"origins", "databases"}
    ensures Bare(key + " = [" + " ") && Firm(key + " = [")
  {}

  lemma Sets(key: string, items: seq<string>)
    requires key in {"origins", "databases"}
    ensures Assign(DEFAULT, key, List(items)) == Ok(WithList(DEFAULT, key, items))
  {}

  lemma ListParses(lines: seq<string>, key: string, items: seq<string>, note: string, notes: seq<string>)
    requires items != [] && |notes| == |items| && key in {"origins", "databases"}
    requires lines == NotedList(key, items, note, notes)
    ensures ParseLines(lines, 0, DEFAULT) == Ok(WithList(DEFAULT, key, items))
  {
    hide Gathered, Trim, WithoutComment, Assign, ReadValue, Find, NotedLines, WithList;
    NotedAt(items, notes, 0, 0);
    assert lines[1..] == NotedLines(items, notes, 0);
    HeadLineReads(key, note);
    var text := NotedGathers(lines, items, notes);
    Sets(key, items);
    var c := WithList(DEFAULT, key, items);
    var line := key + " = [";
    assert line[|key| + 1 + 1..] == line[|key| + 2..];
    assert Entry(lines, 0, DEFAULT) == Ok((c, |lines|));
    assert ParseLines(lines, |lines|, c) == Ok(c);
  }

  /** A line of text, whatever it notes. */
  predicate IsNoteText(note: string) {
    '\n' !in note && (note != [] ==> note[|note| - 1] != '\r')
  }

  lemma {:induction false} NotedAreLines(items: seq<string>, notes: seq<string>, k: nat)
    requires |notes| == |items| && k <= |items| && forall n <- notes :: IsNoteText(n)
    ensures forall l <- NotedLines(items, notes, k) :: IsLine(l)
    decreases |items| - k
  {
    hide Quoted, NotedLine, IsLine;
    if k == |items| {
      assert IsLine("]") by {
        Closing();
      }
    } else {
      var comma := if k + 1 < |items| then "," else "";
      NotedIsLine(items[k], comma, notes[k]);
      NotedAreLines(items, notes, k + 1);
    }
  }

  lemma Closing()
    ensures IsLine("]")
  {}

  lemma NotedIsLine(item: string, comma: string, note: string)
    requires comma in {"", ","} && IsNoteText(note)
    ensures IsLine(NotedLine(item, comma, note))
  {
    hide Quoted;
    QuotedUnbroken(item);
    var l := NotedLine(item, comma, note);
    assert l == "  " + Quoted(item) + comma + " #" + note;
    assert note != [] ==> l[|l| - 1] == note[|note| - 1];
  }

  lemma HeadIsLine(key: string, note: string)
    requires key in {"origins", "databases"} && IsNoteText(note)
    ensures IsLine(key + " = [ #" + note)
  {
    var l := key + " = [ #" + note;
    assert note != [] ==> l[|l| - 1] == note[|note| - 1];
  }

  /** A file of one array on several lines, a comment on each. */
  lemma SeveralLines(key: string, items: seq<string>, note: string, notes: seq<string>)
    requires items != [] && |notes| == |items| && key in {"origins", "databases"}
    requires IsNoteText(note) && forall n <- notes :: IsNoteText(n)
    ensures Parsed(Joined(NotedList(key, items, note, notes))) == Ok(WithList(DEFAULT, key, items))
  {
    hide ParseLines, Lines, IsLine, NotedLines, WithList, IsNoteText;
    var lines := NotedList(key, items, note, notes);
    HeadIsLine(key, note);
    NotedAreLines(items, notes, 0);
    LinesJoined(lines);
    ListParses(lines, key, items, note, notes);
  }
}
