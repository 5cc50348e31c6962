/** A line of `bridge.toml` cut at its comment, and an array at its closing bracket: both are the
    first such character outside strings, for text that is any whole strings and characters
    outside them, perhaps with a string left open at its end. */
module SettingsSegments {
  import opened Text
  import opened Wrappers
  import opened SettingsParse

  // ---------------------------------------------------------------- the grammar

  datatype Segment =
    | Outside(c: char)
    | Single(body: string)               // between single quotes
    | Double(units: seq<string>)         // between double quotes, each a character or an escape

  datatype Tail =
    | Nothing
    | OpenSingle(body: string)
    | OpenDouble(units: seq<string>, lone: bool)   // perhaps with a backslash last

  /** A character of a double-quoted string, or a backslash and the one after it. */
  predicate IsUnit(u: string) {
    || (|u| == 1 && u[0] != '"' && u[0] != '\\')
    || (|u| == 2 && u[0] == '\\')
  }

  predicate AllUnits(us: seq<string>) {
    forall u <- us :: IsUnit(u)
  }

  predicate IsSegment(g: Segment, stop: char) {
    match g
    case Outside(c) => c != '"' && c != '\'' && c != stop
    case Single(body) => '\'' !in body
    case Double(us) => AllUnits(us)
  }

  predicate AllSegments(gs: seq<Segment>, stop: char) {
    forall g <- gs :: IsSegment(g, stop)
  }

  predicate IsTail(l: Tail) {
    match l
    case Nothing => true
    case OpenSingle(body) => '\'' !in body
    case OpenDouble(us, _) => AllUnits(us)
  }

  function Flat(us: seq<string>): string {
    if us == [] then [] else us[0] + Flat(us[1..])
  }

  function SpellSegment(g: Segment): string {
    match g
    case Outside(c) => [c]
    case Single(body) => "'" + body + "'"
    case Double(us) => "\"" + Flat(us) + "\""
  }

  function SpellSegments(gs: seq<Segment>): string {
    if gs == [] then [] else SpellSegment(gs[0]) + SpellSegments(gs[1..])
  }

  function SpellTail(l: Tail): string {
    match l
    case Nothing => ""
    case OpenSingle(body) => "'" + body
    case OpenDouble(us, lone) => "\"" + Flat(us) + (if lone then "\\" else "")
  }

  // ---------------------------------------------------------------- in a string

  lemma {:induction false} PastSingle(body: string, rest: string)
    requires '\'' !in body
    ensures CommentAt(body + rest, Some('\''), false) == |body| + CommentAt(rest, Some('\''), false)
    ensures HasClose(body + rest, Some('\'')) == HasClose(rest, Some('\''))
  {
    if body == [] {
      assert body + rest == rest;
    } else {
      assert (body + rest)[1..] == body[1..] + rest;
      PastSingle(body[1..], rest);
    }
  }

  lemma PastUnit(u: string, rest: string)
    requires IsUnit(u)
    ensures CommentAt(u + rest, Some('"'), false) == |u| + CommentAt(rest, Some('"'), false)
    ensures HasClose(u + rest, Some('"')) == HasClose(rest, Some('"'))
  {
    var s := u + rest;
    if |u| == 1 {
      assert s[1..] == rest;
    } else {
      assert s[1..] == [u[1]] + rest && s[2..] == rest && s[1..][1..] == rest;
    }
  }

  lemma {:induction false} PastUnits(us: seq<string>, rest: string)
    requires AllUnits(us)
    ensures CommentAt(Flat(us) + rest, Some('"'), false) == |Flat(us)| + CommentAt(rest, Some('"'), false)
    ensures HasClose(Flat(us) + rest, Some('"')) == HasClose(rest, Some('"'))
  {
    hide CommentAt, HasClose, IsUnit;
    if us == [] {
      assert Flat(us) + rest == rest;
    } else {
      PastUnit(us[0], Flat(us[1..]) + rest);
      PastUnits(us[1..], rest);
      assert Flat(us) + rest == us[0] + (Flat(us[1..]) + rest);
    }
  }

  lemma Opens(q: char, rest: string)
    requires q == '"' || q == '\''
    ensures CommentAt([q] + rest, None, false) == 1 + CommentAt(rest, Some(q), false)
    ensures HasClose([q] + rest, None) == HasClose(rest, Some(q))
  {
    assert ([q] + rest)[1..] == rest;
  }

  lemma Ends(q: char, rest: string)
    requires q == '"' || q == '\''
    ensures CommentAt([q] + rest, Some(q), false) == 1 + CommentAt(rest, None, false)
    ensures HasClose([q] + rest, Some(q)) == HasClose(rest, None)
  {
    assert ([q] + rest)[1..] == rest;
  }

  // ---------------------------------------------------------------- whole segments

  lemma PastSegment(g: Segment, rest: string)
    ensures IsSegment(g, '#') ==>
      CommentAt(SpellSegment(g) + rest, None, false) == |SpellSegment(g)| + CommentAt(rest, None, false)
    ensures IsSegment(g, ']') ==> HasClose(SpellSegment(g) + rest, None) == HasClose(rest, None)
  {
    match g
    case Outside(c) =>
      assert ([c] + rest)[1..] == rest;
    case Single(body) =>
      if '\'' !in body {
        hide CommentAt, HasClose;
        assert SpellSegment(g) + rest == ['\''] + (body + (['\''] + rest));
        Opens('\'', body + (['\''] + rest));
        PastSingle(body, ['\''] + rest);
        Ends('\'', rest);
      }
    case Double(us) =>
      if AllUnits(us) {
        hide CommentAt, HasClose;
        assert SpellSegment(g) + rest == ['"'] + (Flat(us) + (['"'] + rest));
        Opens('"', Flat(us) + (['"'] + rest));
        PastUnits(us, ['"'] + rest);
        Ends('"', rest);
      }
  }

  lemma {:induction false} PastSegments(gs: seq<Segment>, rest: string)
    ensures AllSegments(gs, '#') ==>
      CommentAt(SpellSegments(gs) + rest, None, false) == |SpellSegments(gs)| + CommentAt(rest, None, false)
    ensures AllSegments(gs, ']') ==> HasClose(SpellSegments(gs) + rest, None) == HasClose(rest, None)
  {
    hide CommentAt, HasClose, SpellSegment, IsSegment;
    if gs == [] {
      assert SpellSegments(gs) + rest == rest;
    } else {
      PastSegment(gs[0], SpellSegments(gs[1..]) + rest);
      PastSegments(gs[1..], rest);
      assert SpellSegments(gs) + rest == SpellSegment(gs[0]) + (SpellSegments(gs[1..]) + rest);
    }
  }

  lemma TailGoesOn(l: Tail)
    requires IsTail(l)
    ensures CommentAt(SpellTail(l), None, false) == |SpellTail(l)| && !HasClose(SpellTail(l), None)
  {
    match l
    case Nothing =>
    case OpenSingle(body) =>
      assert SpellTail(l) == ['\''] + body;
      Opens('\'', body);
      PastSingle(body, "");
      assert body + "" == body;
    case OpenDouble(us, lone) =>
      var end := if lone then "\\" else "";
      assert SpellTail(l) == ['"'] + (Flat(us) + end);
      Opens('"', Flat(us) + end);
      PastUnits(us, end);
      assert end != [] ==> end[1..] == "";
  }

  /** A line is cut at the first `#` after whole segments. */
  lemma CommentCut(gs: seq<Segment>, comment: string)
    requires AllSegments(gs, '#')
    ensures WithoutComment(SpellSegments(gs) + ("#" + comment)) == SpellSegments(gs)
  {
    PastSegments(gs, "#" + comment);
    assert CommentAt("#" + comment, None, false) == 0;
  }

  /** A line without one is not cut. */
  lemma NoComment(gs: seq<Segment>, l: Tail)
    requires AllSegments(gs, '#') && IsTail(l)
    ensures WithoutComment(SpellSegments(gs) + SpellTail(l)) == SpellSegments(gs) + SpellTail(l)
  {
    hide CommentAt;
    PastSegments(gs, SpellTail(l));
    TailGoesOn(l);
  }

  lemma ClosesAt(gs: seq<Segment>, more: string)
    requires AllSegments(gs, ']')
    ensures HasClose(SpellSegments(gs) + ("]" + more), None)
  {
    PastSegments(gs, "]" + more);
  }

  lemma StaysOpen(gs: seq<Segment>, l: Tail)
    requires AllSegments(gs, ']') && IsTail(l)
    ensures !HasClose(SpellSegments(gs) + SpellTail(l), None)
  {
    PastSegments(gs, SpellTail(l));
    TailGoesOn(l);
  }

  // ---------------------------------------------------------------- any text

  /** The rest of a double-quoted string: its units and what follows its end, if it ends. */
  lemma {:induction false} UnitsOf(s: string) returns (us: seq<string>, lone: bool, after: Option<string>)
    ensures AllUnits(us)
    ensures s == Flat(us) + (if after.Some? then "\"" + after.value else if lone then "\\" else "")
    decreases |s|
  {
    us, lone, after := [], false, None;
    if s != [] {
      if s[0] == '"' {
        after := Some(s[1..]);
      } else if s == "\\" {
        lone := true;
      } else {
        var n := if s[0] == '\\' then 2 else 1;
        us, lone, after := UnitsOf(s[n..]);
        assert s == s[..n] + s[n..];
        us := [s[..n]] + us;
      }
    }
  }

  /** The segment a text begins with, if it is whole and not `stop`. */
  lemma FirstSegment(s: string, stop: char) returns (g: Segment, l: Tail, more: string, whole: bool)
    requires s != [] && s[0] != stop && stop != '"' && stop != '\''
    ensures IsTail(l) && |more| < |s|
    ensures if whole then IsSegment(g, stop) && s == SpellSegment(g) + more else s == SpellTail(l)
  {
    g, l, more, whole := Outside(s[0]), Nothing, s[1..], true;
    if s[0] == '\'' {
      var end := Find(more, '\'');
      if end == |more| {
        l, whole := OpenSingle(more), false;
      } else {
        g, more := Single(more[..end]), more[end + 1..];
      }
    } else if s[0] == '"' {
      var us, lone, after := UnitsOf(more);
      if after == None {
        l, whole := OpenDouble(us, lone), false;
      } else {
        assert s == SpellSegment(Double(us)) + after.value;
        g, more := Double(us), after.value;
      }
    }
  }

  /** Every text is whole segments up to the first `stop` outside strings, or to its end. */
  lemma {:induction false} SegmentsOf(s: string, stop: char)
      returns (gs: seq<Segment>, l: Tail, rest: Option<string>)
    requires stop != '"' && stop != '\''
    ensures AllSegments(gs, stop) && IsTail(l)
    ensures s == SpellSegments(gs) + (if rest.Some? then [stop] + rest.value else SpellTail(l))
    decreases |s|
  {
    hide IsSegment, SpellSegment;
    gs, l, rest := [], Nothing, None;
    if s != [] && s[0] == stop {
      rest := Some(s[1..]);
    } else if s != [] {
      var g, tail, more, whole := FirstSegment(s, stop);
      if whole {
        gs, l, rest := SegmentsOf(more, stop);
        Before(g, gs, if rest.Some? then [stop] + rest.value else SpellTail(l));
        gs := [g] + gs;
      } else {
        l := tail;
      }
    }
  }

  lemma Before(g: Segment, gs: seq<Segment>, rest: string)
    ensures SpellSegments([g] + gs) + rest == SpellSegment(g) + (SpellSegments(gs) + rest)
  {
    hide SpellSegment;
    assert ([g] + gs)[1..] == gs;
  }

  /** `closes` finds a closing bracket exactly after whole segments without one. */
  lemma CloseGrammar(text: string)
    ensures HasClose(text, None) <==>
            exists gs, more :: AllSegments(gs, ']') && text == SpellSegments(gs) + ("]" + more)
  {
    hide HasClose, SpellSegments, SpellTail;
    var gs, l, rest := SegmentsOf(text, ']');
    if rest.Some? {
      assert text == SpellSegments(gs) + ("]" + rest.value);
      ClosesAt(gs, rest.value);
    } else {
      StaysOpen(gs, l);
      forall hs, more | AllSegments(hs, ']') && text == SpellSegments(hs) + ("]" + more) ensures false {
        ClosesAt(hs, more);
      }
    }
  }

  /** `strip_comment` cuts a line exactly at a `#` after whole segments without one, and leaves
      every other line. */
  lemma CommentGrammar(line: string, code: string)
    ensures WithoutComment(line) == code && code != line <==>
            exists gs, comment :: AllSegments(gs, '#') && code == SpellSegments(gs) && line == code + ("#" + comment)
    ensures WithoutComment(line) <= line
  {
    hide CommentAt, SpellSegments, SpellTail;
    var gs, l, rest := SegmentsOf(line, '#');
    if rest.Some? {
      assert line == SpellSegments(gs) + ("#" + rest.value);
      CommentCut(gs, rest.value);
    } else {
      NoComment(gs, l);
    }
    forall hs, comment | AllSegments(hs, '#') && code == SpellSegments(hs) && line == code + ("#" + comment)
      ensures WithoutComment(line) == code
    {
      CommentCut(hs, comment);
    }
  }
}
