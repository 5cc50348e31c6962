/** `bridge.toml` as `config.rs` reads it: three lexers that each find where a quoted
    string ends, and the parser over them. Every loop is proved against a function. */
module SettingsParse {
  import opened Text
  import opened Wrappers
  import opened Hex
  import opened SettingsFile

  datatype Fault = Fixed(what: string) | NotAValue(text: string) | UnknownKey(key: string)
  datatype Syntax = Syntax(line: nat, fault: Fault)

  datatype Value = Int(n: int) | Str(s: string) | List(items: seq<string>)

  // ---------------------------------------------------------------- comments

  /** How many characters come before a `#` outside strings. */
  function CommentAt(s: string, quote: Option<char>, escaped: bool): (n: nat)
    ensures n <= |s|
  {
    if s == [] then 0
    else
      var c := s[0];
      if quote == Some('"') && c == '\\' && !escaped then 1 + CommentAt(s[1..], quote, true)
      else if quote == Some(c) && !escaped then 1 + CommentAt(s[1..], None, false)
      else if quote == None && (c == '"' || c == '\'') then 1 + CommentAt(s[1..], Some(c), false)
      else if quote == None && c == '#' then 0
      else 1 + CommentAt(s[1..], quote, false)
  }

  function WithoutComment(line: string): string {
    line[..CommentAt(line, None, false)]
  }

  /** `strip_comment`. */
  method StripComment(line: string) returns (r: string)
    ensures r == WithoutComment(line)
  {
    var quote: Option<char> := None;
    var escaped := false;
    for i := 0 to |line|
      invariant i + CommentAt(line[i..], quote, escaped) == CommentAt(line, None, false)
    {
      assert line[i..][1..] == line[i + 1..];
      var c := line[i];
      if quote == Some('"') && c == '\\' && !escaped {
        escaped := true;
        continue;
      }
      if quote == Some(c) && !escaped {
        quote := None;
      } else if quote == None && (c == '"' || c == '\'') {
        quote := Some(c);
      } else if quote == None && c == '#' {
        return line[..i];
      }
      escaped := false;
    }
    return line;
  }

  // ---------------------------------------------------------------- closing brackets

  /** Whether there is a closing bracket outside strings. */
  predicate HasClose(s: string, quote: Option<char>) {
    if s == [] then false
    else
      var c := s[0];
      if quote == Some('"') && c == '\\' then |s| >= 2 && HasClose(s[2..], quote)
      else if quote == Some(c) then HasClose(s[1..], None)
      else if quote == None && (c == '"' || c == '\'') then HasClose(s[1..], Some(c))
      else if quote == None && c == ']' then true
      else HasClose(s[1..], quote)
  }

  /** `closes`. */
  method Closes(text: string) returns (r: bool)
    ensures r == HasClose(text, None)
  {
    var quote: Option<char> := None;
    var i := 0;
    while i < |text|
      invariant i <= |text|
      invariant HasClose(text[i..], quote) == HasClose(text, None)
    {
      var c := text[i];
      assert text[i..][1..] == text[i + 1..];
      assert i + 2 <= |text| ==> text[i..][2..] == text[i + 2..];
      i := i + 1;
      if quote == Some('"') && c == '\\' {
        if i == |text| {
          return false;
        }
        i := i + 1;
      } else if quote == Some(c) {
        quote := None;
      } else if quote == None && (c == '"' || c == '\'') {
        quote := Some(c);
      } else if quote == None && c == ']' {
        return true;
      }
    }
    return false;
  }

  // ---------------------------------------------------------------- strings

  /** `u32::from_str_radix(_, 16)` of at most four characters. */
  function FromHex(s: string): Option<nat> {
    if s == [] then None
    else if s[0] == '+' then (if |s| == 1 then None else FromHexDigits(s[1..]))
    else FromHexDigits(s)
  }

  /** `char::from_u32`. */
  function ToChar(n: nat): Option<char> {
    if n < 0xd800 || 0xe000 <= n < 0x11_0000 then Some(n as char) else None
  }

  function Min(a: nat, b: nat): nat {
    if a < b then a else b
  }

  type Read = Result<(string, string), string>

  function Prepend(text: string, r: Read): Read {
    match r
    case Ok((rest, after)) => Ok((text + rest, after))
    case Err(e) => Err(e)
  }

  /** A double-quoted string from after its opening quote, and what follows it. */
  function Unescaped(body: string): (r: Read)
    ensures r.Ok? ==> |r.value.1| < |body|
  {
    if body == [] then Err("unterminated string")
    else if body[0] == '"' then Ok(("", body[1..]))
    else if body[0] == '\\' then
      if |body| == 1 then Err("unknown escape")
      else if body[1] == '"' || body[1] == '\\' then Prepend([body[1]], Unescaped(body[2..]))
      else if body[1] == 'n' then Prepend("\n", Unescaped(body[2..]))
      else if body[1] == 't' then Prepend("\t", Unescaped(body[2..]))
      else if body[1] == 'u' then
        var end := Min(6, |body|);
        match FromHex(body[2..end])
        case None => Err("bad \\u escape")
        case Some(code) =>
          match ToChar(code)
          case None => Err("bad \\u escape")
          case Some(c) => Prepend([c], Unescaped(body[end..]))
      else Err("unknown escape")
    else Prepend([body[0]], Unescaped(body[1..]))
  }

  function ReadString(text: string): (r: Read)
    ensures r.Ok? ==> |r.value.1| < |text|
  {
    if text != [] && text[0] == '\'' then
      var body := text[1..];
      var end := Find(body, '\'');
      if end == |body| then Err("unterminated string") else Ok((body[..end], body[end + 1..]))
    else if text != [] && text[0] == '"' then Unescaped(text[1..])
    else Err("expected a string")
  }

  lemma PrependTwice(a: string, b: string, r: Read)
    ensures Prepend(a, Prepend(b, r)) == Prepend(a + b, r)
  {
    if r.Ok? {
      assert a + (b + r.value.0) == a + b + r.value.0;
    }
  }

  lemma PrependNothing(r: Read)
    ensures Prepend("", r) == r
  {
    if r.Ok? {
      assert "" + r.value.0 == r.value.0;
    }
  }

  lemma SliceWithin(s: string, a: nat, x: nat, y: nat)
    requires x <= y && a + y <= |s|
    ensures s[a..][x..y] == s[a + x..a + y] && s[a..][y..] == s[a + y..]
  {}

  /** What is read from place `i` on. */
  lemma UnescapedAt(body: string, i: nat)
    requires i < |body|
    ensures Unescaped(body[i..]) ==
      if body[i] == '"' then Ok(("", body[i + 1..]))
      else if body[i] != '\\' then Prepend([body[i]], Unescaped(body[i + 1..]))
      else if i + 1 == |body| then Err("unknown escape")
      else if body[i + 1] == '"' || body[i + 1] == '\\' then Prepend([body[i + 1]], Unescaped(body[i + 2..]))
      else if body[i + 1] == 'n' then Prepend("\n", Unescaped(body[i + 2..]))
      else if body[i + 1] == 't' then Prepend("\t", Unescaped(body[i + 2..]))
      else if body[i + 1] == 'u' then
        var end := Min(i + 6, |body|);
        match FromHex(body[i + 2..end])
        case None => Err("bad \\u escape")
        case Some(code) =>
          (match ToChar(code)
           case None => Err("bad \\u escape")
           case Some(c) => Prepend([c], Unescaped(body[end..])))
      else Err("unknown escape")
  {
    hide FromHex, ToChar, Prepend;
    var rest := body[i..];
    assert rest[0] == body[i] && rest[1..] == body[i + 1..];
    if i + 1 < |body| {
      assert rest[1] == body[i + 1] && rest[2..] == body[i + 2..];
      SliceWithin(body, i, 2, Min(6, |rest|));
    }
  }

  /** `parse_string`. */
  method ParseString(text: string) returns (r: Read)
    ensures r == ReadString(text)
  {
    hide FromHex, ToChar, Unescaped;
    if text != [] && text[0] == '\'' {
      var body := text[1..];
      var end := Find(body, '\'');
      return if end == |body| then Err("unterminated string") else Ok((body[..end], body[end + 1..]));
    }
    if text == [] || text[0] != '"' {
      return Err("expected a string");
    }
    var body := text[1..];
    var out := "";
    var i := 0;
    assert body[0..] == body;
    PrependNothing(Unescaped(body));
    while i < |body|
      invariant i <= |body|
      invariant Prepend(out, Unescaped(body[i..])) == Unescaped(body)
      decreases |body| - i
    {
      UnescapedAt(body, i);
      var c := body[i];
      i := i + 1;
      if c == '"' {
        assert out + "" == out;
        return Ok((out, body[i..]));
      }
      var add := [c];
      if c == '\\' {
        if i == |body| {
          return Err("unknown escape");
        }
        var e := body[i];
        i := i + 1;
        if e == '"' || e == '\\' {
          add := [e];
        } else if e == 'n' {
          add := "\n";
        } else if e == 't' {
          add := "\t";
        } else if e == 'u' {
          var hex := body[i..Min(i + 4, |body|)];
          i := i + |hex|;
          var code := FromHex(hex);
          if code == None {
            return Err("bad \\u escape");
          }
          var decoded := ToChar(code.value);
          if decoded == None {
            return Err("bad \\u escape");
          }
          add := [decoded.value];
        } else {
          return Err("unknown escape");
        }
      }
      PrependTwice(out, add, Unescaped(body[i..]));
      out := out + add;
    }
    UnescapedEnd();
    return Err("unterminated string");
  }

  lemma UnescapedEnd()
    ensures Unescaped("") == Err("unterminated string")
  {}

  // ---------------------------------------------------------------- values

  type ReadItems = Result<seq<string>, string>

  function PrependItems(items: seq<string>, r: ReadItems): ReadItems {
    match r
    case Ok(rest) => Ok(items + rest)
    case Err(e) => Err(e)
  }

  lemma TrimStartShorter(s: string)
    ensures |TrimStart(s)| <= |s|
  {}

  /** An array's items and the commas after them. */
  function Items(rest: string): ReadItems
    decreases |rest|
  {
    if rest == [] then Ok([])
    else
      match ReadString(rest)
      case Err(e) => Err(e)
      case Ok((item, after)) =>
        var next := TrimStart(after);
        TrimStartShorter(after);
        if next == [] then Ok([item])
        else if next[0] == ',' then
          TrimStartShorter(next[1..]);
          PrependItems([item], Items(TrimStart(next[1..])))
        else Err("expected , between array items")
  }

  function ReadValue(text: string): Result<Value, Fault> {
    if text != [] && text[0] == '[' then
      if |text| == 1 || text[|text| - 1] != ']' then Err(Fixed("text after the array"))
      else
        match Items(Trim(text[1..|text| - 1]))
        case Ok(items) => Ok(List(items))
        case Err(e) => Err(Fixed(e))
    else if text != [] && (text[0] == '"' || text[0] == '\'') then
      match ReadString(text)
      case Err(e) => Err(Fixed(e))
      case Ok((s, after)) => if Trim(after) == [] then Ok(Str(s)) else Err(Fixed("text after the string"))
    else
      match ParseI64(text)
      case Some(n) => Ok(Int(n))
      case None => Err(NotAValue(text))
  }

  lemma PrependItemsTwice(a: seq<string>, b: seq<string>, r: ReadItems)
    ensures PrependItems(a, PrependItems(b, r)) == PrependItems(a + b, r)
  {
    if r.Ok? {
      assert a + (b + r.value) == a + b + r.value;
    }
  }

  lemma PrependNoItems(r: ReadItems)
    ensures PrependItems([], r) == r
  {
    if r.Ok? {
      assert [] + r.value == r.value;
    }
  }

  /** `parse_value`. */
  method ParseValue(text: string) returns (r: Result<Value, Fault>)
    ensures r == ReadValue(text)
  {
    if text != [] && text[0] == '[' {
      if |text| == 1 || text[|text| - 1] != ']' {
        return Err(Fixed("text after the array"));
      }
      var items := [];
      var rest := Trim(text[1..|text| - 1]);
      PrependNoItems(Items(rest));
      while rest != []
        invariant PrependItems(items, Items(rest)) == Items(Trim(text[1..|text| - 1]))
        decreases |rest|
      {
        var read := ParseString(rest);
        if read.Err? {
          return Err(Fixed(read.error));
        }
        var next := TrimStart(read.value.1);
        TrimStartShorter(read.value.1);
        if next == [] {
          assert items + [read.value.0] + [] == items + [read.value.0];
          rest := [];
        } else if next[0] == ',' {
          TrimStartShorter(next[1..]);
          PrependItemsTwice(items, [read.value.0], Items(TrimStart(next[1..])));
          rest := TrimStart(next[1..]);
        } else {
          return Err(Fixed("expected , between array items"));
        }
        items := items + [read.value.0];
      }
      assert items + [] == items;
      return Ok(List(items));
    }
    if text != [] && (text[0] == '"' || text[0] == '\'') {
      var read := ParseString(text);
      if read.Err? {
        return Err(Fixed(read.error));
      }
      return if Trim(read.value.1) == [] then Ok(Str(read.value.0)) else Err(Fixed("text after the string"));
    }
    var n := ParseI64(text);
    return if n.Some? then Ok(Int(n.value)) else Err(NotAValue(text));
  }

  // ---------------------------------------------------------------- the file

  const KEYS: seq<string> := ["port", "origins", "databases", "web", "engine", "engine_threads", "engine_hash"]

  /** The settings with the value of `key` changed. */
  function Assign(c: Config, key: string, v: Value): Result<Config, Fault> {
    if key == "port" && v.Int? then
      if 0 < v.n < 0x1_0000 then Ok(c.(port := v.n)) else Err(Fixed("port out of range"))
    else if key == "origins" && v.List? then Ok(c.(origins := v.items))
    else if key == "databases" && v.List? then Ok(c.(databases := v.items))
    else if key == "web" && v.Str? then Ok(c.(web := v.s))
    else if key == "engine" && v.Str? then Ok(c.(engine := Some(v.s)))
    else if key == "engine_threads" && v.Int? then
      if 0 < v.n < 0x1_0000_0000 then Ok(c.(threads := Some(v.n))) else Err(Fixed("engine_threads out of range"))
    else if key == "engine_hash" && v.Int? then
      if 0 < v.n < 0x1_0000_0000 then Ok(c.(hash := Some(v.n))) else Err(Fixed("engine_hash out of range"))
    else if key in KEYS then Err(Fixed("wrong type"))
    else Err(UnknownKey(key))
  }

  predicate OpenArray(text: string) {
    text != [] && text[0] == '[' && !HasClose(text, None)
  }

  /** An array's text with the lines from `j` on that it continues over, and the line
      after them; `None` when no line closes it. */
  function Gathered(lines: seq<string>, j: nat, text: string): (r: Option<(string, nat)>)
    requires j <= |lines|
    ensures r.Some? ==> j <= r.value.1 <= |lines|
    decreases |lines| - j
  {
    if !OpenArray(text) then Some((text, j))
    else if j == |lines| then None
    else Gathered(lines, j + 1, text + " " + Trim(WithoutComment(lines[j])))
  }

  /** One line, or the lines of one array: the settings after it and the line after it. */
  function Entry(lines: seq<string>, i: nat, c: Config): (r: Result<(Config, nat), Syntax>)
    requires i < |lines|
    ensures r.Ok? ==> i < r.value.1 <= |lines|
  {
    var line := Trim(WithoutComment(lines[i]));
    if line == [] then Ok((c, i + 1))
    else
      var eq := Find(line, '=');
      if eq == |line| then Err(Syntax(i + 1, Fixed("expected key = value")))
      else
        match Gathered(lines, i + 1, Trim(line[eq + 1..]))
        case None => Err(Syntax(i + 1, Fixed("unterminated array")))
        case Some((text, next)) =>
          match ReadValue(text)
          case Err(f) => Err(Syntax(i + 1, f))
          case Ok(v) =>
            match Assign(c, Trim(line[..eq]), v)
            case Err(f) => Err(Syntax(i + 1, f))
            case Ok(c') => Ok((c', next))
  }

  function ParseLines(lines: seq<string>, i: nat, c: Config): Result<Config, Syntax>
    requires i <= |lines|
    decreases |lines| - i
  {
    if i == |lines| then Ok(c)
    else
      match Entry(lines, i, c)
      case Err(e) => Err(e)
      case Ok((c', next)) => ParseLines(lines, next, c')
  }

  /** The settings `text` holds, or the first line at fault. */
  function Parsed(text: string): Result<Config, Syntax> {
    ParseLines(Lines(text), 0, DEFAULT)
  }

  /** `parse_text`. */
  method ParseText(text: string) returns (r: Result<Config, Syntax>)
    ensures r == Parsed(text)
  {
    hide Entry, Lines;
    var config := DEFAULT;
    var lines := Lines(text);
    var i := 0;
    while i < |lines|
      invariant i <= |lines|
      invariant ParseLines(lines, i, config) == Parsed(text)
    {
      var entry := ParseEntry(lines, i, config);
      if entry.Err? {
        return Err(entry.error);
      }
      config, i := entry.value.0, entry.value.1;
    }
    return Ok(config);
  }

  /** The body of the loop: one line, with the lines its array continues over. */
  method ParseEntry(lines: seq<string>, at: nat, config: Config) returns (r: Result<(Config, nat), Syntax>)
    requires at < |lines|
    ensures r == Entry(lines, at, config)
  {
    hide HasClose, Trim, Find, ReadValue, Assign, WithoutComment;
    var stripped := StripComment(lines[at]);
    var line := Trim(stripped);
    var i := at + 1;
    if line == [] {
      return Ok((config, i));
    }
    var eq := Find(line, '=');
    if eq == |line| {
      return Err(Syntax(at + 1, Fixed("expected key = value")));
    }
    var value := Trim(line[eq + 1..]);
    var closed := Closes(value);
    while value != [] && value[0] == '[' && !closed
      invariant at < i <= |lines| && closed == HasClose(value, None)
      invariant Gathered(lines, i, value) == Gathered(lines, at + 1, Trim(line[eq + 1..]))
      decreases |lines| - i
    {
      if i == |lines| {
        return Err(Syntax(at + 1, Fixed("unterminated array")));
      }
      var more := StripComment(lines[i]);
      value := value + " " + Trim(more);
      i := i + 1;
      closed := Closes(value);
    }
    var parsed := ParseValue(value);
    if parsed.Err? {
      return Err(Syntax(at + 1, parsed.error));
    }
    var entered := Assign(config, Trim(line[..eq]), parsed.value);
    return if entered.Err? then Err(Syntax(at + 1, entered.error)) else Ok((entered.value, i));
  }
}
