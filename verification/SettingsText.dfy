/** `bridge.toml` as a grammar: settings, each on one line or an array on several, with spaces,
    comments and empty lines between. What `parse_text` reads is exactly a text of settings that
    fit their keys, and each key's last setting is the one that counts. */
module SettingsText {
  import opened Text
  import opened Wrappers
  import opened SettingsFile
  import opened SettingsParse

  // ---------------------------------------------------------------- lines

  /** A line ends at a line feed, or at the carriage return before one; the last needs no end. */
  lemma LinesGrammar(line: string, rest: string)
    requires '\n' !in line
    ensures line != [] && line[|line| - 1] == '\r' ==> Lines(line + ['\n'] + rest) == [line[..|line| - 1]] + Lines(rest)
    ensures line == [] || line[|line| - 1] != '\r' ==> Lines(line + ['\n'] + rest) == [line] + Lines(rest)
    ensures line != [] ==> Lines(line) == [line]
    ensures Lines("") == []
  {
    var text := line + ['\n'] + rest;
    FindAt(line, '\n', rest);
    assert text[..|line|] == line && text[|line| + 1..] == rest;
  }

  // ---------------------------------------------------------------- the grammar

  /** A key and its value, on the lines from `from` up to `upto`. */
  datatype Setting = Setting(from: nat, upto: nat, key: string, value: Value)

  /** A line without its comment and the spaces around what is left. */
  function Stripped(line: string): string {
    Trim(WithoutComment(line))
  }

  predicate Blank(lines: seq<string>, i: nat, j: nat) {
    i <= j <= |lines| && forall k :: i <= k < j ==> Stripped(lines[k]) == ""
  }

  /** What begins on a line and goes on over the next ones, a space between. */
  function Continued(first: string, lines: seq<string>, i: nat, j: nat): string
    requires i <= j <= |lines|
    decreases j
  {
    if i == j then first else Continued(first, lines, i, j - 1) + " " + Stripped(lines[j - 1])
  }

  /** A value of `first` and the lines from `i` to `j`, of which an array takes as many as close it. */
  predicate IsValue(first: string, lines: seq<string>, i: nat, j: nat, value: Value) {
    && i <= j <= |lines| && ReadValue(Continued(first, lines, i, j)) == Ok(value)
    && !OpenArray(Continued(first, lines, i, j))
    && forall k :: i <= k < j ==> OpenArray(Continued(first, lines, i, k))
  }

  /** The key is what is before the line's first equals sign. */
  predicate IsSetting(lines: seq<string>, x: Setting) {
    && x.from < x.upto <= |lines|
    && var line := Stripped(lines[x.from]);
       '=' in line
       && Trim(line[..Find(line, '=')]) == x.key
       && IsValue(Trim(line[Find(line, '=') + 1..]), lines, x.from + 1, x.upto, x.value)
  }

  /** What may be set. */
  predicate Fits(key: string, value: Value) {
    match value
    case Int(n) =>
      || (key == "port" && 1 <= n <= 65535)
      || (key in {"engine_threads", "engine_hash"} && 1 <= n <= 4294967295)
    case Str(_) => key in {"web", "engine"}
    case List(_) => key in {"origins", "databases"}
  }

  /** The lines from `i` on are the settings `xs`, with blank lines between. */
  predicate IsFile(lines: seq<string>, i: nat, xs: seq<Setting>)
    decreases |xs|
  {
    if xs == [] then Blank(lines, i, |lines|)
    else
      && Blank(lines, i, xs[0].from) && IsSetting(lines, xs[0]) && Fits(xs[0].key, xs[0].value)
      && IsFile(lines, xs[0].upto, xs[1..])
  }

  /** What was set last. */
  function LastOf(xs: seq<Setting>, key: string): Option<Value> {
    if xs == [] then None
    else if LastOf(xs[1..], key).Some? then LastOf(xs[1..], key)
    else if xs[0].key == key then Some(xs[0].value)
    else None
  }

  /** Each value is the last set for its key, or as it was. */
  predicate Settles(before: Config, xs: seq<Setting>, c: Config) {
    && (var v := LastOf(xs, "port"); if v.Some? then v == Some(Int(c.port)) else c.port == before.port)
    && (var v := LastOf(xs, "origins"); if v.Some? then v == Some(List(c.origins)) else c.origins == before.origins)
    && (var v := LastOf(xs, "databases");
        if v.Some? then v == Some(List(c.databases)) else c.databases == before.databases)
    && (var v := LastOf(xs, "web"); if v.Some? then v == Some(Str(c.web)) else c.web == before.web)
    && (var v := LastOf(xs, "engine");
        if v.Some? then c.engine.Some? && v == Some(Str(c.engine.value)) else c.engine == before.engine)
    && (var v := LastOf(xs, "engine_threads");
        if v.Some? then c.threads.Some? && v == Some(Int(c.threads.value)) else c.threads == before.threads)
    && (var v := LastOf(xs, "engine_hash");
        if v.Some? then c.hash.Some? && v == Some(Int(c.hash.value)) else c.hash == before.hash)
  }

  // ---------------------------------------------------------------- values over lines

  lemma {:induction false} GatheredValue(first: string, lines: seq<string>, i: nat, k: nat, j: nat)
    requires i <= k <= j <= |lines|
    requires forall n :: k <= n < j ==> OpenArray(Continued(first, lines, i, n))
    requires !OpenArray(Continued(first, lines, i, j))
    ensures Gathered(lines, k, Continued(first, lines, i, k)) == Some((Continued(first, lines, i, j), j))
    decreases j - k
  {
    hide OpenArray, Trim, WithoutComment;
    if k < j {
      GatheredValue(first, lines, i, k + 1, j);
    }
  }

  lemma {:induction false} ValueGathered(first: string, lines: seq<string>, i: nat, k: nat)
    requires i <= k <= |lines|
    ensures var r := Gathered(lines, k, Continued(first, lines, i, k));
      if r == None then forall n :: k <= n <= |lines| ==> OpenArray(Continued(first, lines, i, n))
      else
        var j := r.value.1;
        && k <= j && r.value.0 == Continued(first, lines, i, j) && !OpenArray(Continued(first, lines, i, j))
        && forall n :: k <= n < j ==> OpenArray(Continued(first, lines, i, n))
    decreases |lines| - k
  {
    hide OpenArray, Trim, WithoutComment;
    if k < |lines| {
      ValueGathered(first, lines, i, k + 1);
    }
  }

  // ---------------------------------------------------------------- one setting

  lemma SetsOne(c: Config, x: Setting)
    ensures Fits(x.key, x.value) <==> Assign(c, x.key, x.value).Ok?
    ensures Fits(x.key, x.value) ==> Settles(c, [x], Assign(c, x.key, x.value).value)
  {}

  lemma SettingEntry(lines: seq<string>, x: Setting, c: Config)
    requires IsSetting(lines, x)
    ensures if Fits(x.key, x.value) then
              Assign(c, x.key, x.value).Ok? && Entry(lines, x.from, c) == Ok((Assign(c, x.key, x.value).value, x.upto))
            else Entry(lines, x.from, c).Err?
  {
    hide OpenArray, Trim, WithoutComment, ReadValue, Assign, Fits, Continued;
    var line := Stripped(lines[x.from]);
    var first := Trim(line[Find(line, '=') + 1..]);
    FirstContinued(first, lines, x.from + 1);
    GatheredValue(first, lines, x.from + 1, x.from + 1, x.upto);
    SetsOne(c, x);
  }

  lemma FirstContinued(first: string, lines: seq<string>, i: nat)
    requires i <= |lines|
    ensures Continued(first, lines, i, i) == first
  {}

  lemma EntrySetting(lines: seq<string>, i: nat, c: Config) returns (x: Setting)
    requires i < |lines| && Stripped(lines[i]) != "" && Entry(lines, i, c).Ok?
    ensures IsSetting(lines, x) && x.from == i && Fits(x.key, x.value)
    ensures Assign(c, x.key, x.value).Ok? && Entry(lines, i, c) == Ok((Assign(c, x.key, x.value).value, x.upto))
  {
    hide OpenArray, Trim, WithoutComment, ReadValue, Assign, Fits, Continued;
    var line := Stripped(lines[i]);
    var eq := Find(line, '=');
    var first := Trim(line[eq + 1..]);
    FirstContinued(first, lines, i + 1);
    ValueGathered(first, lines, i + 1, i + 1);
    var r := Gathered(lines, i + 1, first).value;
    x := Setting(i, r.1, Trim(line[..eq]), ReadValue(r.0).value);
    SetsOne(c, x);
  }

  // ---------------------------------------------------------------- all settings

  lemma {:induction false} BlankParses(lines: seq<string>, i: nat, j: nat, c: Config)
    requires Blank(lines, i, j)
    ensures ParseLines(lines, i, c) == ParseLines(lines, j, c)
    decreases j - i
  {
    hide Trim, WithoutComment;
    if i < j {
      BlankEntry(lines, i, c);
      BlankParses(lines, i + 1, j, c);
    }
  }

  lemma BlankEntry(lines: seq<string>, i: nat, c: Config)
    requires i < |lines| && Stripped(lines[i]) == ""
    ensures Entry(lines, i, c) == Ok((c, i + 1))
  {
    hide Trim, WithoutComment;
  }

  lemma SettlesMore(before: Config, x: Setting, mid: Config, xs: seq<Setting>, c: Config)
    requires Settles(before, [x], mid)
    ensures Settles(mid, xs, c) <==> Settles(before, [x] + xs, c)
  {
    assert ([x] + xs)[1..] == xs;
    LastMore(x, xs, "port");
    LastMore(x, xs, "origins");
    LastMore(x, xs, "databases");
    LastMore(x, xs, "web");
    LastMore(x, xs, "engine");
    LastMore(x, xs, "engine_threads");
    LastMore(x, xs, "engine_hash");
    hide LastOf;
  }

  lemma LastMore(x: Setting, xs: seq<Setting>, key: string)
    ensures LastOf([x] + xs, key) == if LastOf(xs, key).Some? then LastOf(xs, key) else LastOf([x], key)
  {
    assert ([x] + xs)[1..] == xs;
  }

  /** A text of settings is read as what they settle. */
  lemma {:induction false} FileReads(lines: seq<string>, i: nat, xs: seq<Setting>, c: Config)
    requires i <= |lines| && IsFile(lines, i, xs)
    ensures ParseLines(lines, i, c).Ok? && Settles(c, xs, ParseLines(lines, i, c).value)
    decreases |xs|
  {
    hide Entry, IsSetting, Fits, Assign, Settles, Blank;
    if xs == [] {
      BlankParses(lines, i, |lines|, c);
      NothingSettles(c);
    } else {
      var x := xs[0];
      BlankParses(lines, i, x.from, c);
      WithinLines(lines, x);
      SettingEntry(lines, x, c);
      SetsOne(c, x);
      var mid := Assign(c, x.key, x.value).value;
      FileReads(lines, x.upto, xs[1..], mid);
      SettlesMore(c, x, mid, xs[1..], ParseLines(lines, i, c).value);
      assert [x] + xs[1..] == xs;
    }
  }

  lemma NothingSettles(c: Config)
    ensures Settles(c, [], c)
  {}

  lemma WithinLines(lines: seq<string>, x: Setting)
    requires IsSetting(lines, x)
    ensures x.from < x.upto <= |lines| && Stripped(lines[x.from]) != ""
  {}

  /** What is read is a text of settings. */
  lemma {:induction false} ReadsFile(lines: seq<string>, i: nat, c: Config) returns (xs: seq<Setting>)
    requires i <= |lines| && ParseLines(lines, i, c).Ok?
    ensures IsFile(lines, i, xs)
    decreases |lines| - i
  {
    hide Entry, IsSetting, Fits, Assign, Stripped;
    xs := [];
    if i < |lines| {
      if Stripped(lines[i]) == "" {
        BlankEntry(lines, i, c);
        xs := ReadsFile(lines, i + 1, c);
      } else {
        var x := EntrySetting(lines, i, c);
        WithinLines(lines, x);
        xs := ReadsFile(lines, x.upto, Assign(c, x.key, x.value).value);
        assert ([x] + xs)[1..] == xs;
        xs := [x] + xs;
      }
    }
  }

  lemma SettledOnce(before: Config, xs: seq<Setting>, c: Config, d: Config)
    requires Settles(before, xs, c) && Settles(before, xs, d)
    ensures c == d
  {
    hide LastOf;
  }

  /** The file is read exactly when it is a text of settings, and as what they settle over the
      defaults. */
  lemma FileGrammar(text: string, c: Config)
    ensures Parsed(text) == Ok(c) <==> exists xs :: IsFile(Lines(text), 0, xs) && Settles(DEFAULT, xs, c)
  {
    hide IsFile, Lines, ParseLines, Settles;
    var lines := Lines(text);
    if Parsed(text) == Ok(c) {
      var xs := ReadsFile(lines, 0, DEFAULT);
      FileReads(lines, 0, xs, DEFAULT);
    }
    forall xs | IsFile(lines, 0, xs) && Settles(DEFAULT, xs, c) ensures Parsed(text) == Ok(c) {
      FileReads(lines, 0, xs, DEFAULT);
      SettledOnce(DEFAULT, xs, c, Parsed(text).value);
    }
  }

  // ---------------------------------------------------------------- the line at fault

  /** A line that is not blank and begins no setting that fits. */
  ghost predicate AtFault(lines: seq<string>, i: nat) {
    && i < |lines| && Stripped(lines[i]) != ""
    && forall x {:trigger IsSetting(lines, x)} :: IsSetting(lines, x) && x.from == i ==> !Fits(x.key, x.value)
  }

  /** A text that is not read is refused at the first line at fault: all before it are settings. */
  lemma {:induction false} FaultFirst(lines: seq<string>, i: nat, c: Config) returns (xs: seq<Setting>, at: nat)
    requires i <= |lines| && ParseLines(lines, i, c).Err?
    ensures ParseLines(lines, i, c).error.line == at + 1 && AtFault(lines, at)
    ensures i <= at && Precede(lines, i, xs, at)
    decreases |lines| - i
  {
    hide Entry, IsSetting, Fits, Assign, Stripped;
    xs, at := [], i;
    if Stripped(lines[i]) == "" {
      BlankEntry(lines, i, c);
      xs, at := FaultFirst(lines, i + 1, c);
    } else if Entry(lines, i, c).Ok? {
      var x := EntrySetting(lines, i, c);
      WithinLines(lines, x);
      xs, at := FaultFirst(lines, x.upto, Assign(c, x.key, x.value).value);
      assert ([x] + xs)[1..] == xs;
      xs := [x] + xs;
    } else {
      FaultLine(lines, i, c);
      forall x {:trigger IsSetting(lines, x)} | IsSetting(lines, x) && x.from == i ensures !Fits(x.key, x.value) {
        SettingEntry(lines, x, c);
      }
    }
  }

  lemma FaultLine(lines: seq<string>, i: nat, c: Config)
    requires i < |lines| && Entry(lines, i, c).Err?
    ensures Entry(lines, i, c).error.line == i + 1
  {
    hide Trim, WithoutComment, ReadValue, Assign, Gathered;
  }

  /** The settings from line `i` up to line `at`. */
  predicate Precede(lines: seq<string>, i: nat, xs: seq<Setting>, at: nat)
    decreases |xs|
  {
    if xs == [] then Blank(lines, i, at)
    else
      && Blank(lines, i, xs[0].from) && IsSetting(lines, xs[0]) && Fits(xs[0].key, xs[0].value)
      && xs[0].upto <= at && Precede(lines, xs[0].upto, xs[1..], at)
  }

  lemma RefusedAtFault(text: string) returns (xs: seq<Setting>, at: nat)
    requires Parsed(text).Err?
    ensures Parsed(text).error.line == at + 1 && AtFault(Lines(text), at) && Precede(Lines(text), 0, xs, at)
  {
    hide Lines, ParseLines, AtFault, Precede;
    xs, at := FaultFirst(Lines(text), 0, DEFAULT);
  }
}
