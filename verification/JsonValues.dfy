/** Objects and arrays as `json.rs` writes them, nested in any way, and a reader of RFC 8259
    that gets back the same values with the same fields in order. */
module JsonValues {
  import opened Json
  import opened Text
  import opened Wrappers

  datatype V = Null | Bool(b: bool) | Num(n: int) | Str(s: string) | Arr(items: seq<V>) | Object(fields: seq<Field>)
  datatype Field = Field(key: string, value: V)

  // ---------------------------------------------------------------- written

  function NumText(n: int): string {
    if n < 0 then "-" + Decimal(-n) else Decimal(n)
  }

  function ValueText(v: V): string
    decreases v
  {
    match v
    case Null => "null"
    case Bool(b) => if b then "true" else "false"
    case Num(n) => NumText(n)
    case Str(s) => StringText(s)
    case Arr(items) => "[" + ItemsText(items) + "]"
    case Object(fields) => "{" + FieldsText(fields) + "}"
  }

  function ItemsText(items: seq<V>): string
    decreases items
  {
    if items == [] then ""
    else if |items| == 1 then ValueText(items[0])
    else ValueText(items[0]) + "," + ItemsText(items[1..])
  }

  function FieldText(f: Field): string
    decreases f
  {
    StringText(f.key) + ":" + ValueText(f.value)
  }

  function FieldsText(fields: seq<Field>): string
    decreases fields
  {
    if fields == [] then ""
    else if |fields| == 1 then FieldText(fields[0])
    else FieldText(fields[0]) + "," + FieldsText(fields[1..])
  }

  lemma {:induction false} FieldsAppend(fields: seq<Field>, f: Field)
    ensures FieldsText(fields + [f])
         == FieldsText(fields) + (if fields == [] then "" else ",") + FieldText(f)
    decreases |fields|
  {
    hide FieldText;
    var all := fields + [f];
    if |fields| > 0 {
      assert all[1..] == fields[1..] + [f];
      FieldsAppend(fields[1..], f);
    }
  }

  lemma {:induction false} ItemsAppend(items: seq<V>, v: V)
    ensures ItemsText(items + [v]) == ItemsText(items) + (if items == [] then "" else ",") + ValueText(v)
    decreases |items|
  {
    hide ValueText;
    var all := items + [v];
    if |items| > 0 {
      assert all[1..] == items[1..] + [v];
      ItemsAppend(items[1..], v);
    }
  }

  /** `Obj`, with the fields written so far. */
  class Obj {
    var out: string
    var empty: bool
    ghost var fields: seq<Field>

    ghost predicate Valid()
      reads this
    {
      out == "{" + FieldsText(fields) && empty == (fields == [])
    }

    constructor ()
      ensures Valid() && fields == []
    {
      out, empty, fields := "{", true, [];
    }

    /** `key`. */
    method Key(key: string)
      modifies `out, `empty
      ensures out == old(out) + (if old(empty) then "" else ",") + StringText(key) + ":" && !empty
    {
      if !empty {
        out := out + ",";
      }
      empty := false;
      out := PushString(out, key);
      out := out + ":";
    }

    /** `raw`: a value that is JSON already. */
    method Raw(key: string, json: string, ghost value: V)
      requires Valid() && json == ValueText(value)
      modifies this
      ensures Valid() && fields == old(fields) + [Field(key, value)]
    {
      hide ValueText, FieldsText, StringText;
      FieldsAppend(fields, Field(key, value));
      Key(key);
      out := out + json;
      fields := fields + [Field(key, value)];
    }

    method String(key: string, value: string)
      requires Valid()
      modifies this
      ensures Valid() && fields == old(fields) + [Field(key, Str(value))]
    {
      hide StringText;
      var json := PushString("", value);
      assert json == ValueText(Str(value));
      Raw(key, json, Str(value));
    }

    method Number(key: string, value: int)
      requires Valid()
      modifies this
      ensures Valid() && fields == old(fields) + [Field(key, Num(value))]
    {
      Raw(key, NumText(value), Num(value));
    }

    method Boolean(key: string, value: bool)
      requires Valid()
      modifies this
      ensures Valid() && fields == old(fields) + [Field(key, Bool(value))]
    {
      Raw(key, if value then "true" else "false", Bool(value));
    }

    method Done() returns (text: string)
      requires Valid()
      modifies this
      ensures text == ValueText(Object(old(fields)))
    {
      out := out + "}";
      return out;
    }
  }

  /** `array`, of values that are JSON already. */
  method Array(texts: seq<string>, ghost items: seq<V>) returns (out: string)
    requires |texts| == |items| && forall i :: 0 <= i < |items| ==> texts[i] == ValueText(items[i])
    ensures out == ValueText(Arr(items))
  {
    hide ItemsText;
    NoItems();
    out := "[";
    for i := 0 to |texts|
      invariant out == "[" + ItemsText(items[..i])
    {
      assert items[..i + 1] == items[..i] + [items[i]];
      ItemsAppend(items[..i], items[i]);
      if i > 0 {
        out := out + ",";
      }
      out := out + texts[i];
    }
    assert items[..|items|] == items;
    out := out + "]";
  }

  lemma NoItems()
    ensures ItemsText([]) == ""
  {}

  // ---------------------------------------------------------------- read

  predicate IsSpace(c: char) {
    c == ' ' || c == '\t' || c == '\n' || c == '\r'
  }

  function Skip(s: string): (r: string)
    ensures |r| <= |s|
  {
    if s != "" && IsSpace(s[0]) then Skip(s[1..]) else s
  }

  function DigitCount(s: string): (n: nat)
    ensures n <= |s|
  {
    if s == "" || !IsDigit(s[0]) then 0 else 1 + DigitCount(s[1..])
  }

  /** A number without a fraction or an exponent (section 6 of RFC 8259). */
  function ParseNumber(s: string): (r: Option<(int, string)>)
    ensures r.Some? ==> |r.value.1| < |s|
  {
    var negative := s != "" && s[0] == '-';
    var t := if negative then s[1..] else s;
    var n := DigitCount(t);
    if n == 0 || (t[0] == '0' && n > 1) || FromDigits(t[..n]) == None then None
    else
      var value := FromDigits(t[..n]).value;
      Some((if negative then -(value as int) else value, t[n..]))
  }

  predicate Prefixed(p: string, s: string) {
    |p| <= |s| && s[..|p|] == p
  }

  function ParseValue(text: string): (r: Option<(V, string)>)
    ensures r.Some? ==> |r.value.1| < |text|
    decreases |text|, 0
  {
    var s := Skip(text);
    if s == "" then None
    else if s[0] == '"' then
      match Unquoted(s[1..])
      case None => None
      case Some((value, rest)) => Some((Str(value), rest))
    else if s[0] == '[' then
      var t := Skip(s[1..]);
      if t != "" && t[0] == ']' then Some((Arr([]), t[1..]))
      else
        match ParseItems(t)
        case None => None
        case Some((items, rest)) => Some((Arr(items), rest))
    else if s[0] == '{' then
      var t := Skip(s[1..]);
      if t != "" && t[0] == '}' then Some((Object([]), t[1..]))
      else
        match ParseFields(t)
        case None => None
        case Some((fields, rest)) => Some((Object(fields), rest))
    else if Prefixed("true", s) then Some((Bool(true), s[4..]))
    else if Prefixed("false", s) then Some((Bool(false), s[5..]))
    else if Prefixed("null", s) then Some((Null, s[4..]))
    else
      match ParseNumber(s)
      case None => None
      case Some((n, rest)) => Some((Num(n), rest))
  }

  /** An array's values and its closing bracket. */
  function ParseItems(s: string): (r: Option<(seq<V>, string)>)
    ensures r.Some? ==> |r.value.1| < |s|
    decreases |s|, 1
  {
    match ParseValue(s)
    case None => None
    case Some((v, after)) =>
      var t := Skip(after);
      if t == "" then None
      else if t[0] == ']' then Some(([v], t[1..]))
      else if t[0] != ',' then None
      else
        match ParseItems(t[1..])
        case None => None
        case Some((items, rest)) => Some(([v] + items, rest))
  }

  /** An object's fields and its closing bracket. */
  function ParseFields(text: string): (r: Option<(seq<Field>, string)>)
    ensures r.Some? ==> |r.value.1| < |text|
    decreases |text|, 1
  {
    var s := Skip(text);
    if s == "" || s[0] != '"' then None
    else
      match Unquoted(s[1..])
      case None => None
      case Some((key, after)) =>
        var colon := Skip(after);
        if colon == "" || colon[0] != ':' then None
        else
          match ParseValue(colon[1..])
          case None => None
          case Some((v, more)) =>
            var t := Skip(more);
            if t == "" then None
            else if t[0] == '}' then Some(([Field(key, v)], t[1..]))
            else if t[0] != ',' then None
            else
              match ParseFields(t[1..])
              case None => None
              case Some((fields, rest)) => Some(([Field(key, v)] + fields, rest))
  }

  // ---------------------------------------------------------------- read back

  /** What may follow a value. */
  predicate Stops(rest: string) {
    rest == "" || rest[0] == ',' || rest[0] == ']' || rest[0] == '}'
  }

  lemma {:induction false} CountDigits(d: string, rest: string)
    requires (forall i :: 0 <= i < |d| ==> IsDigit(d[i])) && (rest != "" ==> !IsDigit(rest[0]))
    ensures DigitCount(d + rest) == |d|
  {
    if d == "" {
      assert d + rest == rest;
    } else {
      assert (d + rest)[1..] == d[1..] + rest;
      CountDigits(d[1..], rest);
    }
  }

  lemma DecimalParses(n: nat, rest: string)
    requires Stops(rest)
    ensures ParseNumber(Decimal(n) + rest) == Some((n, rest))
    ensures ParseNumber("-" + Decimal(n) + rest) == Some((-(n as int), rest))
  {
    hide Decimal, FromDigits, DigitCount;
    var d := Decimal(n);
    DecimalReads(n);
    DecimalFirst(n);
    DecimalDigits(n);
    CountDigits(d, rest);
    assert (d + rest)[..|d|] == d && (d + rest)[|d|..] == rest;
    assert ("-" + d + rest)[1..] == d + rest;
  }

  lemma DecimalDigits(n: nat)
    ensures forall i :: 0 <= i < |Decimal(n)| ==> IsDigit(Decimal(n)[i])
  {
    hide Decimal;
    var d := Decimal(n);
    forall i | 0 <= i < |d| ensures IsDigit(d[i]) {
      assert d[i] in d;
    }
  }

  lemma NumberReads(n: int, rest: string)
    requires Stops(rest)
    ensures ParseValue(NumText(n) + rest) == Some((Num(n), rest))
  {
    hide Decimal, ParseNumber, Unquoted;
    var d := Decimal(if n < 0 then -n else n);
    DecimalDigits(if n < 0 then -n else n);
    DecimalParses(if n < 0 then -n else n, rest);
    var s := NumText(n) + rest;
    assert s[0] == if n < 0 then '-' else d[0];
    assert Skip(s) == s;
  }

  lemma WordReads(v: V, rest: string)
    requires v.Null? || v.Bool?
    ensures ParseValue(ValueText(v) + rest) == Some((v, rest))
  {
    hide ParseNumber, Unquoted;
    var (p, s) := (ValueText(v), ValueText(v) + rest);
    assert s[..|p|] == p && s[|p|..] == rest;
    assert s[0] == p[0] && Skip(s) == s;
  }

  lemma TextReads(value: string, rest: string)
    ensures ParseValue(StringText(value) + rest) == Some((Str(value), rest))
  {
    hide Unquoted, WrittenAll;
    var s := StringText(value) + rest;
    StringReads(value, rest);
    assert s[1..] == WrittenAll(value) + ("\"" + rest);
    assert s[0] == '"' && Skip(s) == s;
  }

  lemma FirstOfText(v: V)
    ensures var t := ValueText(v); t != "" && !IsSpace(t[0]) && t[0] != ']' && t[0] != '}'
  {
    hide WrittenAll, Decimal;
    if v.Num? {
      DecimalDigits(if v.n < 0 then -v.n else v.n);
    }
  }

  /** A value written is read back, with what follows it. */
  lemma {:induction false} ValueReads(v: V, rest: string)
    requires Stops(rest)
    ensures ParseValue(ValueText(v) + rest) == Some((v, rest))
    decreases v, 0
  {
    match v
    case Num(n) => NumberReads(n, rest);
    case Str(s) => TextReads(s, rest);
    case Arr(items) => ArrayReads(items, rest);
    case Object(fields) => ObjectReads(fields, rest);
    case _ => WordReads(v, rest);
  }

  lemma {:induction false} ArrayReads(items: seq<V>, rest: string)
    ensures ParseValue("[" + ItemsText(items) + "]" + rest) == Some((Arr(items), rest))
    decreases items, 1
  {
    hide Unquoted, ParseNumber, ItemsText, ParseItems;
    var s := "[" + ItemsText(items) + "]" + rest;
    var t := ItemsText(items) + ("]" + rest);
    assert s[1..] == t && s[0] == '[' && Skip(s) == s;
    if items == [] {
      NoItems();
      assert t == "]" + rest && t[1..] == rest && Skip(t) == t;
    } else {
      ItemsRead(items, rest);
      FirstOfItems(items);
      assert Skip(t) == t;
    }
  }

  lemma FirstOfItems(items: seq<V>)
    requires items != []
    ensures var t := ItemsText(items); t != "" && !IsSpace(t[0]) && t[0] != ']'
  {
    hide ValueText;
    FirstOfText(items[0]);
  }

  lemma {:induction false} ItemsRead(items: seq<V>, rest: string)
    requires items != []
    ensures ParseItems(ItemsText(items) + ("]" + rest)) == Some((items, rest))
    decreases items, 0
  {
    hide ParseValue, ValueText;
    var s := ItemsText(items) + ("]" + rest);
    if |items| == 1 {
      ValueReads(items[0], "]" + rest);
      assert ("]" + rest)[1..] == rest && Skip("]" + rest) == "]" + rest;
      assert items == [items[0]];
    } else {
      var after := "," + ItemsText(items[1..]) + ("]" + rest);
      assert s == ValueText(items[0]) + after;
      ValueReads(items[0], after);
      assert Skip(after) == after && after[1..] == ItemsText(items[1..]) + ("]" + rest);
      ItemsRead(items[1..], rest);
      assert items == [items[0]] + items[1..];
    }
  }

  lemma {:induction false} ObjectReads(fields: seq<Field>, rest: string)
    ensures ParseValue("{" + FieldsText(fields) + "}" + rest) == Some((Object(fields), rest))
    decreases fields, 1
  {
    hide Unquoted, ParseNumber, FieldsText, ParseFields;
    var s := "{" + FieldsText(fields) + "}" + rest;
    var t := FieldsText(fields) + ("}" + rest);
    assert s[1..] == t && s[0] == '{' && Skip(s) == s;
    if fields == [] {
      NoFields();
      assert t == "}" + rest && t[1..] == rest && Skip(t) == t;
    } else {
      FieldsRead(fields, rest);
      FirstOfFields(fields);
      assert Skip(t) == t;
    }
  }

  lemma NoFields()
    ensures FieldsText([]) == ""
  {}

  lemma FirstOfFields(fields: seq<Field>)
    requires fields != []
    ensures var t := FieldsText(fields); t != "" && t[0] == '"'
  {
    hide ValueText, WrittenAll;
  }

  lemma FieldsSplit(fields: seq<Field>, tail: string)
    requires fields != []
    ensures var (key, v) := (fields[0].key, fields[0].value);
      var after := if |fields| == 1 then tail else "," + (FieldsText(fields[1..]) + tail);
      FieldsText(fields) + tail == "\"" + (WrittenAll(key) + ("\"" + (":" + (ValueText(v) + after))))
  {
    hide ValueText, WrittenAll;
    var (key, v) := (fields[0].key, fields[0].value);
    if |fields| == 1 {
      Regroup(WrittenAll(key), ValueText(v), tail);
    } else {
      var more := FieldsText(fields[1..]);
      Regroup(WrittenAll(key), ValueText(v), "," + (more + tail));
      Comma(FieldText(fields[0]), more, tail);
    }
  }

  lemma Regroup(key: string, v: string, after: string)
    ensures "\"" + key + "\"" + ":" + v + after == "\"" + (key + ("\"" + (":" + (v + after))))
  {}

  lemma Comma(first: string, more: string, tail: string)
    ensures first + "," + more + tail == first + ("," + (more + tail))
  {}

  lemma FieldReads(key: string, v: V, colon: string, after: string)
    requires colon != "" && colon[0] == ':' && ParseValue(colon[1..]) == Some((v, after))
    requires after != "" && (after[0] == ',' || after[0] == '}')
    ensures ParseFields("\"" + (WrittenAll(key) + ("\"" + colon))) ==
      if after[0] == '}' then Some(([Field(key, v)], after[1..]))
      else
        match ParseFields(after[1..])
        case None => None
        case Some((fields, rest)) => Some(([Field(key, v)] + fields, rest))
  {
    hide ParseValue, Unquoted, WrittenAll;
    var s := "\"" + (WrittenAll(key) + ("\"" + colon));
    StringReads(key, colon);
    assert s[1..] == WrittenAll(key) + ("\"" + colon) && s[0] == '"';
    assert Skip(s) == s && Skip(colon) == colon && Skip(after) == after;
  }

  lemma {:induction false} FieldsRead(fields: seq<Field>, rest: string)
    requires fields != []
    ensures ParseFields(FieldsText(fields) + ("}" + rest)) == Some((fields, rest))
    decreases fields, 0
  {
    hide ParseValue, ValueText, Unquoted, WrittenAll, FieldsText, ParseFields;
    var tail := "}" + rest;
    var (key, v) := (fields[0].key, fields[0].value);
    var after := if |fields| == 1 then tail else "," + (FieldsText(fields[1..]) + tail);
    var colon := ":" + (ValueText(v) + after);
    FieldsSplit(fields, tail);
    assert colon[1..] == ValueText(v) + after;
    ValueReads(v, after);
    FieldReads(key, v, colon, after);
    assert fields[0] == Field(key, v);
    if |fields| == 1 {
      assert after[1..] == rest && fields == [fields[0]];
    } else {
      assert after[1..] == FieldsText(fields[1..]) + tail;
      FieldsRead(fields[1..], rest);
      assert fields == [fields[0]] + fields[1..];
    }
  }

  /** A whole text reads as the value it was written for, and nothing is left. */
  lemma WholeReads(v: V)
    ensures ParseValue(ValueText(v)) == Some((v, ""))
  {
    hide ParseValue, ValueText;
    ValueReads(v, "");
    assert ValueText(v) + "" == ValueText(v);
  }
}
