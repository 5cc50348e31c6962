/** The values of `bridge.toml` as a grammar: arrays of strings with or without a comma after the
    last, strings and numbers. `parse_value` reads exactly these, each as what it means. */
module SettingsValues {
  import opened Text
  import opened Wrappers
  import opened SettingsParse
  import opened SettingsStrings

  // ---------------------------------------------------------------- the grammar

  /** An item of an array with its comma, and the spaces before and after that. */
  datatype Slot = Slot(w: Written, before: string, after: string)

  /** An array between its brackets: spaces, items with a comma, perhaps one without. */
  datatype ArrayText = ArrayText(lead: string, slots: seq<Slot>, last: Option<Slot>)

  predicate AllSpace(s: string) {
    forall c <- s :: IsWhitespace(c)
  }

  predicate IsSlot(x: Slot) {
    IsWritten(x.w) && AllSpace(x.before) && AllSpace(x.after)
  }

  predicate AllSlots(xs: seq<Slot>) {
    forall x <- xs :: IsSlot(x)
  }

  predicate IsArray(a: ArrayText) {
    AllSpace(a.lead) && AllSlots(a.slots) && (a.last.Some? ==> IsSlot(a.last.value))
  }

  function SpellSlot(x: Slot): string
    requires IsSlot(x)
  {
    Spell(x.w) + (x.before + ("," + x.after))
  }

  function SpellLast(last: Option<Slot>): string
    requires last.Some? ==> IsSlot(last.value)
  {
    match last
    case None => ""
    case Some(x) => Spell(x.w) + x.before
  }

  function SpellSlots(xs: seq<Slot>): string
    requires AllSlots(xs)
  {
    if xs == [] then [] else SpellSlot(xs[0]) + SpellSlots(xs[1..])
  }

  function SpellItems(xs: seq<Slot>, last: Option<Slot>): string
    requires AllSlots(xs) && (last.Some? ==> IsSlot(last.value))
  {
    SpellSlots(xs) + SpellLast(last)
  }

  function SpellArray(a: ArrayText): string
    requires IsArray(a)
  {
    "[" + (a.lead + SpellItems(a.slots, a.last)) + "]"
  }

  function SlotsMean(xs: seq<Slot>): seq<string>
    requires AllSlots(xs)
  {
    if xs == [] then []
    else
      assert IsSlot(xs[0]);
      [Means(xs[0].w)] + SlotsMean(xs[1..])
  }

  function ItemsMean(xs: seq<Slot>, last: Option<Slot>): seq<string>
    requires AllSlots(xs) && (last.Some? ==> IsSlot(last.value))
  {
    SlotsMean(xs) + (if last.Some? then [Means(last.value.w)] else [])
  }

  // ---------------------------------------------------------------- spaces

  lemma {:induction false} TrimStartPast(e: string, rest: string)
    requires AllSpace(e) && (rest != [] ==> !IsWhitespace(rest[0]))
    ensures TrimStart(e + rest) == rest
  {
    if e == [] {
      assert e + rest == rest;
    } else {
      assert (e + rest)[1..] == e[1..] + rest;
      TrimStartPast(e[1..], rest);
    }
  }

  lemma {:induction false} TrimStartCuts(s: string) returns (e: string)
    ensures AllSpace(e) && s == e + TrimStart(s) && (TrimStart(s) != [] ==> !IsWhitespace(TrimStart(s)[0]))
  {
    e := [];
    if s != [] && IsWhitespace(s[0]) {
      e := TrimStartCuts(s[1..]);
      e := [s[0]] + e;
    }
  }

  lemma {:induction false} TrimEndPast(s: string, e: string)
    requires AllSpace(e) && (s != [] ==> !IsWhitespace(s[|s| - 1]))
    ensures TrimEnd(s + e) == s
    decreases |e|
  {
    if e == [] {
      assert s + e == s;
    } else {
      var n := |e| - 1;
      assert (s + e)[..|s + e| - 1] == s + e[..n];
      TrimEndPast(s, e[..n]);
    }
  }

  lemma {:induction false} TrimEndCuts(s: string) returns (e: string)
    ensures AllSpace(e) && s == TrimEnd(s) + e && (TrimEnd(s) != [] ==> !IsWhitespace(TrimEnd(s)[|TrimEnd(s)| - 1]))
    decreases |s|
  {
    e := [];
    if s != [] && IsWhitespace(s[|s| - 1]) {
      var n := |s| - 1;
      e := TrimEndCuts(s[..n]);
      e := e + [s[n]];
    }
  }

  // ---------------------------------------------------------------- arrays

  lemma SpellFirm(w: Written)
    requires IsWritten(w)
    ensures var s := Spell(w); s != [] && !IsWhitespace(s[0]) && !IsWhitespace(s[|s| - 1])
  {
    hide IsWritten;
  }

  lemma SpellItemsFirst(xs: seq<Slot>, last: Option<Slot>)
    requires xs != [] && AllSlots(xs) && (last.Some? ==> IsSlot(last.value))
    ensures SpellItems(xs, last) == SpellSlot(xs[0]) + SpellItems(xs[1..], last)
    ensures ItemsMean(xs, last) == [Means(xs[0].w)] + ItemsMean(xs[1..], last)
  {
    hide IsSlot, SpellSlot, Means;
  }

  lemma SpellItemsLast(last: Option<Slot>)
    requires last.Some? ==> IsSlot(last.value)
    ensures SpellItems([], last) == SpellLast(last)
    ensures ItemsMean([], last) == if last.Some? then [Means(last.value.w)] else []
  {
    assert "" + SpellLast(last) == SpellLast(last);
  }

  lemma {:induction false} SpellSlotsMore(xs: seq<Slot>, y: Slot)
    requires AllSlots(xs) && IsSlot(y)
    ensures AllSlots(xs + [y]) && SpellSlots(xs + [y]) == SpellSlots(xs) + SpellSlot(y)
    ensures SlotsMean(xs + [y]) == SlotsMean(xs) + [Means(y.w)]
  {
    hide IsSlot, SpellSlot, Means;
    if xs == [] {
      assert [] + [y] == [y];
    } else {
      assert (xs + [y])[1..] == xs[1..] + [y];
      SpellSlotsMore(xs[1..], y);
    }
  }

  lemma ItemsFirm(xs: seq<Slot>, last: Option<Slot>)
    requires AllSlots(xs) && (last.Some? ==> IsSlot(last.value))
    ensures var s := SpellItems(xs, last); s != [] ==> !IsWhitespace(s[0])
  {
    hide IsWritten, Spell;
    if xs != [] {
      assert IsSlot(xs[0]);
      SpellFirm(xs[0].w);
    } else if last.Some? {
      SpellFirm(last.value.w);
    }
  }

  lemma LastReads(x: Slot)
    requires IsSlot(x)
    ensures Items(Spell(x.w) + x.before) == Ok([Means(x.w)])
  {
    hide IsWritten, Spell, Means, ReadString;
    SpellFirm(x.w);
    WrittenReads(x.w, x.before);
    TrimStartPast(x.before, "");
    assert x.before + "" == x.before;
  }

  lemma ItemBeforeComma(text: string, item: string, after: string, next: string)
    requires text != [] && ReadString(text) == Ok((item, after)) && TrimStart(after) == "," + next
    ensures Items(text) == PrependItems([item], Items(TrimStart(next)))
  {
    hide ReadString, TrimStart;
    assert ("," + next)[1..] == next;
  }

  lemma SlotReads(x: Slot, rest: string)
    requires IsSlot(x) && (rest != [] ==> !IsWhitespace(rest[0]))
    ensures Items(SpellSlot(x) + rest) == PrependItems([Means(x.w)], Items(rest))
  {
    hide IsWritten, Spell, Means, ReadString, Items, TrimStart;
    var next := "," + (x.after + rest);
    assert SpellSlot(x) + rest == Spell(x.w) + (x.before + next);
    WrittenReads(x.w, x.before + next);
    TrimStartPast(x.before, next);
    ItemBeforeComma(SpellSlot(x) + rest, Means(x.w), x.before + next, x.after + rest);
    TrimStartPast(x.after, rest);
  }

  lemma {:induction false} ItemsRead(xs: seq<Slot>, last: Option<Slot>)
    requires AllSlots(xs) && (last.Some? ==> IsSlot(last.value))
    ensures Items(SpellItems(xs, last)) == Ok(ItemsMean(xs, last))
  {
    hide Items, IsSlot, SpellSlot, Means, SpellItems;
    if xs == [] {
      SpellItemsLast(last);
      if last.Some? {
        LastReads(last.value);
      } else {
        NoItems();
      }
    } else {
      assert IsSlot(xs[0]);
      ItemsFirm(xs[1..], last);
      SlotReads(xs[0], SpellItems(xs[1..], last));
      ItemsRead(xs[1..], last);
      SpellItemsFirst(xs, last);
    }
  }

  lemma NoItems()
    ensures Items("") == Ok([])
  {}

  /** The spaces at the end of the items taken off: they are the last gap's. */
  lemma ItemsTrimmed(xs: seq<Slot>, last: Option<Slot>) returns (ys: seq<Slot>, last': Option<Slot>)
    requires AllSlots(xs) && (last.Some? ==> IsSlot(last.value))
    ensures AllSlots(ys) && (last'.Some? ==> IsSlot(last'.value))
    ensures SpellItems(ys, last') == TrimEnd(SpellItems(xs, last)) && ItemsMean(ys, last') == ItemsMean(xs, last)
  {
    hide IsWritten, Spell, Means, TrimEnd;
    ys, last' := xs, last;
    if last.Some? {
      var x := last.value;
      SpellFirm(x.w);
      assert SpellItems(xs, last) == (SpellSlots(xs) + Spell(x.w)) + x.before;
      TrimEndPast(SpellSlots(xs) + Spell(x.w), x.before);
      last' := Some(x.(before := ""));
      assert SpellLast(last') == Spell(x.w);
    } else if xs != [] {
      var (n, x) := (|xs| - 1, xs[|xs| - 1]);
      var y := x.(after := "");
      assert xs == xs[..n] + [x];
      SpellSlotsMore(xs[..n], x);
      SpellSlotsMore(xs[..n], y);
      ys := xs[..n] + [y];
      TrimEndPast(SpellSlots(ys), x.after);
      assert SpellItems(xs, None) == SpellSlots(ys) + x.after;
      assert SpellItems(ys, None) == SpellSlots(ys);
    } else {
      TrimEndPast("", "");
    }
  }

  /** Any array of the grammar is read as its items. */
  lemma ArrayReads(a: ArrayText)
    requires IsArray(a)
    ensures ReadValue(SpellArray(a)) == Ok(List(ItemsMean(a.slots, a.last)))
  {
    hide Items, IsSlot, SpellItems, ItemsMean, TrimStart, TrimEnd;
    var text := SpellArray(a);
    var body := SpellItems(a.slots, a.last);
    assert text[1..|text| - 1] == a.lead + body;
    ItemsFirm(a.slots, a.last);
    TrimStartPast(a.lead, body);
    var ys, last := ItemsTrimmed(a.slots, a.last);
    ItemsRead(ys, last);
  }

  // ---------------------------------------------------------------- what is read is of the grammar

  lemma {:induction false} ReadsItems(rest: string) returns (xs: seq<Slot>, last: Option<Slot>)
    requires Items(rest).Ok?
    ensures AllSlots(xs) && (last.Some? ==> IsSlot(last.value))
    ensures rest == SpellItems(xs, last) && Items(rest) == Ok(ItemsMean(xs, last))
    decreases |rest|
  {
    hide IsWritten, Spell, Means, ReadString, TrimStart;
    xs, last := [], None;
    if rest != [] {
      var w := ReadsWritten(rest);
      var after := ReadString(rest).value.1;
      var e := TrimStartCuts(after);
      var next := TrimStart(after);
      if next == [] {
        last := Some(Slot(w, after, ""));
        assert after == e + next == e && rest == SpellLast(last);
        SpellItemsLast(last);
      } else {
        var f := TrimStartCuts(next[1..]);
        var more := TrimStart(next[1..]);
        TrimStartShorter(after);
        TrimStartShorter(next[1..]);
        xs, last := ReadsItems(more);
        var x := Slot(w, e, f);
        assert rest == SpellSlot(x) + more by {
          assert next == "," + (f + more);
        }
        assert ([x] + xs)[1..] == xs;
        xs := [x] + xs;
        SpellItemsFirst(xs, last);
      }
    }
  }

  /** Spaces put at the end of the items. */
  lemma ItemsSpaced(xs: seq<Slot>, last: Option<Slot>, e: string) returns (ys: seq<Slot>, last': Option<Slot>)
    requires AllSlots(xs) && (last.Some? ==> IsSlot(last.value)) && AllSpace(e) && (xs != [] || last.Some?)
    ensures AllSlots(ys) && (last'.Some? ==> IsSlot(last'.value))
    ensures SpellItems(ys, last') == SpellItems(xs, last) + e && ItemsMean(ys, last') == ItemsMean(xs, last)
  {
    hide IsWritten, Spell, Means;
    ys, last' := xs, last;
    if last.Some? {
      last' := Some(last.value.(before := last.value.before + e));
      assert SpellLast(last') == SpellLast(last) + e;
    } else {
      var (n, x) := (|xs| - 1, xs[|xs| - 1]);
      var y := x.(after := x.after + e);
      assert xs == xs[..n] + [x];
      SpellSlotsMore(xs[..n], x);
      SpellSlotsMore(xs[..n], y);
      ys := xs[..n] + [y];
      assert SpellSlot(y) == SpellSlot(x) + e;
    }
  }

  lemma ReadsArray(text: string) returns (a: ArrayText)
    requires ReadValue(text).Ok? && ReadValue(text).value.List?
    ensures IsArray(a) && text == SpellArray(a) && ReadValue(text).value.items == ItemsMean(a.slots, a.last)
  {
    hide Items, IsSlot, SpellItems, ItemsMean, TrimStart, TrimEnd, ReadString, ParseI64;
    var inner := text[1..|text| - 1];
    assert text == "[" + inner + "]";
    var lead := TrimStartCuts(inner);
    var e := TrimEndCuts(TrimStart(inner));
    var xs, last := ReadsItems(Trim(inner));
    if xs == [] && last == None {
      SpellItemsLast(None);
      a := ArrayText(lead + e, xs, last);
      assert inner == a.lead + SpellItems(a.slots, a.last);
    } else {
      var ys, last' := ItemsSpaced(xs, last, e);
      a := ArrayText(lead, ys, last');
      assert inner == a.lead + SpellItems(a.slots, a.last);
    }
  }

  /** An array is read exactly when the grammar has it: spaces anywhere between its items, and a
      comma after each but perhaps the last. */
  lemma ArrayGrammar(text: string, items: seq<string>)
    ensures ReadValue(text) == Ok(List(items)) <==>
            exists a :: IsArray(a) && text == SpellArray(a) && ItemsMean(a.slots, a.last) == items
  {
    hide IsSlot, ReadValue, SpellArray, ItemsMean;
    if ReadValue(text) == Ok(List(items)) {
      var a := ReadsArray(text);
    }
    forall a | IsArray(a) && text == SpellArray(a) && ItemsMean(a.slots, a.last) == items
      ensures ReadValue(text) == Ok(List(items))
    {
      ArrayReads(a);
    }
  }

  // ---------------------------------------------------------------- strings and numbers

  lemma TrimNothing(s: string)
    ensures Trim(s) == [] <==> AllSpace(s)
  {
    hide TrimStart, TrimEnd;
    var e := TrimStartCuts(s);
    var f := TrimEndCuts(TrimStart(s));
    if AllSpace(s) {
      assert s + "" == s;
      TrimStartPast(s, "");
      TrimEndPast("", "");
    }
  }

  /** A string is read with spaces after it, and nothing else. */
  lemma StringValueGrammar(text: string, s: string)
    ensures ReadValue(text) == Ok(Str(s)) <==>
            exists w, e :: IsWritten(w) && AllSpace(e) && text == Spell(w) + e && Means(w) == s
  {
    hide IsWritten, ReadString, Spell, Means, Trim, ParseI64, Items, AllSpace;
    if ReadValue(text) == Ok(Str(s)) {
      var w := ReadsWritten(text);
      TrimNothing(ReadString(text).value.1);
    }
    forall w, e | IsWritten(w) && AllSpace(e) && text == Spell(w) + e && Means(w) == s
      ensures ReadValue(text) == Ok(Str(s))
    {
      WrittenReads(w, e);
      TrimNothing(e);
    }
  }

  predicate AllDigits(ds: seq<nat>) {
    forall i :: 0 <= i < |ds| ==> ds[i] < 10
  }

  function SpellDigits(ds: seq<nat>): string
    requires AllDigits(ds)
  {
    if ds == [] then [] else SpellDigits(ds[..|ds| - 1]) + ['0' + ds[|ds| - 1] as char]
  }

  function DigitsNumber(ds: seq<nat>): nat {
    if ds == [] then 0 else 10 * DigitsNumber(ds[..|ds| - 1]) + ds[|ds| - 1]
  }

  lemma {:induction false} DigitsRead(ds: seq<nat>)
    requires AllDigits(ds)
    ensures FromDigits(SpellDigits(ds)) == Some(DigitsNumber(ds))
    ensures ds != [] <==> SpellDigits(ds) != []
    ensures forall c <- SpellDigits(ds) :: IsDigit(c)
  {
    if ds != [] {
      var n := |ds| - 1;
      DigitsRead(ds[..n]);
      var s := SpellDigits(ds);
      assert s[..|s| - 1] == SpellDigits(ds[..n]);
    }
  }

  lemma {:induction false} ReadsDigits(s: string) returns (ds: seq<nat>)
    requires FromDigits(s).Some?
    ensures AllDigits(ds) && SpellDigits(ds) == s && FromDigits(s) == Some(DigitsNumber(ds))
  {
    ds := [];
    if s != [] {
      var n := |s| - 1;
      ds := ReadsDigits(s[..n]);
      var d := DigitValue(s[n]);
      ds := ds + [d];
      assert ds[..|ds| - 1] + [d] == ds && s == s[..n] + [s[n]];
    }
  }

  /** A sign, or none, and at least one digit, for a number within 64 bits. */
  predicate IsNumber(sign: string, ds: seq<nat>) {
    && sign in {"", "+", "-"} && ds != [] && AllDigits(ds)
    && -0x8000_0000_0000_0000 <= Signed(sign, ds) < 0x8000_0000_0000_0000
  }

  function Signed(sign: string, ds: seq<nat>): int {
    if sign == "-" then 0 - DigitsNumber(ds) else DigitsNumber(ds)
  }

  lemma NumberReads(sign: string, ds: seq<nat>)
    requires IsNumber(sign, ds)
    ensures ReadValue(sign + SpellDigits(ds)) == Ok(Int(Signed(sign, ds)))
  {
    hide Items, ReadString, Trim, FromDigits, SpellDigits;
    DigitsRead(ds);
    var text := sign + SpellDigits(ds);
    assert SpellDigits(ds)[0] in SpellDigits(ds);
    if sign == "" {
      assert text == SpellDigits(ds);
    } else {
      assert text[0] == sign[0] && text[1..] == SpellDigits(ds);
    }
  }

  lemma ReadsNumber(text: string) returns (sign: string, ds: seq<nat>)
    requires ReadValue(text).Ok? && ReadValue(text).value.Int?
    ensures IsNumber(sign, ds) && text == sign + SpellDigits(ds) && ReadValue(text) == Ok(Int(Signed(sign, ds)))
  {
    hide Items, ReadString, Trim, FromDigits, SpellDigits;
    sign := if text[0] == '-' then "-" else if text[0] == '+' then "+" else "";
    var n := |sign|;
    ds := ReadsDigits(text[n..]);
    DigitsRead(ds);
    assert text == sign + text[n..] && text[0..] == text;
  }

  /** A number is read within 64 bits, with or without a sign, and zeros before it or none. */
  lemma NumberGrammar(text: string, n: int)
    ensures ReadValue(text) == Ok(Int(n)) <==>
            exists sign, ds :: IsNumber(sign, ds) && text == sign + SpellDigits(ds) && Signed(sign, ds) == n
  {
    hide ReadValue, AllDigits, SpellDigits, Signed;
    if ReadValue(text) == Ok(Int(n)) {
      var sign, ds := ReadsNumber(text);
    }
    forall sign, ds | IsNumber(sign, ds) && text == sign + SpellDigits(ds) && Signed(sign, ds) == n
      ensures ReadValue(text) == Ok(Int(n))
    {
      NumberReads(sign, ds);
    }
  }
}
