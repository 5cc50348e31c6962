/** The store's three-part versions (`store_version.py`): their text, and the next one of
    a day. */
module StoreVersion {
  import opened Text
  import opened Wrappers

  datatype Parts = Parts(major: nat, month: nat, build: nat)

  datatype Day = Day(year: int, month: nat, day: nat)

  const LIMIT := 65535

  // ---------------------------------------------------------------- text

  /** A number written as `(0|[1-9][0-9]*)`. */
  predicate Plain(s: string) {
    s != [] && FromDigits(s).Some? && (s[0] == '0' ==> |s| == 1)
  }

  predicate Within(p: Parts) {
    1 <= p.major <= LIMIT && p.month <= LIMIT && p.build <= LIMIT
  }

  /** The three fields between dots; the last holds the dots that are left. */
  function Fields(value: string): Option<(string, string, string)> {
    var i := Find(value, '.');
    if i == |value| then None
    else
      var rest := value[i + 1..];
      var j := Find(rest, '.');
      if j == |rest| then None else Some((value[..i], rest[..j], rest[j + 1..]))
  }

  /** `version_parts`. */
  function VersionParts(value: string): Option<Parts> {
    match Fields(value)
    case None => None
    case Some((a, b, c)) =>
      if !Plain(a) || !Plain(b) || !Plain(c) then None
      else
        var p := Parts(FromDigits(a).value, FromDigits(b).value, FromDigits(c).value);
        if Within(p) then Some(p) else None
  }

  function VersionText(p: Parts): string {
    Decimal(p.major) + "." + Decimal(p.month) + "." + Decimal(p.build)
  }

  lemma DecimalPlain(n: nat)
    ensures Plain(Decimal(n))
  {
    DecimalReads(n);
    DecimalFirst(n);
  }

  lemma {:induction false} PlainDecimal(s: string)
    requires Plain(s)
    ensures Decimal(FromDigits(s).value) == s
    decreases |s|
  {
    var (t, c) := (s[..|s| - 1], s[|s| - 1]);
    assert s == t + [c] && Digit(DigitValue(c)) == c;
    if t != [] {
      assert t[0] == s[0];
      PlainDecimal(t);
      PlainPositive(t);
    }
  }

  lemma {:induction false} PlainPositive(s: string)
    requires s != [] && FromDigits(s).Some? && s[0] != '0'
    ensures FromDigits(s).value > 0
    decreases |s|
  {
    var t := s[..|s| - 1];
    if t != [] {
      assert t[0] == s[0];
      PlainPositive(t);
    }
  }

  lemma FieldsJoined(a: string, b: string, c: string)
    requires '.' !in a && '.' !in b
    ensures Fields(a + "." + b + "." + c) == Some((a, b, c))
  {
    var (value, rest) := (a + "." + b + "." + c, b + "." + c);
    assert value == a + ['.'] + rest && rest == b + ['.'] + c;
    FindAt(a, '.', rest);
    FindAt(b, '.', c);
    assert value[..|a|] == a && value[|a| + 1..] == rest;
    assert rest[..|b|] == b && rest[|b| + 1..] == c;
  }

  lemma CutAt(s: string, i: nat)
    requires i < |s| && s[i] == '.'
    ensures s == s[..i] + ("." + s[i + 1..])
  {}

  lemma FieldsBack(value: string)
    requires Fields(value).Some?
    ensures var f := Fields(value).value; value == f.0 + ("." + (f.1 + ("." + f.2)))
  {
    hide Find;
    var i := Find(value, '.');
    var rest := value[i + 1..];
    CutAt(value, i);
    CutAt(rest, Find(rest, '.'));
  }

  /** A version within the limits is read back from its text. */
  lemma TextReads(p: Parts)
    requires 1 <= p.major <= 65535 && p.month <= 65535 && p.build <= 65535
    ensures VersionParts(VersionText(p)) == Some(p)
  {
    hide FromDigits, Decimal, Fields;
    DecimalPlain(p.major);
    DecimalPlain(p.month);
    DecimalPlain(p.build);
    DecimalReads(p.major);
    DecimalReads(p.month);
    DecimalReads(p.build);
    NoDot(p.major);
    NoDot(p.month);
    FieldsJoined(Decimal(p.major), Decimal(p.month), Decimal(p.build));
  }

  lemma NoDot(n: nat)
    ensures '.' !in Decimal(n)
  {}

  /** No other text reads as the same version. */
  lemma ReadsText(value: string)
    requires VersionParts(value).Some?
    ensures VersionText(VersionParts(value).value) == value
    ensures var p := VersionParts(value).value; 1 <= p.major <= 65535 && p.month <= 65535 && p.build <= 65535
  {
    hide FromDigits, Decimal, Fields;
    var (a, b, c) := Fields(value).value;
    PlainDecimal(a);
    PlainDecimal(b);
    PlainDecimal(c);
    FieldsBack(value);
  }

  // ---------------------------------------------------------------- the next version

  predicate Less(a: Parts, b: Parts) {
    || a.major < b.major
    || (a.major == b.major && (a.month < b.month || (a.month == b.month && a.build < b.build)))
  }

  datatype Refusal = BadMajor | BadYear | BadVersion | DayFull | NotIncreasing

  predicate ValidDay(d: Day) {
    1 <= d.month <= 12 && 1 <= d.day <= 31
  }

  function MonthOf(d: Day): nat
    requires d.year >= 2000
  {
    (d.year - 2000) * 100 + d.month
  }

  /** `next_version`, over the parts of the previous one. */
  function NextParts(major: int, today: Day, past: Parts): Result<Parts, Refusal> {
    if !(1 <= major <= LIMIT) then Err(BadMajor)
    else if !(2000 <= today.year <= 2099) then Err(BadYear)
    else
      var month := MonthOf(today);
      var same := past.major == major && past.month == month && past.build / 100 == today.day;
      var sequence := if same then past.build % 100 + 1 else 1;
      if sequence > 99 then Err(DayFull)
      else
        var parts := Parts(major, month, today.day * 100 + sequence);
        if !Less(past, parts) then Err(NotIncreasing) else Ok(parts)
  }

  /** `next_version`. */
  function NextVersion(major: int, today: Day, previous: string): Result<string, Refusal> {
    if !(1 <= major <= LIMIT) then Err(BadMajor)
    else if !(2000 <= today.year <= 2099) then Err(BadYear)
    else
      match VersionParts(previous)
      case None => Err(BadVersion)
      case Some(past) =>
        match NextParts(major, today, past)
        case Err(e) => Err(e)
        case Ok(parts) => Ok(VersionText(parts))
  }

  /** A version of the day: its year's last two digits and its month, then its day and a number of
      the day from 1 to 99, two digits each. */
  predicate OfDay(p: Parts, major: int, today: Day) {
    && p.major == major && p.month / 100 == today.year - 2000 && p.month % 100 == today.month
    && p.build / 100 == today.day && 1 <= p.build % 100 <= 99
  }

  /** The next version is the day's least above the previous one, within the store's limits,
      and is refused exactly when the day has none. */
  lemma NextIsLeast(major: int, today: Day, past: Parts)
    requires 1 <= today.month <= 12 && 1 <= today.day <= 31
    ensures var r := NextParts(major, today, past);
      && (r.Ok? ==> OfDay(r.value, major, today) && Less(past, r.value) && Within(r.value))
      && (r.Ok? ==> forall p :: OfDay(p, major, today) && Less(past, p) ==> p == r.value || Less(r.value, p))
      && (r.Err? && 1 <= major <= 65535 && 2000 <= today.year <= 2099 ==>
            forall p :: OfDay(p, major, today) ==> !Less(past, p))
    ensures !(1 <= major <= 65535 && 2000 <= today.year <= 2099) ==> NextParts(major, today, past).Err?
  {
    if 1 <= major <= 65535 && 2000 <= today.year <= 2099 {
      forall p | OfDay(p, major, today) ensures p.month == MonthOf(today) && 1 <= p.build - 100 * today.day <= 99 {
        assert p.month == 100 * (p.month / 100) + p.month % 100 && p.build == 100 * (p.build / 100) + p.build % 100;
      }
    }
  }

  /** In text: the version given reads back as one above the previous. */
  lemma NextReads(major: int, today: Day, previous: string)
    requires 1 <= today.month <= 12 && 1 <= today.day <= 31 && NextVersion(major, today, previous).Ok?
    ensures var (past, next) := (VersionParts(previous), VersionParts(NextVersion(major, today, previous).value));
      past.Some? && next.Some? && Less(past.value, next.value) && OfDay(next.value, major, today)
  {
    hide VersionParts, VersionText;
    var past := VersionParts(previous).value;
    NextIsLeast(major, today, past);
    TextReads(NextParts(major, today, past).value);
  }

  lemma LessIsStrict(a: Parts, b: Parts, c: Parts)
    ensures !Less(a, a) && (Less(a, b) && Less(b, c) ==> Less(a, c)) && (Less(a, b) || a == b || Less(b, a))
  {}

  /** The next version is answered exactly when the major version and the year are the store's, the
      previous version is one, and the day has one above it; and it is then the least. */
  lemma NextExactly(major: int, today: Day, previous: string)
    requires 1 <= today.month <= 12 && 1 <= today.day <= 31
    ensures NextVersion(major, today, previous).Ok? <==>
            && 1 <= major <= 65535 && 2000 <= today.year <= 2099 && VersionParts(previous).Some?
            && exists p :: OfDay(p, major, today) && Less(VersionParts(previous).value, p)
    ensures NextVersion(major, today, previous).Ok? ==> exists p ::
              && OfDay(p, major, today) && Less(VersionParts(previous).value, p)
              && NextVersion(major, today, previous).value == VersionText(p)
              && forall q :: OfDay(q, major, today) && Less(VersionParts(previous).value, q) ==> q == p || Less(p, q)
  {
    hide VersionParts, VersionText, OfDay;
    if VersionParts(previous).Some? {
      var past := VersionParts(previous).value;
      NextIsLeast(major, today, past);
      if NextParts(major, today, past).Ok? {
        var p := NextParts(major, today, past).value;
        assert OfDay(p, major, today) && Less(past, p);
      }
    }
  }
}
