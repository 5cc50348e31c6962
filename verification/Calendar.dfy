/** The two calendar computations, written apart: the log's date of a day
    (`civil_from_days`) and the update's day of a date (`unix_seconds`), and the times of
    RFC 3339 section 5.6 they print and read. */
module Calendar {
  import opened Division
  import opened Text
  import opened Wrappers

  datatype Date = Date(year: int, month: int, day: int)

  // ---------------------------------------------------------------- the calendar

  predicate Leap(year: int) {
    year % 4 == 0 && (year % 100 != 0 || year % 400 == 0)
  }

  function DaysIn(year: int, month: int): int {
    if month == 2 then (if Leap(year) then 29 else 28)
    else if month == 4 || month == 6 || month == 9 || month == 11 then 30
    else 31
  }

  predicate Valid(d: Date) {
    1 <= d.month <= 12 && 1 <= d.day <= DaysIn(d.year, d.month)
  }

  /** The day after, as the proleptic Gregorian calendar counts. */
  function NextDay(d: Date): Date {
    if d.day < DaysIn(d.year, d.month) then Date(d.year, d.month, d.day + 1)
    else if d.month < 12 then Date(d.year, d.month + 1, 1)
    else Date(d.year + 1, 1, 1)
  }

  // ---------------------------------------------------------------- the two computations

  function YearOfEra(dayOfEra: int): int {
    (dayOfEra - dayOfEra / 1460 + dayOfEra / 36524 - dayOfEra / 146096) / 365
  }

  /** `civil_from_days`. */
  function CivilFromDays(days: int): Date {
    var z := days + 719468;
    var era := z / 146097;
    var dayOfEra := z % 146097;
    var yearOfEra := YearOfEra(dayOfEra);
    var dayOfYear := dayOfEra - (365 * yearOfEra + yearOfEra / 4 - yearOfEra / 100);
    var monthFromMarch := (5 * dayOfYear + 2) / 153;
    var day := dayOfYear - (153 * monthFromMarch + 2) / 5 + 1;
    var month := if monthFromMarch < 10 then monthFromMarch + 3 else monthFromMarch - 9;
    Date(yearOfEra + era * 400 + (if month <= 2 then 1 else 0), month, day)
  }

  /** The days from 1970-01-01 to a date, as `unix_seconds` counts them. */
  function DaysFromCivil(d: Date): int {
    var y := if d.month <= 2 then d.year - 1 else d.year;
    var (era, ofEra) := (y / 400, y % 400);
    var ofYear := (153 * ((d.month + 9) % 12) + 2) / 5 + d.day - 1;
    era * 146097 + (ofEra * 365 + ofEra / 4 - ofEra / 100 + ofYear) - 719468
  }

  // ---------------------------------------------------------------- years of an era

  /** Whether the year from March ends with a leap day. */
  predicate LongYear(y: int) {
    y % 4 == 3 && (y % 100 != 99 || y % 400 == 399)
  }

  function YearLength(y: int): int {
    if LongYear(y) then 366 else 365
  }

  function YearStart(y: int): int {
    365 * y + y / 4 - y / 100
  }

  /** Day `k` of year `y` of an era is that year's. */
  lemma YearOfDay(y: int, k: int)
    requires 0 <= y < 400 && 0 <= k < YearLength(y)
    ensures 0 <= YearStart(y) + k < 146097 && YearOfEra(YearStart(y) + k) == y
  {
    hide YearLength;
    var (c, q, r) := (y / 100, y % 100 / 4, y % 4);
    LongDay(y, k, c, q, r);
    CenturyYear(c, q, r);
    DayOfYear(c, q, r, k);
  }

  lemma LongDay(y: int, k: int, c: int, q: int, r: int)
    requires 0 <= y < 400 && 0 <= k < YearLength(y)
    requires c == y / 100 && q == y % 100 / 4 && r == y % 4
    ensures y == 100 * c + 4 * q + r && 0 <= c < 4 && 0 <= q < 25 && 0 <= r < 4
    ensures 0 <= k <= 365 && (k == 365 ==> r == 3 && (q != 24 || c == 3))
  {}

  /** The formula counts the leap days the wrong way by at most two, never across a year. */
  lemma DayOfYear(c: int, q: int, r: int, k: int)
    requires 0 <= c < 4 && 0 <= q < 25 && 0 <= r < 4 && 0 <= k <= 365
    requires k == 365 ==> r == 3 && (q != 24 || c == 3)
    ensures var d := 36524 * c + 1461 * q + 365 * r + k;
      0 <= d < 146097 && YearOfEra(d) == 100 * c + 4 * q + r
  {
    var d := 36524 * c + 1461 * q + 365 * r + k;
    var more := 24 * c + q + 365 * r + k;
    Quotient(d, 1460, 25 * c + q, more);
    Centuries(d, c, q, r, k);
    var rest := k - more / 1460 + (d / 36524 - c) - d / 146096;
    var y := 100 * c + 4 * q + r;
    assert d - d / 1460 + d / 36524 - d / 146096 == 365 * y + rest;
    Quotient(365 * y + rest, 365, y, rest);
  }

  lemma CenturyYear(c: int, q: int, r: int)
    requires 0 <= c < 4 && 0 <= q < 25 && 0 <= r < 4
    ensures var y := 100 * c + 4 * q + r; y / 4 == 25 * c + q && y / 100 == c
  {}

  lemma Centuries(d: int, c: int, q: int, r: int, k: int)
    requires 0 <= c < 4 && 0 <= q < 25 && 0 <= r < 4 && 0 <= k <= 365
    requires k == 365 ==> r == 3 && (q != 24 || c == 3)
    requires d == 36524 * c + 1461 * q + 365 * r + k
    ensures 0 <= d < 146097 && d / 146096 == (if d == 146096 then 1 else 0)
    ensures d / 36524 - c == (if d == 146096 then 1 else 0)
    ensures d == 146096 ==> k == 365
  {}

  /** Every day of an era is a day of one year. */
  lemma DayOfEraSplit(d: int) returns (y: int, k: int)
    requires 0 <= d < 146097
    ensures 0 <= y < 400 && 0 <= k < YearLength(y) && YearStart(y) + k == d
  {
    var c := if d / 36524 < 4 then d / 36524 else 3;
    var dc := d - 36524 * c;
    var q := if dc / 1461 < 25 then dc / 1461 else 24;
    var dq := dc - 1461 * q;
    var r := if dq / 365 < 4 then dq / 365 else 3;
    k := dq - 365 * r;
    y := 100 * c + 4 * q + r;
    CenturyYear(c, q, r);
    assert 0 <= dc <= 36524 && (dc == 36524 ==> c == 3);
    assert 0 <= dq <= 1460;
    assert 0 <= k <= 365 && (k == 365 ==> r == 3);
    assert k == 365 && q == 24 ==> dc == 36524;
  }

  // ---------------------------------------------------------------- months from March

  function MonthStart(m: int): int {
    (153 * m + 2) / 5
  }

  lemma MonthStarts()
    ensures MonthStart(0) == 0 && MonthStart(1) == 31 && MonthStart(2) == 61 && MonthStart(3) == 92
    ensures MonthStart(4) == 122 && MonthStart(5) == 153 && MonthStart(6) == 184 && MonthStart(7) == 214
    ensures MonthStart(8) == 245 && MonthStart(9) == 275 && MonthStart(10) == 306 && MonthStart(11) == 337
  {}

  function MonthLength(m: int, y: int): int {
    if m == 11 then YearLength(y) - 337
    else if m == 1 || m == 3 || m == 6 || m == 8 then 30
    else 31
  }

  /** Day `k` of a year from March, in its month. */
  lemma MonthOfDay(k: int, y: int)
    requires 0 <= k < YearLength(y)
    ensures var m := (5 * k + 2) / 153; 0 <= m < 12 && 0 <= k - MonthStart(m) < MonthLength(m, y)
  {
    hide LongYear;
    MonthStarts();
  }

  lemma DayOfMonth(m: int, i: int, y: int)
    requires 0 <= m < 12 && 0 <= i < MonthLength(m, y)
    ensures var k := MonthStart(m) + i; 0 <= k < YearLength(y) && (5 * k + 2) / 153 == m
  {
    hide LongYear;
    MonthStarts();
  }

  /** A month's length, counted either way. */
  lemma SameLength(y: int, m: int)
    requires 0 <= m < 12
    ensures MonthLength(m, y) == if m < 10 then DaysIn(y, m + 3) else DaysIn(y + 1, m - 9)
    ensures m < 10 ==> (m + 3 + 9) % 12 == m
    ensures m >= 10 ==> (m - 9 + 9) % 12 == m
  {
    SameLeap(y);
  }

  lemma SameLeap(y: int)
    ensures LongYear(y) <==> Leap(y + 1)
  {
    EveryFour(y);
    EveryHundred(y);
    EveryFourHundred(y);
  }

  lemma EveryFour(y: int)
    ensures y % 4 == 3 <==> (y + 1) % 4 == 0
  {}

  lemma EveryHundred(y: int)
    ensures y % 100 == 99 <==> (y + 1) % 100 == 0
  {}

  lemma EveryFourHundred(y: int)
    ensures y % 400 == 399 <==> (y + 1) % 400 == 0
  {}

  // ---------------------------------------------------------------- inverses

  /** The date of day `k` of year `y` from March. */
  function FromMarch(y: int, m: int, i: int): Date {
    if m < 10 then Date(y, m + 3, i + 1) else Date(y + 1, m - 9, i + 1)
  }

  lemma EraYear(era: int, ofEra: int)
    requires 0 <= ofEra < 400
    ensures var y := 400 * era + ofEra; y / 400 == era && y % 400 == ofEra && YearLength(y) == YearLength(ofEra)
  {}

  /** A day number, by era, year from March, month and day. */
  function DayNumber(era: int, y: int, m: int, i: int): int {
    era * 146097 + YearStart(y) + MonthStart(m) + i - 719468
  }

  predicate InEra(y: int, m: int, i: int) {
    0 <= y < 400 && 0 <= m < 12 && 0 <= i < MonthLength(m, y)
  }

  lemma DateOfNumber(era: int, y: int, m: int, i: int)
    requires InEra(y, m, i)
    ensures CivilFromDays(DayNumber(era, y, m, i)) == FromMarch(400 * era + y, m, i)
  {
    hide YearOfEra, LongYear, MonthLength;
    DayOfMonth(m, i, y);
    var k := MonthStart(m) + i;
    YearOfDay(y, k);
    var z := DayNumber(era, y, m, i) + 719468;
    DivUnique(z, 146097, era, YearStart(y) + k);
  }

  lemma NumberOfDate(era: int, y: int, m: int, i: int)
    requires InEra(y, m, i)
    ensures DaysFromCivil(FromMarch(400 * era + y, m, i)) == DayNumber(era, y, m, i)
  {
    hide MonthLength;
    SameLength(y, m);
    EraYear(era, y);
  }

  lemma ValidFromMarch(era: int, y: int, m: int, i: int)
    requires InEra(y, m, i)
    ensures Valid(FromMarch(400 * era + y, m, i))
  {
    hide LongYear, Leap;
    EraYear(era, y);
    SameLength(400 * era + y, m);
  }

  lemma NumberSplit(days: int) returns (era: int, y: int, m: int, i: int)
    ensures InEra(y, m, i) && DayNumber(era, y, m, i) == days
  {
    hide LongYear;
    var z := days + 719468;
    era := z / 146097;
    var k;
    y, k := DayOfEraSplit(z % 146097);
    m := (5 * k + 2) / 153;
    MonthOfDay(k, y);
    i := k - MonthStart(m);
  }

  lemma DateSplit(d: Date) returns (era: int, y: int, m: int, i: int)
    requires Valid(d)
    ensures InEra(y, m, i) && FromMarch(400 * era + y, m, i) == d
  {
    hide LongYear, Leap;
    var year := if d.month <= 2 then d.year - 1 else d.year;
    m := if d.month <= 2 then d.month + 9 else d.month - 3;
    i := d.day - 1;
    era, y := year / 400, year % 400;
    SameLength(year, m);
    EraYear(era, y);
  }

  /** Each day has a valid date, whose day it is. */
  lemma DateOfDay(days: int)
    ensures Valid(CivilFromDays(days)) && DaysFromCivil(CivilFromDays(days)) == days
  {
    hide CivilFromDays, DaysFromCivil, FromMarch, Valid;
    var era, y, m, i := NumberSplit(days);
    DateOfNumber(era, y, m, i);
    NumberOfDate(era, y, m, i);
    ValidFromMarch(era, y, m, i);
  }

  /** Each valid date is its day's date. */
  lemma DayOfDate(d: Date)
    requires Valid(d)
    ensures CivilFromDays(DaysFromCivil(d)) == d
  {
    hide CivilFromDays, DaysFromCivil, FromMarch, Valid;
    var era, y, m, i := DateSplit(d);
    DateOfNumber(era, y, m, i);
    NumberOfDate(era, y, m, i);
  }

  lemma NextInMonth(era: int, y: int, m: int, i: int)
    requires InEra(y, m, i) && i + 1 < MonthLength(m, y)
    ensures FromMarch(400 * era + y, m, i + 1) == NextDay(FromMarch(400 * era + y, m, i))
  {
    hide LongYear, Leap, MonthLength, DaysIn;
    EraYear(era, y);
    SameLength(400 * era + y, m);
    LengthInEra(era, y, m);
  }

  lemma NextMonth(era: int, y: int, m: int, i: int)
    requires InEra(y, m, i) && i + 1 == MonthLength(m, y)
    ensures NextDay(FromMarch(400 * era + y, m, i))
         == if m < 11 then FromMarch(400 * era + y, m + 1, 0) else FromMarch(400 * era + y + 1, 0, 0)
    ensures m < 11 ==> MonthStart(m + 1) == MonthStart(m) + MonthLength(m, y) && MonthLength(m + 1, y) > 0
  {
    hide LongYear, Leap;
    MonthStarts();
    EraYear(era, y);
    SameLength(400 * era + y, m);
  }

  lemma LengthInEra(era: int, y: int, m: int)
    requires 0 <= y < 400
    ensures MonthLength(m, 400 * era + y) == MonthLength(m, y)
  {
    hide LongYear;
    EraYear(era, y);
  }

  /** The day after a day, by era, year from March, month and day. */
  lemma NextNumber(era: int, y: int, m: int, i: int) returns (era': int, y': int, m': int, i': int)
    requires InEra(y, m, i)
    ensures InEra(y', m', i') && DayNumber(era', y', m', i') == DayNumber(era, y, m, i) + 1
    ensures FromMarch(400 * era' + y', m', i') == NextDay(FromMarch(400 * era + y, m, i))
  {
    hide LongYear, NextDay, FromMarch;
    if i + 1 < MonthLength(m, y) {
      NextInMonth(era, y, m, i);
      era', y', m', i' := era, y, m, i + 1;
    } else {
      NextMonth(era, y, m, i);
      if m < 11 {
        era', y', m', i' := era, y, m + 1, 0;
      } else {
        YearAfter(y);
        era', y', m', i' := if y < 399 then era else era + 1, if y < 399 then y + 1 else 0, 0, 0;
      }
    }
  }

  lemma YearAfter(y: int)
    requires 0 <= y < 400
    ensures YearStart(y) + YearLength(y) == if y < 399 then YearStart(y + 1) else 146097
  {}

  lemma NextIsLater(d: Date)
    requires Valid(d)
    ensures Valid(NextDay(d)) && DaysFromCivil(NextDay(d)) == DaysFromCivil(d) + 1
  {
    hide CivilFromDays, DaysFromCivil, FromMarch, Valid, NextDay, DayNumber, InEra;
    var era, y, m, i := DateSplit(d);
    var era', y', m', i' := NextNumber(era, y, m, i);
    NumberOfDate(era, y, m, i);
    NumberOfDate(era', y', m', i');
    ValidFromMarch(era', y', m', i');
  }

  /** The day after a day has the date after its date. */
  lemma NextDate(days: int)
    ensures CivilFromDays(days + 1) == NextDay(CivilFromDays(days))
  {
    hide CivilFromDays, DaysFromCivil, NextDay, Valid;
    DateOfDay(days);
    NextIsLater(CivilFromDays(days));
    DayOfDate(NextDay(CivilFromDays(days)));
  }

  /** Where the counting of days begins. */
  lemma FirstDay()
    ensures CivilFromDays(0) == Date(1970, 1, 1)
  {}

  /** The date some days after another, day by day. */
  function DaysAfter(d: Date, days: nat): Date {
    if days == 0 then d else NextDay(DaysAfter(d, days - 1))
  }

  /** A day number from 0 on has the date that many days after 1970-01-01; one below has the date
      from which that many days lead there. */
  lemma {:induction false} CountsFrom1970(days: nat)
    ensures CivilFromDays(days) == DaysAfter(Date(1970, 1, 1), days)
    ensures DaysAfter(CivilFromDays(0 - days), days) == Date(1970, 1, 1)
  {
    hide CivilFromDays, NextDay;
    FirstDay();
    if days > 0 {
      CountsFrom1970(days - 1);
      NextDate(days - 1);
      NextDate(0 - days);
      DaysAfterNext(CivilFromDays(0 - days), days - 1);
    }
  }

  lemma {:induction false} DaysAfterNext(d: Date, days: nat)
    ensures DaysAfter(NextDay(d), days) == DaysAfter(d, days + 1)
  {
    hide NextDay;
    if days > 0 {
      DaysAfterNext(d, days - 1);
    }
  }

  // ---------------------------------------------------------------- times as text

  function Zeros(n: nat): string {
    seq(n, _ => '0')
  }

  /** A number in decimal, zeros put before it up to `width` characters. */
  function Padded(n: int, width: nat): string {
    var sign := if n < 0 then "-" else "";
    var digits := Decimal(if n < 0 then -n else n);
    var given := |sign| + |digits|;
    sign + Zeros(if given < width then width - given else 0) + digits
  }

  /** `timestamp`. */
  function Timestamp(secs: int): string {
    var (d, time) := (CivilFromDays(secs / 86400), secs % 86400);
    Padded(d.year, 4) + "-" + Padded(d.month, 2) + "-" + Padded(d.day, 2) + "T"
    + Padded(time / 3600, 2) + ":" + Padded(time / 60 % 60, 2) + ":" + Padded(time % 60, 2) + "Z"
  }

  /** `rfc3339_of`. */
  function Rfc3339Of(secs: int): Option<string> {
    if 0 <= CivilFromDays(secs / 86400).year <= 9999 then Some(Timestamp(secs)) else None
  }

  predicate Marked(text: string) {
    && |text| == 20
    && text[4] == '-' && text[7] == '-' && text[10] == 'T' && text[13] == ':' && text[16] == ':' && text[19] == 'Z'
  }

  datatype Time = Time(date: Date, hour: int, minute: int, second: int)

  /** The numbers in the text of a time; `None` when one is not of digits alone. */
  function Numbers(text: string): Option<Time>
    requires Marked(text)
  {
    match (FromDigits(text[0..4]), FromDigits(text[5..7]), FromDigits(text[8..10]),
           FromDigits(text[11..13]), FromDigits(text[14..16]), FromDigits(text[17..19]))
    case (Some(year), Some(month), Some(day), Some(hour), Some(minute), Some(second)) =>
      Some(Time(Date(year, month, day), hour, minute, second))
    case _ => None
  }

  /** What `unix_seconds` takes: a leap second, and any day up to 31 whatever the month. */
  predicate InRange(t: Time) {
    && t.date.year >= 1970 && 1 <= t.date.month <= 12 && 1 <= t.date.day <= 31
    && t.hour <= 23 && t.minute <= 59 && t.second <= 60
  }

  function Seconds(t: Time): int {
    DaysFromCivil(t.date) * 86400 + t.hour * 3600 + t.minute * 60 + t.second
  }

  /** `unix_seconds`. */
  function UnixSeconds(text: string): Option<int> {
    if !Marked(text) then None
    else
      match Numbers(text)
      case None => None
      case Some(t) => if InRange(t) && Seconds(t) >= 0 then Some(Seconds(t)) else None
  }

  // ---------------------------------------------------------------- numbers of a fixed width

  lemma ZerosMore(n: nat)
    ensures Zeros(n + 1) == Zeros(n) + "0"
  {}

  /** One more digit. */
  lemma PaddedStep(n: nat, d: nat, width: nat)
    requires d < 10 && width >= 1
    ensures Padded(10 * n + d, width + 1) == Padded(n, width) + [Digit(d)]
  {
    var m := 10 * n + d;
    if n == 0 {
      assert Decimal(m) == [Digit(d)];
      assert Decimal(n) == "0";
      ZerosMore(width - 1);
      assert Zeros(width) + [Digit(d)] == Zeros(width - 1) + "0" + [Digit(d)];
    } else {
      assert m / 10 == n && m % 10 == d;
      assert Decimal(m) == Decimal(n) + [Digit(d)];
    }
  }

  /** A number of at most `width` digits takes `width` characters and is read back. */
  lemma {:induction false} PaddedReads(n: nat, width: nat, limit: nat)
    requires width >= 1 && n < limit && limit == Power(width)
    ensures |Padded(n, width)| == width && FromDigits(Padded(n, width)) == Some(n)
    decreases width
  {
    hide Padded;
    if width == 1 {
      PaddedDigit(n);
      assert [Digit(n)][..0] == [];
    } else {
      PaddedStep(n / 10, n % 10, width - 1);
      PaddedReads(n / 10, width - 1, Power(width - 1));
      var p := Padded(n / 10, width - 1) + [Digit(n % 10)];
      assert p[..|p| - 1] == Padded(n / 10, width - 1);
    }
  }

  lemma PaddedDigit(n: nat)
    requires n < 10
    ensures Padded(n, 1) == [Digit(n)]
  {}

  function Power(n: nat): nat {
    if n == 0 then 1 else 10 * Power(n - 1)
  }

  /** Digits are their number, padded to as many. */
  lemma {:induction false} DigitsPadded(x: string)
    requires x != [] && FromDigits(x).Some?
    ensures Padded(FromDigits(x).value, |x|) == x
    decreases |x|
  {
    hide Padded;
    var (y, c) := (x[..|x| - 1], x[|x| - 1]);
    assert x == y + [c] && Digit(DigitValue(c)) == c;
    if y == [] {
      PaddedDigit(DigitValue(c));
    } else {
      DigitsPadded(y);
      PaddedStep(FromDigits(y).value, DigitValue(c), |y|);
    }
  }

  // ---------------------------------------------------------------- the round trip

  /** The text of six numbers. */
  function TimeText(t: Time): string {
    Padded(t.date.year, 4) + "-" + Padded(t.date.month, 2) + "-" + Padded(t.date.day, 2) + "T"
    + Padded(t.hour, 2) + ":" + Padded(t.minute, 2) + ":" + Padded(t.second, 2) + "Z"
  }

  predicate DigitsFit(t: Time) {
    && 0 <= t.date.year < 10000 && 0 <= t.date.month < 100 && 0 <= t.date.day < 100
    && 0 <= t.hour < 100 && 0 <= t.minute < 100 && 0 <= t.second < 100
  }

  lemma TimeTextMarked(t: Time)
    requires DigitsFit(t)
    ensures var x := TimeText(t);
      && Marked(x) && x[0..4] == Padded(t.date.year, 4) && x[5..7] == Padded(t.date.month, 2)
      && x[8..10] == Padded(t.date.day, 2) && x[11..13] == Padded(t.hour, 2)
      && x[14..16] == Padded(t.minute, 2) && x[17..19] == Padded(t.second, 2)
  {
    hide Padded, FromDigits;
    assert Power(2) == 100 && Power(4) == 10000;
    PaddedReads(t.date.year, 4, 10000);
    PaddedReads(t.date.month, 2, 100);
    PaddedReads(t.date.day, 2, 100);
    PaddedReads(t.hour, 2, 100);
    PaddedReads(t.minute, 2, 100);
    PaddedReads(t.second, 2, 100);
    Assembled(Padded(t.date.year, 4), Padded(t.date.month, 2), Padded(t.date.day, 2),
              Padded(t.hour, 2), Padded(t.minute, 2), Padded(t.second, 2));
  }

  lemma Assembled(y: string, mo: string, d: string, h: string, mi: string, s: string)
    requires |y| == 4 && |mo| == 2 && |d| == 2 && |h| == 2 && |mi| == 2 && |s| == 2
    ensures var x := y + "-" + mo + "-" + d + "T" + h + ":" + mi + ":" + s + "Z";
      && Marked(x) && x[0..4] == y && x[5..7] == mo && x[8..10] == d
      && x[11..13] == h && x[14..16] == mi && x[17..19] == s
  {}

  lemma NumbersOfText(t: Time)
    requires DigitsFit(t)
    ensures Marked(TimeText(t)) && Numbers(TimeText(t)) == Some(t)
  {
    hide Padded, FromDigits, TimeText, Marked;
    TimeTextMarked(t);
    assert Power(2) == 100 && Power(4) == 10000;
    PaddedReads(t.date.year, 4, 10000);
    PaddedReads(t.date.month, 2, 100);
    PaddedReads(t.date.day, 2, 100);
    PaddedReads(t.hour, 2, 100);
    PaddedReads(t.minute, 2, 100);
    PaddedReads(t.second, 2, 100);
  }

  lemma TextOfNumbers(text: string)
    requires Marked(text) && Numbers(text).Some?
    ensures TimeText(Numbers(text).value) == text
  {
    hide Padded, FromDigits;
    DigitsPadded(text[0..4]);
    DigitsPadded(text[5..7]);
    DigitsPadded(text[8..10]);
    DigitsPadded(text[11..13]);
    DigitsPadded(text[14..16]);
    DigitsPadded(text[17..19]);
    assert text == text[0..4] + "-" + text[5..7] + "-" + text[8..10] + "T" + text[11..13] + ":" + text[14..16]
                   + ":" + text[17..19] + "Z";
  }

  function TimeOf(secs: int): Time {
    var time := secs % 86400;
    Time(CivilFromDays(secs / 86400), time / 3600, time / 60 % 60, time % 60)
  }

  lemma TimeOfSeconds(secs: int)
    ensures Seconds(TimeOf(secs)) == secs && Valid(TimeOf(secs).date)
    ensures var t := TimeOf(secs); 0 <= t.hour <= 23 && 0 <= t.minute <= 59 && 0 <= t.second <= 59
  {
    hide CivilFromDays, DaysFromCivil, Valid;
    DateOfDay(secs / 86400);
  }

  /** A day from 1970 on, and before 10000, is of such a year. */
  lemma YearsOfDays(d: Date)
    requires Valid(d)
    ensures 0 <= DaysFromCivil(d) <==> d.year >= 1970
    ensures DaysFromCivil(d) < 2932897 <==> d.year <= 9999
  {
    hide Valid;
    var y := if d.month <= 2 then d.year - 1 else d.year;
    var n := DaysFromCivil(d);
    EraDays(y);
    var m := (d.month + 9) % 12;
    assert n == 365 * y + y / 4 - y / 100 + y / 400 + MonthStart(m) + d.day - 1 - 719468;
    YearDays(y);
    MonthDays(d, m);
  }

  /** The days of a date's year from March before it. */
  lemma MonthDays(d: Date, m: int)
    requires Valid(d) && m == (d.month + 9) % 12
    ensures 0 <= MonthStart(m) + d.day - 1 <= 365
    ensures if d.month <= 2 then MonthStart(m) + d.day - 1 >= 306 else MonthStart(m) + d.day - 1 <= 305
  {
    hide Leap;
    MonthStarts();
  }

  lemma EraDays(y: int)
    ensures (y / 400) * 146097 + (y % 400) * 365 + y % 400 / 4 - y % 400 / 100
         == 365 * y + y / 4 - y / 100 + y / 400
  {
    var (a, b) := (y / 400, y % 400);
    Quotient(y, 4, 100 * a, b);
    Quotient(y, 100, 4 * a, b);
  }

  lemma YearDays(y: int)
    ensures y <= 1968 ==> 365 * y + y / 4 - y / 100 + y / 400 <= 718797
    ensures y == 1969 ==> 365 * y + y / 4 - y / 100 + y / 400 == 719162
    ensures y >= 1970 ==> 365 * y + y / 4 - y / 100 + y / 400 >= 719527
    ensures y <= 9998 ==> 365 * y + y / 4 - y / 100 + y / 400 <= 3651694
    ensures y == 9999 ==> 365 * y + y / 4 - y / 100 + y / 400 == 3652059
    ensures y >= 10000 ==> 365 * y + y / 4 - y / 100 + y / 400 >= 3652425
  {}

  const END := 253402300800

  /** Every second from 1970 to the end of 9999 is read back from its text. */
  lemma TimestampReads(secs: int)
    requires 0 <= secs < END
    ensures UnixSeconds(Timestamp(secs)) == Some(secs)
  {
    hide CivilFromDays, DaysFromCivil, Padded, Numbers, Marked;
    var t := TimeOf(secs);
    TimeOfSeconds(secs);
    DateOfDay(secs / 86400);
    YearsOfDays(t.date);
    NumbersOfText(t);
    assert Timestamp(secs) == TimeText(t);
  }

  lemma TimestampIsText(secs: int)
    ensures Timestamp(secs) == TimeText(TimeOf(secs))
  {
    hide CivilFromDays, Padded;
  }

  lemma {:induction false} DecimalLonger(n: nat, k: nat)
    requires n >= Power(k)
    ensures |Decimal(n)| > k
    decreases k
  {
    if k > 0 {
      assert n >= 10 * Power(k - 1);
      DecimalLonger(n / 10, k - 1);
      PowerPositive(k - 1);
    }
  }

  lemma {:induction false} PowerPositive(k: nat)
    ensures Power(k) >= 1
  {
    if k > 0 {
      PowerPositive(k - 1);
    }
  }

  /** A year of five digits leaves no room for the marks. */
  lemma LongYearText(t: Time)
    requires t.date.year >= 10000 && 0 <= t.date.month < 100 && 0 <= t.date.day < 100
    requires 0 <= t.hour < 100 && 0 <= t.minute < 100 && 0 <= t.second < 100
    ensures |TimeText(t)| > 20
  {
    assert Power(4) == 10000 && Power(2) == 100;
    DecimalLonger(t.date.year, 4);
    LongPadded(t.date.year, 4);
    hide Padded, Decimal;
    PaddedReads(t.date.month, 2, 100);
    PaddedReads(t.date.day, 2, 100);
    PaddedReads(t.hour, 2, 100);
    PaddedReads(t.minute, 2, 100);
    PaddedReads(t.second, 2, 100);
  }

  lemma LongPadded(n: nat, width: nat)
    ensures |Padded(n, width)| >= |Decimal(n)|
  {}

  /** The time of day of a second is the one it was counted from. */
  lemma TimeOfDay(t: Time)
    requires Valid(t.date) && 0 <= t.hour <= 23 && 0 <= t.minute <= 59 && 0 <= t.second <= 59
    ensures TimeOf(Seconds(t)) == t
  {
    hide CivilFromDays, DaysFromCivil, Valid;
    DayOfDate(t.date);
    DivUnique(Seconds(t), 86400, DaysFromCivil(t.date), t.hour * 3600 + t.minute * 60 + t.second);
  }

  lemma NumbersNatural(text: string)
    requires Marked(text) && Numbers(text).Some?
    ensures var t := Numbers(text).value; t.hour >= 0 && t.minute >= 0 && t.second >= 0
  {}

  /** What is read is the text of the second read, exactly when its date is one of the
      calendar's and its second is no leap second. */
  lemma ReadsTimestamp(text: string)
    requires UnixSeconds(text).Some?
    ensures text == Timestamp(UnixSeconds(text).value)
      <==> Valid(Numbers(text).value.date) && Numbers(text).value.second < 60
  {
    hide CivilFromDays, DaysFromCivil, Padded, Numbers, Marked, Valid, TimeText, TimeOf, Timestamp, Seconds, Decimal;
    var (t, secs) := (Numbers(text).value, UnixSeconds(text).value);
    TextOfNumbers(text);
    NumbersNatural(text);
    TimeOfSeconds(secs);
    TimestampIsText(secs);
    if Valid(t.date) && t.second < 60 {
      TimeOfDay(t);
    } else {
      SameNumbers(text, secs);
    }
  }

  lemma SameNumbers(text: string, secs: int)
    requires Marked(text) && secs >= 0
    ensures text == TimeText(TimeOf(secs)) ==> Numbers(text) == Some(TimeOf(secs))
  {
    hide CivilFromDays, DaysFromCivil, Padded, Numbers, Valid, TimeText;
    var u := TimeOf(secs);
    TimeOfSeconds(secs);
    DateOfDay(secs / 86400);
    YearsOfDays(u.date);
    DateFits(u.date);
    if u.date.year >= 10000 {
      LongYearText(u);
    } else {
      NumbersOfText(u);
    }
  }

  lemma DateFits(d: Date)
    requires Valid(d)
    ensures 1 <= d.month <= 12 && 1 <= d.day <= 31
  {}

  /** Only years of four digits are written. */
  lemma FourDigitYears(secs: int)
    requires 0 <= secs
    ensures Rfc3339Of(secs) == if secs < END then Some(Timestamp(secs)) else None
  {
    hide CivilFromDays, DaysFromCivil, Timestamp, Valid;
    DateOfDay(secs / 86400);
    YearsOfDays(CivilFromDays(secs / 86400));
  }
}
