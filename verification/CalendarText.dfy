/** Which texts are read as times and as which seconds, and which seconds are written and how, digit
    by digit. */
module CalendarText {
  import opened Calendar
  import opened Division
  import opened Text
  import opened Wrappers

  function Two(n: nat): string
    requires n < 100
  {
    ["0123456789"[n / 10], "0123456789"[n % 10]]
  }

  function Four(n: nat): string
    requires n < 10000
  {
    Two(n / 100) + Two(n % 100)
  }

  /** A time of six numbers that is taken: a leap second too, and any day up to 31. */
  predicate Takes(t: Time) {
    && 1970 <= t.date.year < 10000 && 1 <= t.date.month <= 12 && 1 <= t.date.day <= 31
    && 0 <= t.hour <= 23 && 0 <= t.minute <= 59 && 0 <= t.second <= 60
  }

  function Spelled(t: Time): string
    requires DigitsFit(t)
  {
    Four(t.date.year) + "-" + Two(t.date.month) + "-" + Two(t.date.day) + "T"
    + Two(t.hour) + ":" + Two(t.minute) + ":" + Two(t.second) + "Z"
  }

  // ---------------------------------------------------------------- digits

  lemma DigitIs(n: nat)
    requires n < 10
    ensures "0123456789"[n] == Digit(n)
  {}

  lemma PaddedTwo(n: nat)
    requires n < 100
    ensures Padded(n, 2) == Two(n)
  {
    hide Padded;
    PaddedDigit(n / 10);
    PaddedStep(n / 10, n % 10, 1);
    DigitIs(n / 10);
    DigitIs(n % 10);
  }

  lemma PaddedFour(n: nat)
    requires n < 10000
    ensures Padded(n, 4) == Four(n)
  {
    hide Padded;
    PaddedTwo(n / 100);
    PaddedStep(n / 100, n / 10 % 10, 2);
    assert 10 * (n / 100) + n / 10 % 10 == n / 10;
    PaddedStep(n / 10, n % 10, 3);
    DigitIs(n / 10 % 10);
    DigitIs(n % 10);
    assert n % 100 / 10 == n / 10 % 10 && n % 100 % 10 == n % 10;
  }

  lemma SpelledIs(t: Time)
    requires DigitsFit(t)
    ensures Spelled(t) == TimeText(t)
  {
    hide Padded, Two, Four;
    PaddedFour(t.date.year);
    PaddedTwo(t.date.month);
    PaddedTwo(t.date.day);
    PaddedTwo(t.hour);
    PaddedTwo(t.minute);
    PaddedTwo(t.second);
  }

  lemma {:induction false} NumberBelow(x: string)
    requires FromDigits(x).Some? && x != []
    ensures 0 <= FromDigits(x).value < Power(|x|)
    decreases |x|
  {
    if |x| > 1 {
      NumberBelow(x[..|x| - 1]);
    }
  }

  lemma NumbersFit(text: string)
    requires Marked(text) && Numbers(text).Some?
    ensures DigitsFit(Numbers(text).value)
  {
    hide FromDigits;
    assert Power(2) == 100 && Power(4) == 10000;
    NumberBelow(text[0..4]);
    NumberBelow(text[5..7]);
    NumberBelow(text[8..10]);
    NumberBelow(text[11..13]);
    NumberBelow(text[14..16]);
    NumberBelow(text[17..19]);
  }

  // ---------------------------------------------------------------- what is read

  /** A day of a month is so many days after its first. */
  lemma FromFirst(d: Date)
    ensures DaysFromCivil(d) == DaysFromCivil(Date(d.year, d.month, 1)) + d.day - 1
  {}

  lemma SecondsFromFirst(t: Time)
    requires Takes(t)
    ensures Seconds(t) == 86400 * (DaysFromCivil(Date(t.date.year, t.date.month, 1)) + t.date.day - 1)
                          + 3600 * t.hour + 60 * t.minute + t.second
    ensures Seconds(t) >= 0
  {
    hide DaysFromCivil;
    FromFirst(t.date);
    YearsOfDays(Date(t.date.year, t.date.month, 1));
  }

  /** A text is read exactly when it spells six numbers in their ranges, and as the seconds from 1970 to
      the first of that month, of the days after it, and of the time of day. */
  lemma TimeGrammar(text: string, secs: int)
    ensures UnixSeconds(text) == Some(secs) <==>
      exists t: Time :: Takes(t) && text == Spelled(t)
        && secs == 86400 * (DaysFromCivil(Date(t.date.year, t.date.month, 1)) + t.date.day - 1)
                   + 3600 * t.hour + 60 * t.minute + t.second
  {
    hide DaysFromCivil, Spelled, Numbers, Marked, Seconds, TimeText;
    if UnixSeconds(text) == Some(secs) {
      var t := Numbers(text).value;
      NumbersFit(text);
      TextOfNumbers(text);
      SpelledIs(t);
      SecondsFromFirst(t);
    }
    forall t: Time | Takes(t) && text == Spelled(t) ensures UnixSeconds(text) == Some(Seconds(t)) {
      SpelledIs(t);
      NumbersOfText(t);
      SecondsFromFirst(t);
    }
    forall t: Time | Takes(t) ensures Seconds(t) ==
        86400 * (DaysFromCivil(Date(t.date.year, t.date.month, 1)) + t.date.day - 1)
        + 3600 * t.hour + 60 * t.minute + t.second
    {
      SecondsFromFirst(t);
    }
  }

  // ---------------------------------------------------------------- what is written

  lemma YearsBefore(y: int)
    ensures y <= -2 ==> 365 * y + y / 4 - y / 100 + y / 400 <= -731
    ensures y == -1 ==> 365 * y + y / 4 - y / 100 + y / 400 == -366
    ensures y >= 0 ==> 365 * y + y / 4 - y / 100 + y / 400 >= 0
  {}

  /** The days from the first of the year 0 on are those of no year before. */
  lemma YearZero(d: Date)
    requires Valid(d)
    ensures -719528 <= DaysFromCivil(d) <==> d.year >= 0
  {
    hide Valid;
    var y := if d.month <= 2 then d.year - 1 else d.year;
    var n := DaysFromCivil(d);
    EraDays(y);
    var m := (d.month + 9) % 12;
    assert n == 365 * y + y / 4 - y / 100 + y / 400 + MonthStart(m) + d.day - 1 - 719468;
    YearsBefore(y);
    MonthDays(d, m);
  }

  /** A second is written exactly when it is of one of the years 0 to 9999, digit by digit. */
  lemma WrittenExactly(secs: int)
    ensures Rfc3339Of(secs).Some? <==> -62167219200 <= secs < 253402300800
    ensures -62167219200 <= secs < 253402300800 ==>
      var t := Time(CivilFromDays(secs / 86400), secs % 86400 / 3600, secs % 3600 / 60, secs % 60);
      DigitsFit(t) && Rfc3339Of(secs) == Some(Spelled(t))
  {
    hide CivilFromDays, DaysFromCivil, Timestamp, Valid, TimeText, Spelled;
    var d := CivilFromDays(secs / 86400);
    DateOfDay(secs / 86400);
    YearsOfDays(d);
    YearZero(d);
    DateFits(d);
    TimestampIsText(secs);
    if -62167219200 <= secs < 253402300800 {
      SpelledIs(TimeOf(secs));
      SameTime(secs);
    }
  }

  lemma SameTime(secs: int)
    ensures secs % 86400 / 60 % 60 == secs % 3600 / 60 && secs % 86400 % 60 == secs % 60
  {
    var (days, time) := (secs / 86400, secs % 86400);
    var (hour, rest) := (time / 3600, time % 3600);
    var (minute, second) := (rest / 60, rest % 60);
    DivUnique(secs, 3600, 24 * days + hour, rest);
    DivUnique(secs, 60, 1440 * days + 60 * hour + minute, second);
    DivUnique(time, 60, 60 * hour + minute, second);
    DivUnique(60 * hour + minute, 60, hour, minute);
  }
}
