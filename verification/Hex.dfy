/** Numbers in four hexadecimal digits, as escapes write them, and digits read back. */
module Hex {
  import opened Text
  import opened Wrappers

  function HexDigit(n: nat): char
    requires n < 16
  {
    if n < 10 then '0' + n as char else 'a' + (n - 10) as char
  }

  function Hex4(n: nat): string
    requires n < 0x1_0000
  {
    [HexDigit(n / 0x1000), HexDigit(n / 0x100 % 16), HexDigit(n / 0x10 % 16), HexDigit(n % 16)]
  }

  function HexValue(c: char): Option<nat> {
    if IsDigit(c) then Some((c - '0') as nat)
    else if 'a' <= c <= 'f' then Some((c - 'a') as nat + 10)
    else if 'A' <= c <= 'F' then Some((c - 'A') as nat + 10)
    else None
  }

  function FromHexDigits(s: string): Option<nat> {
    if s == [] then Some(0)
    else
      match (FromHexDigits(s[..|s| - 1]), HexValue(s[|s| - 1]))
      case (Some(n), Some(d)) => Some(16 * n + d)
      case _ => None
  }

  lemma HexDigitPlain(n: nat)
    requires n < 16
    ensures HexValue(HexDigit(n)) == Some(n)
    ensures var c := HexDigit(n); c != '"' && c != '\\' && c != '\'' && c != '\n' && c != '+'
  {}

  lemma HexDigitsOne(a: string, c: char, n: nat, d: nat)
    requires FromHexDigits(a) == Some(n) && HexValue(c) == Some(d)
    ensures FromHexDigits(a + [c]) == Some(16 * n + d)
  {
    assert (a + [c])[..|a|] == a;
  }

  lemma NoHexDigits()
    ensures FromHexDigits("") == Some(0)
  {}

  lemma FourHexDigits(a: nat, b: nat, c: nat, d: nat)
    requires a < 16 && b < 16 && c < 16 && d < 16
    ensures FromHexDigits([HexDigit(a), HexDigit(b), HexDigit(c), HexDigit(d)]) ==
            Some(16 * (16 * (16 * a + b) + c) + d)
  {
    hide HexDigit, HexValue, FromHexDigits;
    var (p, q, r, s) := (HexDigit(a), HexDigit(b), HexDigit(c), HexDigit(d));
    HexDigitPlain(a);
    HexDigitPlain(b);
    HexDigitPlain(c);
    HexDigitPlain(d);
    NoHexDigits();
    HexDigitsOne("", p, 0, a);
    assert "" + [p] == [p];
    HexDigitsOne([p], q, a, b);
    assert [p] + [q] == [p, q];
    HexDigitsOne([p, q], r, 16 * a + b, c);
    assert [p, q] + [r] == [p, q, r];
    HexDigitsOne([p, q, r], s, 16 * (16 * a + b) + c, d);
    assert [p, q, r] + [s] == [p, q, r, s];
  }

  lemma Nibbles(n: nat)
    requires n < 0x1_0000
    ensures n / 0x1000 < 16
    ensures 16 * (16 * (16 * (n / 0x1000) + n / 0x100 % 16) + n / 0x10 % 16) + n % 16 == n
  {}
}
