/** The bits of Python string formatting the tools rely on: str() of an int, the `03d` and
    `.2f` format specs, str.lower() on ASCII and str.join. */
module Text {

  predicate IsDigit(c: char)
  {
    '0' <= c <= '9'
  }

  function Digit(d: nat): (c: char)
    requires d < 10
    ensures IsDigit(c) && c as int - '0' as int == d
  {
    ('0' as int + d) as char
  }

  /** The number a string of decimal digits denotes. */
  function DigitsValue(s: string): int
  {
    if s == [] then 0 else 10 * DigitsValue(s[..|s| - 1]) + (s[|s| - 1] as int - '0' as int)
  }

  /** str(n) for a non-negative int: its decimal digits, no leading zeros. */
  function NatToString(n: nat): (s: string)
    ensures s != [] && forall i :: 0 <= i < |s| ==> IsDigit(s[i])
  {
    if n < 10 then [Digit(n)] else NatToString(n / 10) + [Digit(n % 10)]
  }

  lemma {:induction false} NatToStringRoundTrip(n: nat)
    ensures DigitsValue(NatToString(n)) == n
  {
    if n >= 10 {
      var s := NatToString(n / 10);
      NatToStringRoundTrip(n / 10);
      assert (s + [Digit(n % 10)])[..|s|] == s;
    }
  }

  /** str(i) for any int. */
  function IntToString(i: int): string
  {
    if i < 0 then "-" + NatToString(-i) else NatToString(i)
  }

  /** f"{n:03d}": at least three digits, padded with zeros on the left. */
  function Pad3(n: nat): (s: string)
    ensures forall i :: 0 <= i < |s| ==> IsDigit(s[i])
    ensures n < 1000 ==> |s| == 3 && DigitsValue(s) == n
  {
    if n < 1000 then
      var s := [Digit(n / 100), Digit(n / 10 % 10), Digit(n % 10)];
      assert s[..1][..0] == [] && s[..2][..1] == s[..1] && s[..3 - 1] == s[..2];
      assert DigitsValue(s[..1]) == n / 100;
      assert DigitsValue(s[..2]) == 10 * (n / 100) + n / 10 % 10;
      assert DigitsValue(s) == 10 * DigitsValue(s[..2]) + n % 10;
      s
    else
      NatToString(n)
  }

  lemma Pad3Injective(m: nat, n: nat)
    requires m < 1000 && n < 1000 && Pad3(m) == Pad3(n)
    ensures m == n
  {
  }

  /** Rounds to the nearest integer, ties to the even one (as format() does on an exact value). */
  function RoundHalfEven(x: real): (r: int)
    ensures x - 0.5 <= r as real <= x + 0.5
  {
    var f := x.Floor;
    var fraction := x - f as real;
    if fraction > 0.5 then f + 1
    else if fraction < 0.5 then f
    else if f % 2 == 0 then f else f + 1
  }

  /** f"{x:.2f}" on the exact value x. */
  function Fixed2(x: real): string
    decreases if x < 0.0 then 1 else 0
  {
    if x < 0.0 then "-" + Fixed2(-x)
    else
      var cents := RoundHalfEven(x * 100.0);
      var c: nat := cents;
      NatToString(c / 100) + "." + [Digit(c % 100 / 10), Digit(c % 10)]
  }

  function LowerChar(c: char): char
  {
    if 'A' <= c <= 'Z' then (c as int + ('a' as int - 'A' as int)) as char else c
  }

  /** str.lower() restricted to ASCII letters. */
  function Lower(s: string): (r: string)
    ensures |r| == |s| && forall i :: 0 <= i < |s| ==> r[i] == LowerChar(s[i])
  {
    if s == [] then [] else [LowerChar(s[0])] + Lower(s[1..])
  }

  /** separator.join(parts) */
  function Join(parts: seq<string>, separator: string): string
  {
    if parts == [] then ""
    else if |parts| == 1 then parts[0]
    else parts[0] + separator + Join(parts[1..], separator)
  }
}
