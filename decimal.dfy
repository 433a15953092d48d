/**
 * Decimal text of integers, as MQTT payloads carry them.
 * `Parse` is Python's `int(text)` for the ASCII subset: surrounding ASCII
 * whitespace, an optional sign, then one or more ASCII digits.
 * `Show` is `str(n)`.
 */
module Decimal {
  import opened Optional

  predicate IsDigit(c: char) { '0' <= c <= '9' }

  predicate AllDigits(s: string) { forall i :: 0 <= i < |s| ==> IsDigit(s[i]) }

  /** The whitespace `int()` strips from both ends (ASCII part). */
  predicate IsSpace(c: char) {
    c == ' ' || c == '\t' || c == '\n' || c == '\r' || c as int == 11 || c as int == 12
  }

  function DigitChar(n: nat): (c: char)
    requires n < 10
    ensures IsDigit(c) && c as int - '0' as int == n
  {
    ('0' as int + n) as char
  }

  /** Value of a non-empty run of digits, most significant digit first. */
  function DigitsValue(s: string): nat
    requires AllDigits(s)
  {
    if s == [] then 0
    else DigitsValue(s[..|s| - 1]) * 10 + (s[|s| - 1] as int - '0' as int)
  }

  /** The shortest digit string of `n`. */
  function NatText(n: nat): (s: string)
    ensures |s| > 0 && AllDigits(s)
    ensures IsDigit(s[0])
  {
    if n < 10 then [DigitChar(n)] else NatText(n / 10) + [DigitChar(n % 10)]
  }

  function Show(n: int): (s: string)
    ensures |s| > 0 && !IsSpace(s[0]) && !IsSpace(s[|s| - 1])
  {
    if n < 0 then "-" + NatText(-n) else NatText(n)
  }

  function TrimStart(s: string): string {
    if s != [] && IsSpace(s[0]) then TrimStart(s[1..]) else s
  }

  function TrimEnd(s: string): string {
    if s != [] && IsSpace(s[|s| - 1]) then TrimEnd(s[..|s| - 1]) else s
  }

  function Trim(s: string): string { TrimEnd(TrimStart(s)) }

  /** `int(text)`: `None` where Python raises `ValueError`. */
  function Parse(text: string): Option<int> {
    var t := Trim(text);
    if t != [] && (t[0] == '-' || t[0] == '+') then
      if t[1..] != [] && AllDigits(t[1..]) then
        var magnitude: int := DigitsValue(t[1..]);
        Some(if t[0] == '-' then -magnitude else magnitude)
      else None
    else if t != [] && AllDigits(t) then Some(DigitsValue(t))
    else None
  }

  lemma {:induction false} DigitsOfNatText(n: nat)
    ensures DigitsValue(NatText(n)) == n
  {
    if n >= 10 {
      var s := NatText(n);
      DigitsOfNatText(n / 10);
      assert s[..|s| - 1] == NatText(n / 10);
    }
  }

  lemma TrimKeeps(s: string)
    requires |s| > 0 && !IsSpace(s[0]) && !IsSpace(s[|s| - 1])
    ensures Trim(s) == s
  {
  }

  /** A reading published as its decimal text decodes to the same reading. */
  lemma {:induction false} ParseShow(n: int)
    ensures Parse(Show(n)) == Some(n)
  {
    var s := Show(n);
    TrimKeeps(s);
    if n < 0 {
      assert s[1..] == NatText(-n);
      DigitsOfNatText(-n);
    } else {
      DigitsOfNatText(n);
    }
  }
}
