/** Python's `str()` of an integer, its inverse, and splitting at the last separator. */
module Text {
  import opened Wrappers

  predicate IsDigit(c: char) {
    '0' <= c <= '9'
  }

  predicate AllDigits(s: string) {
    forall i :: 0 <= i < |s| ==> IsDigit(s[i])
  }

  function DigitChar(d: nat): char
    requires d < 10
  {
    ('0' as int + d) as char
  }

  function DigitValue(c: char): nat
    requires IsDigit(c)
  {
    c as int - '0' as int
  }

  /** `str(n)` for a non-negative integer: decimal digits without leading zeros. */
  function NatToDecimal(n: nat): (s: string)
    ensures |s| > 0 && AllDigits(s)
    ensures |s| > 1 ==> s[0] != '0'
    decreases n
  {
    if n < 10 then [DigitChar(n)] else NatToDecimal(n / 10) + [DigitChar(n % 10)]
  }

  /** `str(n)` for any integer: a minus sign before the digits of a negative number. */
  function IntToDecimal(n: int): string {
    if n < 0 then "-" + NatToDecimal(-n) else NatToDecimal(n)
  }

  /** The value of a string of decimal digits, most significant first. */
  function ParseDigits(s: string): nat
    requires AllDigits(s)
    decreases |s|
  {
    if s == [] then 0 else ParseDigits(s[..|s| - 1]) * 10 + DigitValue(s[|s| - 1])
  }

  /** `int(s)` restricted to an optional minus sign followed by at least one digit. */
  function ParseDecimal(s: string): Option<int> {
    if |s| > 1 && s[0] == '-' && AllDigits(s[1..]) then Some(0 - ParseDigits(s[1..]) as int)
    else if |s| > 0 && AllDigits(s) then Some(ParseDigits(s))
    else None
  }

  lemma {:induction false} NatToDecimalRoundTrip(n: nat)
    ensures ParseDigits(NatToDecimal(n)) == n
    decreases n
  {
    if n >= 10 {
      var s := NatToDecimal(n);
      NatToDecimalRoundTrip(n / 10);
      assert s[..|s| - 1] == NatToDecimal(n / 10);
    }
  }

  /** Reading back the decimal text of any integer gives that integer. */
  lemma IntToDecimalRoundTrip(n: int)
    ensures ParseDecimal(IntToDecimal(n)) == Some(n)
  {
    if n < 0 {
      var s := IntToDecimal(n);
      assert s[1..] == NatToDecimal(-n);
      NatToDecimalRoundTrip(-n);
    } else {
      NatToDecimalRoundTrip(n);
    }
  }

  /** Splits `s` at its last occurrence of `sep`; None when `sep` does not occur. */
  function SplitLast(s: string, sep: char): Option<(string, string)>
    decreases |s|
  {
    if s == [] then None
    else if s[|s| - 1] == sep then Some((s[..|s| - 1], ""))
    else match SplitLast(s[..|s| - 1], sep)
      case None => None
      case Some((h, t)) => Some((h, t + [s[|s| - 1]]))
  }

  /** Joining with `sep` and splitting at the last `sep` are inverse when the tail is free of `sep`. */
  lemma {:induction false} SplitLastJoin(h: string, t: string, sep: char)
    requires sep !in t
    ensures SplitLast(h + [sep] + t, sep) == Some((h, t))
    decreases |t|
  {
    var s := h + [sep] + t;
    if t == [] {
      assert s[..|s| - 1] == h;
    } else {
      var t' := t[..|t| - 1];
      assert t == t' + [t[|t| - 1]];
      assert s[..|s| - 1] == h + [sep] + t';
      SplitLastJoin(h, t', sep);
    }
  }
}
