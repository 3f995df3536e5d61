/** The few PHP string operations the client relies on. */
module Strings {

  /** PHP's decimal rendering of an integer, as in `$code . ' '`. */
  function Decimal(n: int): string
  {
    if n < 0 then "-" + Digits(-n) else Digits(n)
  }

  function Digits(n: nat): string
    decreases n
  {
    if n < 10 then [DigitChar(n)] else Digits(n / 10) + [DigitChar(n % 10)]
  }

  function DigitChar(d: nat): char
    requires d < 10
  {
    "0123456789"[d]
  }

  /** `preg_match('~^http~', $s)`: the string starts with "http". */
  predicate StartsWithHttp(s: string)
  {
    "http" <= s
  }

  /** PHP `empty()` applied to a string: true for "" and for "0". */
  predicate IsEmptyString(s: string)
  {
    s == "" || s == "0"
  }

  /** `implode($sep, $parts)`. */
  function Join(parts: seq<string>, sep: string): string
  {
    if parts == [] then ""
    else if |parts| == 1 then parts[0]
    else parts[0] + sep + Join(parts[1..], sep)
  }

  /** ASCII lower-casing, as PSR-7 header-name comparison uses. */
  function Lower(c: char): char
  {
    if 'A' <= c <= 'Z' then (c as int + 32) as char else c
  }

  /** Header names are compared without regard to ASCII case. */
  predicate SameName(a: string, b: string)
  {
    |a| == |b| && forall i :: 0 <= i < |a| ==> Lower(a[i]) == Lower(b[i])
  }
}
