/**
 * String helpers for the header lines the generator writes: prefix and
 * suffix tests, `join` with a separator, and the decimal formatting that
 * Rust's `{}` applies to a `usize`.
 */
module Text {

  predicate IsPrefix(prefix: string, s: string) {
    |prefix| <= |s| && s[..|prefix|] == prefix
  }

  /** Rust's `str::ends_with`. */
  predicate EndsWith(s: string, suffix: string) {
    |suffix| <= |s| && s[|s| - |suffix|..] == suffix
  }

  /** Rust's `[String]::join(sep)`. */
  function Join(items: seq<string>, sep: string): string
    decreases |items|
  {
    if |items| == 0 then ""
    else if |items| == 1 then items[0]
    else items[0] + sep + Join(items[1..], sep)
  }

  predicate IsDigit(c: char) {
    '0' <= c <= '9'
  }

  predicate AllDigits(s: string) {
    forall i :: 0 <= i < |s| ==> IsDigit(s[i])
  }

  function DigitChar(d: nat): (c: char)
    requires d < 10
    ensures IsDigit(c) && (c as int) - ('0' as int) == d
  {
    (('0' as int) + d) as char
  }

  /** The decimal rendering of a length, as `format!("{}", n)` writes it. */
  function Decimal(n: nat): (r: string)
    ensures |r| >= 1 && AllDigits(r)
    ensures r[0] == '0' ==> n == 0
    decreases n
  {
    if n < 10 then [DigitChar(n)] else Decimal(n / 10) + [DigitChar(n % 10)]
  }

  /** Reads a string of digits back as a number: the partner of Decimal. */
  function DecimalValue(s: string): nat
    requires AllDigits(s)
    decreases |s|
  {
    if s == [] then 0
    else DecimalValue(s[..|s| - 1]) * 10 + ((s[|s| - 1] as int) - ('0' as int))
  }

  lemma {:induction false} DecimalRoundTrip(n: nat)
    ensures DecimalValue(Decimal(n)) == n
    decreases n
  {
    if n >= 10 {
      DecimalRoundTrip(n / 10);
      var r := Decimal(n);
      assert r[..|r| - 1] == Decimal(n / 10);
    }
  }

  /** Different counts are never rendered alike. */
  lemma DecimalInjective(m: nat, n: nat)
    requires Decimal(m) == Decimal(n)
    ensures m == n
  {
    DecimalRoundTrip(m);
    DecimalRoundTrip(n);
  }
}
