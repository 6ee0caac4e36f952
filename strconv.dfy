/** Decimal rendering of integers, as `strconv.Itoa` does it: an optional
    minus sign followed by the digits, most significant first, with no
    leading zero. A parser for that format is given as the partner of the
    renderer, so that the rendering can be shown to lose nothing. */
module Strconv {

  function DigitChar(d: nat): (c: char)
    requires d < 10
    ensures '0' <= c <= '9'
  {
    ('0' as int + d) as char
  }

  function DigitValue(c: char): (d: nat)
    requires '0' <= c <= '9'
    ensures d < 10
  {
    c as int - '0' as int
  }

  predicate IsDigits(s: string) {
    forall k :: 0 <= k < |s| ==> '0' <= s[k] <= '9'
  }

  /** A well-formed decimal integer: digits, or a minus sign and digits. */
  predicate IsDecimal(s: string) {
    || (|s| > 0 && IsDigits(s))
    || (|s| > 1 && s[0] == '-' && IsDigits(s[1..]))
  }

  /** The digits of `n`, most significant first. */
  function NatDigits(n: nat): (s: string)
    ensures |s| > 0 && IsDigits(s)
    ensures s[0] == '0' ==> s == "0"
    decreases n
  {
    if n < 10 then [DigitChar(n)] else NatDigits(n / 10) + [DigitChar(n % 10)]
  }

  function ParseDigits(s: string): nat
    requires IsDigits(s)
    decreases |s|
  {
    if s == [] then 0
    else
      assert IsDigits(s[..|s| - 1]);
      ParseDigits(s[..|s| - 1]) * 10 + DigitValue(s[|s| - 1])
  }

  /** The value denoted by a well-formed decimal integer. */
  function DecimalValue(s: string): int
    requires IsDecimal(s)
  {
    if |s| > 0 && IsDigits(s) then ParseDigits(s) else 0 - ParseDigits(s[1..]) as int
  }

  lemma {:induction false} NatDigitsRoundTrip(n: nat)
    ensures ParseDigits(NatDigits(n)) == n
    decreases n
  {
    if n >= 10 {
      NatDigitsRoundTrip(n / 10);
      var s := NatDigits(n / 10) + [DigitChar(n % 10)];
      assert s[..|s| - 1] == NatDigits(n / 10);
    }
  }

  /** strconv.Itoa: the text reads back as `n`, and carries no leading zero
      (a sign is present exactly when `n` is negative). */
  function Itoa(n: int): (s: string)
    ensures IsDecimal(s) && DecimalValue(s) == n
    ensures (s[0] == '-') <==> n < 0
    ensures n >= 0 ==> IsDigits(s) && (s[0] == '0' ==> s == "0")
    ensures n < 0 ==> |s| > 1 && s[1] != '0'
  {
    if n < 0 then
      var d := NatDigits(-n);
      NatDigitsRoundTrip(-n);
      assert ("-" + d)[1..] == d;
      "-" + d
    else
      NatDigitsRoundTrip(n);
      NatDigits(n)
  }

  /** The width of the rendering of the numbers used by the default
      one-, two- and three-digit generators. */
  lemma {:induction false} NatDigitsWidth(n: nat)
    ensures n < 10 ==> |NatDigits(n)| == 1
    ensures 10 <= n < 100 ==> |NatDigits(n)| == 2
    ensures 100 <= n < 1000 ==> |NatDigits(n)| == 3
  {
    if n >= 10 {
      NatDigitsWidth(n / 10);
    }
  }
}
