/** Text helpers the handlers and packet formats rely on: decimal rendering
    (`Convert.ToString` of an integer, the `000` custom format), and the
    case mappings used for user names (`ToLower`, `OrdinalIgnoreCase`).
    Case mappings are modelled on ASCII letters only. */
module Text {

  predicate IsDigit(c: char) {
    '0' <= c <= '9'
  }

  predicate AllDigits(s: string) {
    forall i :: 0 <= i < |s| ==> IsDigit(s[i])
  }

  function DigitChar(d: nat): (c: char)
    requires d < 10
    ensures IsDigit(c) && c as int - '0' as int == d
  {
    ('0' as int + d) as char
  }

  /** The number a string of decimal digits denotes (leading zeros allowed). */
  function DecimalValue(s: string): nat
    requires AllDigits(s)
  {
    if s == [] then 0
    else DecimalValue(s[..|s| - 1]) * 10 + (s[|s| - 1] as int - '0' as int)
  }

  /** The shortest decimal rendering of `n`: no leading zero, except for
      zero itself. */
  function Digits(n: nat): (s: string)
    ensures 1 <= |s|
    ensures AllDigits(s)
    ensures DecimalValue(s) == n
    ensures n > 0 ==> s[0] != '0'
    ensures |s| == 1 || s[0] != '0'
    decreases n
  {
    if n < 10 then [DigitChar(n)]
    else
      var prefix := Digits(n / 10);
      var s := prefix + [DigitChar(n % 10)];
      assert s[..|s| - 1] == prefix;
      s
  }

  /** `s` left-padded with '0' to at least `width` characters. */
  function ZeroPad(s: string, width: nat): (r: string)
    requires AllDigits(s)
    ensures AllDigits(r)
    ensures |r| == if |s| < width then width else |s|
    ensures DecimalValue(r) == DecimalValue(s)
    decreases width - |s|
  {
    if |s| < width then
      var r := ZeroPad(['0'] + s, width);
      LeadingZero(s);
      r
    else s
  }

  /** A leading zero does not change the value of a digit string. */
  lemma {:induction false} LeadingZero(s: string)
    requires AllDigits(s)
    ensures AllDigits(['0'] + s)
    ensures DecimalValue(['0'] + s) == DecimalValue(s)
  {
    var t := ['0'] + s;
    if s != [] {
      LeadingZero(s[..|s| - 1]);
      assert t[..|t| - 1] == ['0'] + s[..|s| - 1];
    }
  }

  /** `Convert.ToString(n)` for an integer: an optional '-' and the digits. */
  function Decimal(n: int): (s: string)
    ensures n >= 0 ==> AllDigits(s) && DecimalValue(s) == n
    ensures n < 0 ==> |s| >= 2 && s[0] == '-' && AllDigits(s[1..]) && DecimalValue(s[1..]) == -n
    ensures n >= 0 ==> |s| >= 1 && (|s| == 1 || s[0] != '0')
    ensures n < 0 ==> s[1] != '0'
  {
    if n < 0 then
      var d := Digits(-n);
      assert ("-" + d)[1..] == d;
      "-" + d
    else Digits(n)
  }

  function LowerChar(c: char): char {
    if 'A' <= c <= 'Z' then (c as int + 32) as char else c
  }

  function UpperChar(c: char): char {
    if 'a' <= c <= 'z' then (c as int - 32) as char else c
  }

  /** `string.ToLower()`, on ASCII letters. */
  function ToLower(s: string): (r: string)
    ensures |r| == |s|
    ensures forall i :: 0 <= i < |s| ==> r[i] == LowerChar(s[i])
  {
    seq(|s|, i requires 0 <= i < |s| => LowerChar(s[i]))
  }

  /** `string.Equals(a, b, StringComparison.OrdinalIgnoreCase)`, on ASCII letters. */
  predicate EqualsIgnoreCase(a: string, b: string) {
    |a| == |b| && forall i :: 0 <= i < |a| ==> UpperChar(a[i]) == UpperChar(b[i])
  }

  /** Two names equal ignoring case lower-case to the same key. */
  lemma {:induction false} IgnoreCaseSameKey(a: string, b: string)
    ensures EqualsIgnoreCase(a, b) <==> ToLower(a) == ToLower(b)
  {
  }
}
