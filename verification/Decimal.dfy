/** Decimal text: `std::to_string`, zero padding and the digit scan of `std::from_chars`. */
module Decimal {
  predicate IsDigit(c: char) {
    '0' <= c <= '9'
  }

  function DigitValue(c: char): (d: nat)
    requires IsDigit(c)
    ensures d < 10
  {
    c as int - '0' as int
  }

  function Digit(d: nat): (c: char)
    requires d < 10
    ensures IsDigit(c) && DigitValue(c) == d
  {
    ('0' as int + d) as char
  }

  predicate AllDigits(s: string) {
    forall i :: 0 <= i < |s| ==> IsDigit(s[i])
  }

  function ToString(n: nat): string {
    if n < 10 then [Digit(n)] else ToString(n / 10) + [Digit(n % 10)]
  }

  /** The number a digit string denotes. */
  function Value(s: string): nat
    requires AllDigits(s)
  {
    if s == "" then 0 else 10 * Value(s[..|s| - 1]) + DigitValue(s[|s| - 1])
  }

  lemma {:induction false} ToStringDigits(n: nat)
    ensures AllDigits(ToString(n)) && |ToString(n)| >= 1 && Value(ToString(n)) == n
  {
    if n >= 10 {
      ToStringDigits(n / 10);
      var s := ToString(n);
      assert s[..|s| - 1] == ToString(n / 10);
    } else {
      var s := ToString(n);
      assert s[..0] == "";
    }
  }

  lemma {:induction false} LongerNumbers(a: nat, b: nat)
    requires a <= b
    ensures |ToString(a)| <= |ToString(b)|
  {
    if b >= 10 && a >= 10 {
      LongerNumbers(a / 10, b / 10);
    }
  }

  /** `{:0width}` formatting. */
  function Padded(n: nat, width: nat): string {
    var text := ToString(n);
    if |text| >= width then text else seq(width - |text|, _ => '0') + text
  }

  lemma {:induction false} LeadingZeros(zeros: string, s: string)
    requires AllDigits(s) && forall i :: 0 <= i < |zeros| ==> zeros[i] == '0'
    ensures AllDigits(zeros + s) && Value(zeros + s) == Value(s)
    decreases |s|, |zeros|
  {
    if s != "" {
      LeadingZeros(zeros, s[..|s| - 1]);
      assert (zeros + s)[..|zeros + s| - 1] == zeros + s[..|s| - 1];
    } else if zeros != "" {
      LeadingZeros(zeros[..|zeros| - 1], s);
      assert zeros + s == zeros;
      assert zeros[..|zeros| - 1] + s == zeros[..|zeros| - 1];
    }
  }

  lemma PaddedDigits(n: nat, width: nat)
    ensures AllDigits(Padded(n, width)) && |Padded(n, width)| >= 1 && Value(Padded(n, width)) == n
  {
    ToStringDigits(n);
    var text := ToString(n);
    if |text| < width {
      LeadingZeros(seq(width - |text|, _ => '0'), text);
    }
  }

  /** Length of the longest digit prefix, the part `std::from_chars` consumes. */
  function DigitPrefix(s: string): (n: nat)
    ensures n <= |s| && AllDigits(s[..n])
    ensures n < |s| ==> !IsDigit(s[n])
  {
    if s == "" || !IsDigit(s[0]) then 0 else
    var n := 1 + DigitPrefix(s[1..]);
    assert forall i :: 1 <= i < n ==> s[i] == s[1..][i - 1];
    n
  }

  lemma DigitPrefixOf(digits: string, rest: string)
    requires AllDigits(digits)
    requires rest == "" || !IsDigit(rest[0])
    ensures DigitPrefix(digits + rest) == |digits|
    ensures (digits + rest)[..|digits|] == digits
  {
  }

  /** Outcome of `std::from_chars` on an unsigned integer whose largest value is `max`. */
  datatype Scan = NoNumber | OutOfRange(length: nat) | Number(value: nat, length: nat)

  function FromChars(s: string, max: nat): (r: Scan)
    ensures r.Number? ==> 1 <= r.length <= |s| && r.value <= max
  {
    var n := DigitPrefix(s);
    if n == 0 then NoNumber
    else if Value(s[..n]) > max then OutOfRange(n)
    else Number(Value(s[..n]), n)
  }

  /** Scanning printed digits stops exactly after them and recovers the number. */
  lemma FromCharsPrinted(n: nat, rest: string, max: nat)
    requires n <= max
    requires rest == "" || !IsDigit(rest[0])
    ensures FromChars(ToString(n) + rest, max) == Number(n, |ToString(n)|)
  {
    ToStringDigits(n);
    DigitPrefixOf(ToString(n), rest);
  }
}
