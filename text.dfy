/** Small string facts the application's text handling relies on:
    JavaScript's `String.prototype.includes` and the decimal form a
    number takes when it is concatenated onto a string. */
module Text {

  /** `pattern` occurs in `s` starting at index `i`. */
  predicate OccursAt(s: string, pattern: string, i: int) {
    0 <= i <= |s| - |pattern| && s[i..i + |pattern|] == pattern
  }

  /** `s.includes(pattern)`: `pattern` occurs in `s` as a contiguous run. */
  predicate Includes(s: string, pattern: string): (b: bool)
    ensures b ==> |pattern| <= |s|
  {
    exists i | 0 <= i <= |s| - |pattern| :: OccursAt(s, pattern, i)
  }

  /** A text that lacks the first character of a non-empty pattern cannot include it. */
  lemma MissingFirstCharNotIncluded(s: string, pattern: string)
    requires |pattern| > 0
    requires forall k :: 0 <= k < |s| ==> s[k] != pattern[0]
    ensures !Includes(s, pattern)
  {
    forall i | 0 <= i <= |s| - |pattern|
      ensures !OccursAt(s, pattern, i)
    {
      assert s[i..i + |pattern|][0] == s[i];
    }
  }

  /** A pattern placed at offset `|prefix|` is included. */
  lemma IncludedAfterPrefix(prefix: string, pattern: string, suffix: string)
    ensures Includes(prefix + pattern + suffix, pattern)
  {
    var s := prefix + pattern + suffix;
    assert OccursAt(s, pattern, |prefix|);
  }

  predicate IsDigit(c: char) {
    '0' <= c <= '9'
  }

  function DigitChar(d: nat): (c: char)
    requires d < 10
    ensures IsDigit(c) && c as int - '0' as int == d
  {
    ('0' as int + d) as char
  }

  /** The decimal numeral of `n`, most significant digit first, as `"" + n` gives it. */
  function NatToDecimal(n: nat): (s: string)
    ensures |s| >= 1
    ensures forall k :: 0 <= k < |s| ==> IsDigit(s[k])
    ensures n > 0 ==> s[0] != '0'
  {
    if n < 10 then [DigitChar(n)] else NatToDecimal(n / 10) + [DigitChar(n % 10)]
  }

  /** The number a string of digits denotes. */
  function DecimalValue(s: string): nat
    requires forall k :: 0 <= k < |s| ==> IsDigit(s[k])
  {
    if s == [] then 0
    else
      assert IsDigit(s[|s| - 1]);
      DecimalValue(s[..|s| - 1]) * 10 + (s[|s| - 1] as int - '0' as int)
  }

  /** Reading back the numeral of `n` gives `n`. */
  lemma {:induction false} DecimalRoundTrip(n: nat)
    ensures DecimalValue(NatToDecimal(n)) == n
  {
    if n >= 10 {
      var s := NatToDecimal(n);
      assert s[..|s| - 1] == NatToDecimal(n / 10);
      DecimalRoundTrip(n / 10);
    }
  }

  /** `"" + n` for an integer `n`: a minus sign for negatives, then the numeral. */
  function IntToDecimal(n: int): (s: string)
    ensures |s| >= 1
    ensures forall k :: 0 <= k < |s| ==> s[k] == '-' || IsDigit(s[k])
  {
    if n < 0 then "-" + NatToDecimal(-n) else NatToDecimal(n)
  }
}
