/**
 * Java's decimal integers: `Long.parseLong` and `Integer.parseInt` on ASCII digits, with their
 * 64- and 32-bit ranges, and `Long.toString`, which the messages use to print an id.
 */
module JavaNumbers {
  import opened Wrappers
  import opened JavaStrings

  const LONG_MIN: int := -0x8000_0000_0000_0000
  const LONG_MAX: int := 0x7FFF_FFFF_FFFF_FFFF
  const INT_MIN: int := -0x8000_0000
  const INT_MAX: int := 0x7FFF_FFFF

  predicate AllDigitText(s: string)
  {
    forall k :: 0 <= k < |s| ==> IsDigit(s[k])
  }

  function DigitValue(c: char): nat
    requires IsDigit(c)
  {
    (c as int) - ('0' as int)
  }

  function DigitChar(d: nat): (c: char)
    requires d < 10
    ensures IsDigit(c) && DigitValue(c) == d
  {
    ('0' as int + d) as char
  }

  /** The value of a string of digits, most significant first; leading zeros are allowed. */
  function DigitsValue(s: string): nat
    requires AllDigitText(s)
    decreases |s|
  {
    if s == [] then 0 else DigitsValue(s[..|s| - 1]) * 10 + DigitValue(s[|s| - 1])
  }

  /** The shortest decimal digits of `n`. */
  function Digits(n: nat): (r: string)
    ensures |r| > 0 && AllDigitText(r)
    decreases n
  {
    if n < 10 then [DigitChar(n)] else Digits(n / 10) + [DigitChar(n % 10)]
  }

  /** `Long.toString` / string concatenation of a `long` or `int`: a '-' for negatives. */
  function DecimalText(n: int): (r: string)
    ensures |r| > 0
  {
    if n < 0 then "-" + Digits(-n) else Digits(n)
  }

  /**
   * The parse of an optional sign followed by at least one ASCII digit into `[min, max]`;
   * `None` is the `NumberFormatException` (also thrown for a null string).
   */
  function ParseDecimal(text: Option<string>, min: int, max: int): (r: Option<int>)
    ensures r.Some? ==> min <= r.value <= max
    ensures r.Some? ==> text.Some? && |text.value| > 0
  {
    if text.None? || text.value == [] then None
    else
      var s := text.value;
      var negative := s[0] == '-';
      var body := if s[0] == '-' || s[0] == '+' then s[1..] else s;
      if body == [] || !AllDigitText(body) then None
      else
        var magnitude: int := DigitsValue(body);
        var v := if negative then -magnitude else magnitude;
        if min <= v <= max then Some(v) else None
  }

  /** `Long.parseLong`. */
  function ParseLong(text: Option<string>): (r: Option<int>)
    ensures r.Some? ==> LONG_MIN <= r.value <= LONG_MAX
  {
    ParseDecimal(text, LONG_MIN, LONG_MAX)
  }

  /** `Integer.parseInt`. */
  function ParseInt(text: Option<string>): (r: Option<int>)
    ensures r.Some? ==> INT_MIN <= r.value <= INT_MAX
  {
    ParseDecimal(text, INT_MIN, INT_MAX)
  }

  /** Reading the digits back gives the number. */
  lemma {:induction false} DigitsRoundTrip(n: nat)
    ensures DigitsValue(Digits(n)) == n
    decreases n
  {
    var r := Digits(n);
    if n >= 10 {
      DigitsRoundTrip(n / 10);
      assert r[..|r| - 1] == Digits(n / 10);
    }
  }

  /** Parsing what `Long.toString` prints gives the number back, for every number in range. */
  lemma DecimalTextRoundTrip(n: int, min: int, max: int)
    requires min <= n <= max
    ensures ParseDecimal(Some(DecimalText(n)), min, max) == Some(n)
  {
    DigitsRoundTrip(if n < 0 then -n else n);
    if n < 0 {
      assert DecimalText(n)[1..] == Digits(-n);
    } else {
      assert DecimalText(n)[0] != '-' && DecimalText(n)[0] != '+' by {
        assert IsDigit(DecimalText(n)[0]);
      }
    }
  }

  /** A value outside the range is rejected even though its digits are well formed. */
  lemma OutOfRangeIsRejected(n: int, min: int, max: int)
    requires n < min || n > max
    ensures ParseDecimal(Some(DecimalText(n)), min, max) == None
  {
    DigitsRoundTrip(if n < 0 then -n else n);
    if n < 0 {
      assert DecimalText(n)[1..] == Digits(-n);
    } else {
      assert IsDigit(DecimalText(n)[0]);
    }
  }
}
