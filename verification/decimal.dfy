/** Rendering of integer minor units as the decimal amount string sent to the
    gateway (`fmt.Sprintf("%.2f", float64(amount)/100.0)`, internal/core/services/payout.go),
    stated with integer division instead of floating point, and its inverse. */
module Decimal {

  import opened Wrappers

  predicate IsDigit(c: char) {
    '0' <= c <= '9'
  }

  predicate AllDigits(s: string) {
    forall i | 0 <= i < |s| :: IsDigit(s[i])
  }

  function DigitValue(c: char): (d: nat)
    requires IsDigit(c)
    ensures d < 10
  {
    c as int - '0' as int
  }

  function DigitChar(d: nat): (c: char)
    requires d < 10
    ensures IsDigit(c) && DigitValue(c) == d
  {
    "0123456789"[d]
  }

  /** Base-ten rendering of a natural number, without leading zeros. */
  function NatToString(n: nat): (s: string)
    ensures |s| > 0 && AllDigits(s)
    ensures |s| > 1 ==> s[0] != '0'
    decreases n
  {
    if n < 10 then [DigitChar(n)] else NatToString(n / 10) + [DigitChar(n % 10)]
  }

  /** Value of a string of decimal digits; the empty string reads as 0. */
  function DigitsToNat(s: string): nat
    requires AllDigits(s)
  {
    if |s| == 0 then 0 else DigitsToNat(s[..|s| - 1]) * 10 + DigitValue(s[|s| - 1])
  }

  lemma {:induction false} NatToStringRoundTrip(n: nat)
    ensures DigitsToNat(NatToString(n)) == n
    decreases n
  {
    if n >= 10 {
      NatToStringRoundTrip(n / 10);
      var s := NatToString(n);
      assert s[..|s| - 1] == NatToString(n / 10);
    }
  }

  function Abs(x: int): nat {
    if x < 0 then -x else x
  }

  /** The whole units, a '.', and exactly two cent digits. */
  function UnsignedDecimal(a: nat): (s: string)
    ensures |s| >= 4 && s[|s| - 3] == '.' && AllDigits(s[..|s| - 3])
    ensures IsDigit(s[0])
    // no leading zero in the whole units: "100.50", never "0100.50"
    ensures |s| > 4 ==> s[0] != '0'
    ensures IsDigit(s[|s| - 2]) && IsDigit(s[|s| - 1])
    ensures DigitValue(s[|s| - 2]) * 10 + DigitValue(s[|s| - 1]) == a % 100
    ensures DigitsToNat(s[..|s| - 3]) == a / 100
  {
    var units := NatToString(a / 100);
    var s := units + "." + [DigitChar(a % 100 / 10), DigitChar(a % 10)];
    NatToStringRoundTrip(a / 100);
    assert s[..|s| - 3] == units;
    assert s[0] == units[0];
    s
  }

  /** Negative amounts get a '-' in front of the unsigned rendering.
      Examples: 10050 is "100.50", 500000 is "5000.00". */
  function CentsToDecimal(amount: int): (s: string)
    ensures |s| >= 4 && s[|s| - 3] == '.'
    ensures IsDigit(s[|s| - 2]) && IsDigit(s[|s| - 1])
    ensures DigitValue(s[|s| - 2]) * 10 + DigitValue(s[|s| - 1]) == Abs(amount) % 100
    ensures s[0] == '-' <==> amount < 0
    ensures amount < 0 ==> s[1..] == UnsignedDecimal(Abs(amount))
    ensures amount >= 0 ==> s == UnsignedDecimal(amount)
  {
    var u := UnsignedDecimal(Abs(amount));
    if amount < 0 then
      var s := "-" + u;
      assert s[1..] == u;
      s
    else
      u
  }

  /** Reads back a string of the shape CentsToDecimal produces. */
  function DecimalToCents(s: string): (r: Option<int>)
  {
    if |s| > 0 && s[0] == '-' then
      match UnsignedToCents(s[1..])
      case Some(n) => Some(-n)
      case None => None
    else
      UnsignedToCents(s)
  }

  function UnsignedToCents(s: string): Option<int>
  {
    if |s| >= 4 && s[|s| - 3] == '.' && AllDigits(s[..|s| - 3])
       && IsDigit(s[|s| - 2]) && IsDigit(s[|s| - 1])
    then Some(DigitsToNat(s[..|s| - 3]) * 100 + DigitValue(s[|s| - 2]) * 10 + DigitValue(s[|s| - 1]))
    else None
  }

  /** The amount string loses nothing: the cents read back exactly. */
  lemma CentsRoundTrip(amount: int)
    ensures DecimalToCents(CentsToDecimal(amount)) == Some(amount)
  {
    var a := Abs(amount);
    assert UnsignedToCents(UnsignedDecimal(a)) == Some(a);
  }

  /** Distinct amounts are never sent as the same string. */
  lemma CentsToDecimalInjective(a: int, b: int)
    requires a != b
    ensures CentsToDecimal(a) != CentsToDecimal(b)
  {
    CentsRoundTrip(a);
    CentsRoundTrip(b);
  }

  /** 10050 minor units go out as "100.50". */
  lemma CentsExampleFraction()
    ensures CentsToDecimal(10050) == "100.50"
  {
    assert NatToString(100) == "100";
  }

  /** 500000 minor units go out as "5000.00". */
  lemma CentsExampleWhole()
    ensures CentsToDecimal(500000) == "5000.00"
  {
    assert NatToString(5000) == "5000";
  }
}
