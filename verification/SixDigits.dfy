/** Verification codes: `randomInt(1000000).toString().padStart(6, '0')`. */
module SixDigits {

  function Digit(d: nat): char
    requires d < 10
  {
    "0123456789"[d]
  }

  predicate IsDigit(c: char) {
    '0' <= c <= '9'
  }

  predicate AllDigits(s: string) {
    forall i :: 0 <= i < |s| ==> IsDigit(s[i])
  }

  /** JavaScript's `n.toString()`: no leading zeros. */
  function Decimal(n: nat): string {
    if n < 10 then [Digit(n)] else Decimal(n / 10) + [Digit(n % 10)]
  }

  /** JavaScript's `s.padStart(width, '0')`. */
  function PadStart(s: string, width: nat): string
    decreases width - |s|
  {
    if |s| >= width then s else PadStart("0" + s, width)
  }

  function Format(n: nat): string {
    PadStart(Decimal(n), 6)
  }

  /** The number a string of digits denotes. */
  function Value(s: string): nat
    requires AllDigits(s)
  {
    if s == "" then 0
    else 10 * Value(s[..|s| - 1]) + (s[|s| - 1] - '0') as nat
  }

  predicate IsCode(s: string) {
    |s| == 6 && AllDigits(s)
  }

  function Pow10(k: nat): nat {
    if k == 0 then 1 else 10 * Pow10(k - 1)
  }

  lemma DigitIsDigit(d: nat)
    requires d < 10
    ensures IsDigit(Digit(d)) && (Digit(d) - '0') as nat == d
  {
  }

  lemma {:induction false} DecimalValue(n: nat)
    ensures Decimal(n) != "" && AllDigits(Decimal(n))
    ensures Value(Decimal(n)) == n
  {
    if n < 10 {
      DigitIsDigit(n);
      assert Decimal(n)[..0] == "";
    } else {
      DecimalValue(n / 10);
      DigitIsDigit(n % 10);
      assert Decimal(n)[..|Decimal(n)| - 1] == Decimal(n / 10);
    }
  }

  lemma {:induction false} DecimalLength(n: nat, k: nat)
    requires 0 < k && n < Pow10(k)
    ensures |Decimal(n)| <= k
  {
    if n >= 10 {
      DecimalLength(n / 10, k - 1);
    }
  }

  lemma {:induction false} ValueOfLeadingZero(s: string)
    requires AllDigits(s)
    ensures AllDigits("0" + s) && Value("0" + s) == Value(s)
  {
    var z := "0" + s;
    if s == "" {
      assert z[..0] == "";
    } else {
      ValueOfLeadingZero(s[..|s| - 1]);
      assert z[..|z| - 1] == "0" + s[..|s| - 1];
    }
  }

  lemma {:induction false} PadStartValue(s: string, width: nat)
    requires AllDigits(s)
    ensures AllDigits(PadStart(s, width))
    ensures Value(PadStart(s, width)) == Value(s)
    ensures |PadStart(s, width)| == if |s| >= width then |s| else width
    decreases width - |s|
  {
    if |s| < width {
      ValueOfLeadingZero(s);
      PadStartValue("0" + s, width);
    }
  }

  lemma {:induction false} ValueBound(s: string)
    requires AllDigits(s)
    ensures Value(s) < Pow10(|s|)
  {
    if s != "" {
      ValueBound(s[..|s| - 1]);
    }
  }

  lemma {:induction false} ValueInjective(s: string, t: string)
    requires |s| == |t|
    requires AllDigits(s) && AllDigits(t)
    requires Value(s) == Value(t)
    ensures s == t
  {
    if s != "" {
      var k := |s| - 1;
      assert (s[k] - '0') as nat < 10 && (t[k] - '0') as nat < 10;
      ValueInjective(s[..k], t[..k]);
      assert s == s[..k] + [s[k]] && t == t[..k] + [t[k]];
    }
  }

  /** Every number below a million is sent as a six-digit string, and can be read back. */
  lemma FormatRoundTrip(n: nat)
    requires n < 1000000
    ensures IsCode(Format(n)) && Value(Format(n)) == n
  {
    DecimalValue(n);
    SixPowers();
    DecimalLength(n, 6);
    PadStartValue(Decimal(n), 6);
  }

  /** Every six-digit string is the code of exactly one number below a million. */
  lemma FormatSurjective(s: string)
    requires IsCode(s)
    ensures Value(s) < 1000000 && Format(Value(s)) == s
    ensures forall n: nat :: n < 1000000 && Format(n) == s ==> n == Value(s)
  {
    ValueBound(s);
    SixPowers();
    FormatRoundTrip(Value(s));
    ValueInjective(Format(Value(s)), s);
    forall n: nat | n < 1000000 && Format(n) == s ensures n == Value(s) {
      FormatRoundTrip(n);
    }
  }

  lemma SixPowers()
    ensures Pow10(6) == 1000000
  {
    assert Pow10(3) == 1000;
    assert Pow10(6) == 1000 * Pow10(3);
  }
}
