/** `ApiError`: an Error subclass carrying an HTTP status code and a
    status word derived from the code's decimal text: "fail" when that text
    starts with "4", "error" otherwise. */
module ApiErrors {
  import opened Common

  function DigitChar(d: nat): (c: char)
    requires d < 10
    ensures '0' <= c <= '9'
  {
    "0123456789"[d]
  }

  function DigitValue(c: char): (d: nat)
    requires '0' <= c <= '9'
    ensures d < 10 && DigitChar(d) == c
  {
    c as int - '0' as int
  }

  /** Decimal digits of a natural number, most significant first. */
  function Digits(n: nat): (s: string)
    ensures |s| >= 1
    ensures forall i :: 0 <= i < |s| ==> '0' <= s[i] <= '9'
    decreases n
  {
    if n < 10 then [DigitChar(n)] else Digits(n / 10) + [DigitChar(n % 10)]
  }

  /** The text of `${n}` for an integer `n` with |n| < 10^21; from 10^21 on
      JavaScript writes a number in exponent form, which is not modelled. */
  function DecimalText(n: int): (s: string)
    ensures |s| >= 1
  {
    if n < 0 then "-" + Digits(-n) else Digits(n)
  }

  /** Reads a string of decimal digits back as a number. */
  function ParseDigits(s: string): (n: nat)
    requires forall i :: 0 <= i < |s| ==> '0' <= s[i] <= '9'
    decreases |s|
  {
    if s == [] then 0 else ParseDigits(s[..|s| - 1]) * 10 + DigitValue(s[|s| - 1])
  }

  /** Reads the text produced by `DecimalText` back as an integer. */
  function ParseDecimal(s: string): (n: int)
    requires |s| >= 1
    requires s[0] == '-' ==> forall i :: 1 <= i < |s| ==> '0' <= s[i] <= '9'
    requires s[0] != '-' ==> forall i :: 0 <= i < |s| ==> '0' <= s[i] <= '9'
  {
    if s[0] == '-' then 0 - ParseDigits(s[1..]) else ParseDigits(s)
  }

  lemma {:induction false} ParseDigitsOfDigits(n: nat)
    ensures ParseDigits(Digits(n)) == n
    decreases n
  {
    if n >= 10 {
      var s := Digits(n);
      assert s[..|s| - 1] == Digits(n / 10);
      ParseDigitsOfDigits(n / 10);
    }
  }

  /** The decimal text of a code determines the code: reading it back gives
      the same integer. */
  lemma DecimalTextRoundTrip(n: int)
    ensures var s := DecimalText(n);
            (s[0] == '-' <==> n < 0) &&
            (forall i :: 0 <= i < |s| && s[0] == '-' && 1 <= i ==> '0' <= s[i] <= '9') &&
            (forall i :: 0 <= i < |s| && s[0] != '-' ==> '0' <= s[i] <= '9') &&
            ParseDecimal(s) == n
  {
    var s := DecimalText(n);
    if n < 0 {
      assert s[1..] == Digits(-n);
      ParseDigitsOfDigits(-n);
    } else {
      assert '0' <= s[0] <= '9';
      ParseDigitsOfDigits(n);
    }
  }

  /** The most significant decimal digit of a natural number. */
  function LeadingDigit(n: nat): (d: nat)
    ensures d < 10
    ensures n > 0 ==> d > 0
    decreases n
  {
    if n < 10 then n else LeadingDigit(n / 10)
  }

  lemma {:induction false} DigitsStartWithLeadingDigit(n: nat)
    ensures Digits(n)[0] == DigitChar(LeadingDigit(n))
    decreases n
  {
    if n >= 10 {
      DigitsStartWithLeadingDigit(n / 10);
    }
  }

  /** Every three-digit number leads with its hundreds digit. */
  lemma LeadingDigitOfThreeDigits(n: nat)
    requires 100 <= n < 1000
    ensures LeadingDigit(n) == n / 100
  {
    assert 10 <= n / 10 < 100 && n / 10 / 10 == n / 100;
    assert LeadingDigit(n) == LeadingDigit(n / 10) == LeadingDigit(n / 100);
  }

  function Pow10(k: nat): (p: nat)
    ensures p >= 1
  {
    if k == 0 then 1 else 10 * Pow10(k - 1)
  }

  /** A number from d·10^k up to (but excluding) (d+1)·10^k leads with d. */
  lemma {:induction false} LeadingDigitInRange(n: nat, d: nat, k: nat)
    requires 1 <= d <= 9
    requires d * Pow10(k) <= n < (d + 1) * Pow10(k)
    ensures LeadingDigit(n) == d
    decreases k
  {
    if k > 0 {
      var p := Pow10(k - 1);
      assert Pow10(k) == 10 * p;
      assert d * Pow10(k) == 10 * (d * p);
      assert (d + 1) * Pow10(k) == 10 * ((d + 1) * p);
      assert n >= 10 by {
        assert d * p >= 1;
      }
      assert d * p <= n / 10 < (d + 1) * p;
      LeadingDigitInRange(n / 10, d, k - 1);
    }
  }

  /** Every positive number lies in the range of its own leading digit. */
  lemma {:induction false} LeadingDigitRange(n: nat) returns (k: nat)
    requires n > 0
    ensures LeadingDigit(n) * Pow10(k) <= n < (LeadingDigit(n) + 1) * Pow10(k)
    decreases n
  {
    if n < 10 {
      k := 0;
    } else {
      var q := n / 10;
      var j := LeadingDigitRange(q);
      var d := LeadingDigit(n);
      assert d == LeadingDigit(q);
      k := j + 1;
      var p := Pow10(j);
      var lo, hi := d * p, (d + 1) * p;
      assert lo <= q < hi;
      assert n == 10 * q + n % 10;
      assert 10 * lo <= n < 10 * hi;
      ScaleByTen(d, p);
      ScaleByTen(d + 1, p);
    }
  }

  lemma ScaleByTen(d: nat, p: nat)
    ensures d * (10 * p) == 10 * (d * p)
  {
  }

  /** An ApiError is a "fail" exactly for the codes from 4·10^k up to
      5·10^k for some k: every 4xx code, but also 4, 40-49 or 4000-4999. */
  lemma FailCodes(statusCode: int, message: string)
    ensures NewApiError(statusCode, message).status == Some("fail")
            <==> exists k: nat :: 4 * Pow10(k) <= statusCode < 5 * Pow10(k)
  {
    if NewApiError(statusCode, message).status == Some("fail") {
      var k := LeadingDigitRange(statusCode);
      assert 4 * Pow10(k) <= statusCode < 5 * Pow10(k);
    }
    if exists k: nat :: 4 * Pow10(k) <= statusCode < 5 * Pow10(k) {
      var k: nat :| 4 * Pow10(k) <= statusCode < 5 * Pow10(k);
      LeadingDigitInRange(statusCode, 4, k);
    }
  }

  /** The status word of `new ApiError(statusCode, message)`. */
  function StatusFor(statusCode: int): (status: string)
    ensures status == "fail" <==> statusCode >= 0 && LeadingDigit(statusCode) == 4
    ensures status == "fail" || status == "error"
  {
    DigitsStartWithLeadingDigit(if statusCode < 0 then 0 else statusCode);
    if StartsWith(DecimalText(statusCode), "4") then "fail" else "error"
  }

  /** `new ApiError(statusCode, message)`: code and message kept as passed,
      status "fail" exactly when the code's decimal text starts with "4". */
  function NewApiError(statusCode: int, message: string): (e: ErrorValue)
    ensures e.statusCode == Some(statusCode) && e.message == message
    ensures e.status == Some("fail") <==> statusCode >= 0 && LeadingDigit(statusCode) == 4
    ensures e.status == Some("fail") || e.status == Some("error")
    ensures e.errors == []
  {
    ErrorValue(Some(statusCode), Some(StatusFor(statusCode)), message, [])
  }

  /** Client errors (4xx) carry "fail". */
  lemma ClientErrorsFail(statusCode: int, message: string)
    requires 400 <= statusCode < 500
    ensures NewApiError(statusCode, message).status == Some("fail")
  {
    LeadingDigitOfThreeDigits(statusCode);
  }

  /** Every other three-digit code (1xx, 2xx, 3xx, 5xx) carries "error". */
  lemma OtherCodesError(statusCode: int, message: string)
    requires 100 <= statusCode < 1000
    requires !(400 <= statusCode < 500)
    ensures NewApiError(statusCode, message).status == Some("error")
  {
    LeadingDigitOfThreeDigits(statusCode);
  }
}
