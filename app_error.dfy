/**
 * The operational error raised by the request handlers: a message, an
 * HTTP status code, a status text derived from the code, and a flag saying
 * the error was raised on purpose (utils/appError.js).
 *
 * The status text is "fail" exactly when the decimal rendering of the code
 * starts with the digit 4, and "error" otherwise. The lemmas below prove
 * that this string test is the same as the numeric statement "the code lies
 * in [4 * 10^k, 5 * 10^k) for some k", and hence, for three-digit HTTP
 * codes, the same as "the code is a 4xx code".
 */
module AppErrors {

  datatype AppError = AppError(message: string, statusCode: int, status: string, isOperational: bool)

  function Pow10(k: nat): (p: nat)
    ensures p >= 1
  {
    if k == 0 then 1 else 10 * Pow10(k - 1)
  }

  function DigitChar(d: nat): char
    requires d < 10
  {
    "0123456789"[d]
  }

  /** The decimal digits of `n`, most significant first, without leading zeros. */
  function Digits(n: nat): (s: string)
    ensures |s| >= 1
  {
    if n < 10 then [DigitChar(n)] else Digits(n / 10) + [DigitChar(n % 10)]
  }

  /** The string a template literal `${n}` gives for an integer `n`. */
  function Decimal(n: int): string {
    if n < 0 then "-" + Digits(-n) else Digits(n)
  }

  predicate StartsWithFour(s: string) {
    |s| > 0 && s[0] == '4'
  }

  /** The status text of an error with code `statusCode` (utils/appError.js:10). */
  function StatusOf(statusCode: int): string {
    if StartsWithFour(Decimal(statusCode)) then "fail" else "error"
  }

  /** Numeric reference definition: the most significant decimal digit of `n` is 4. */
  ghost predicate LeadingFour(n: int) {
    exists k: nat :: 4 * Pow10(k) <= n < 5 * Pow10(k)
  }

  /** Creates an AppError (utils/appError.js:4-13). */
  function NewAppError(message: string, statusCode: int): (e: AppError)
    ensures e.message == message && e.statusCode == statusCode
    ensures e.isOperational
    ensures e.status == "fail" <==> LeadingFour(statusCode)
    ensures e.status != "fail" ==> e.status == "error"
  {
    StatusOfIsLeadingFour(statusCode);
    AppError(message, statusCode, StatusOf(statusCode), true)
  }

  /** The most significant digit of `n`, computed arithmetically. */
  function LeadingDigit(n: nat): (d: nat)
    ensures d < 10
    ensures n >= 1 ==> d >= 1
  {
    if n < 10 then n else LeadingDigit(n / 10)
  }

  lemma {:induction false} Pow10Monotone(i: nat, j: nat)
    requires i <= j
    ensures Pow10(i) <= Pow10(j)
  {
    if i < j {
      Pow10Monotone(i, j - 1);
    }
  }

  /** The first character of the rendering is the leading digit. */
  lemma {:induction false} DigitsHead(n: nat)
    ensures Digits(n)[0] == DigitChar(LeadingDigit(n))
  {
    if n >= 10 {
      DigitsHead(n / 10);
    }
  }

  /** `n` lies between d * 10^(L-1) and (d+1) * 10^(L-1), L the number of digits. */
  lemma {:induction false} DigitsMagnitude(n: nat)
    ensures LeadingDigit(n) * Pow10(|Digits(n)| - 1) <= n
    ensures n < (LeadingDigit(n) + 1) * Pow10(|Digits(n)| - 1)
  {
    if n >= 10 {
      var m := n / 10;
      DigitsMagnitude(m);
      assert |Digits(n)| - 1 == |Digits(m)|;
      ScaleByTen(LeadingDigit(m), Pow10(|Digits(m)| - 1), m, n);
    }
  }

  lemma ScaleByTen(d: nat, p: nat, m: nat, n: nat)
    requires d * p <= m < (d + 1) * p
    requires 10 * m <= n < 10 * m + 10
    ensures d * (10 * p) <= n < (d + 1) * (10 * p)
  {
  }

  lemma DigitCharFour(d: nat)
    requires d < 10
    ensures DigitChar(d) == '4' <==> d == 4
  {
  }

  lemma MulMonotone(a: nat, b: nat, p: nat)
    requires a <= b
    ensures a * p <= b * p
  {
  }

  /** Two decimal magnitudes that bracket the same number have the same exponent. */
  lemma SameExponent(n: nat, d: nat, j: nat, c: nat, k: nat)
    requires 1 <= d <= 9 && 1 <= c <= 9
    requires d * Pow10(j) <= n < (d + 1) * Pow10(j)
    requires c * Pow10(k) <= n < (c + 1) * Pow10(k)
    ensures j == k
  {
    // The smaller magnitude m gives n < (a + 1) * 10^m <= 10^(m + 1) <= 10^M <= b * 10^M <= n.
    if j < k {
      Pow10Monotone(j + 1, k);
      MulMonotone(d + 1, 10, Pow10(j));
      MulMonotone(1, c, Pow10(k));
    } else if k < j {
      Pow10Monotone(k + 1, j);
      MulMonotone(c + 1, 10, Pow10(k));
      MulMonotone(1, d, Pow10(j));
    }
  }

  /** Within one decimal magnitude the leading digit is determined. */
  lemma SameDigit(n: nat, d: nat, c: nat, p: nat)
    requires d * p <= n < (d + 1) * p
    requires c * p <= n < (c + 1) * p
    ensures d == c
  {
  }

  /** A non-negative `n` has leading digit 4 exactly when it lies in some [4 * 10^k, 5 * 10^k). */
  lemma LeadingDigitFour(n: nat)
    ensures LeadingDigit(n) == 4 <==> LeadingFour(n)
  {
    var d, j := LeadingDigit(n), |Digits(n)| - 1;
    DigitsMagnitude(n);
    if d == 4 {
      assert 4 * Pow10(j) <= n < 5 * Pow10(j);
    }
    if LeadingFour(n) {
      var k: nat :| 4 * Pow10(k) <= n < 5 * Pow10(k);
      SameExponent(n, d, j, 4, k);
      SameDigit(n, d, 4, Pow10(j));
    }
  }

  /** The string test of utils/appError.js:10 agrees with the numeric one. */
  lemma StatusOfIsLeadingFour(statusCode: int)
    ensures StatusOf(statusCode) == "fail" <==> LeadingFour(statusCode)
  {
    if statusCode < 0 {
      assert Decimal(statusCode)[0] == '-';
    } else {
      DigitsHead(statusCode);
      DigitCharFour(LeadingDigit(statusCode));
      LeadingDigitFour(statusCode);
    }
  }

  /** For a three-digit HTTP code, "fail" means a 4xx code and "error" anything else. */
  lemma HttpStatusClass(message: string, statusCode: int)
    requires 100 <= statusCode <= 999
    ensures NewAppError(message, statusCode).status == "fail" <==> 400 <= statusCode <= 499
    ensures NewAppError(message, statusCode).status == "error" <==> !(400 <= statusCode <= 499)
  {
    assert Pow10(2) == 100;
    if 400 <= statusCode <= 499 {
      assert 4 * Pow10(2) <= statusCode < 5 * Pow10(2);
    }
    if LeadingFour(statusCode) {
      var k: nat :| 4 * Pow10(k) <= statusCode < 5 * Pow10(k);
      if k <= 1 {
        Pow10Monotone(k, 1);
      } else if k >= 3 {
        Pow10Monotone(3, k);
      }
      assert k == 2;
    }
  }
}
