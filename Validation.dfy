/**
 * The request-validation rules the authentication controller applies before it
 * touches any state, written as predicates over the submitted strings.
 *
 * Every field is a string; a field the client left out arrives as the empty
 * string. The email-format rule belongs to the framework and is kept
 * uninterpreted: it is a parameter (`isEmail`) of the modules that use it.
 */
module Validation {

  /** The characters PHP's trim() removes by default. */
  predicate IsTrimmed(c: char) {
    c == ' ' || c == '\t' || c == '\n' || c == '\r' || c == '\0' || c == '\U{B}'
  }

  /** The `required` rule: the value does not trim down to the empty string. */
  predicate Required(s: string) {
    exists i :: 0 <= i < |s| && !IsTrimmed(s[i])
  }

  predicate IsDigit(c: char) {
    '0' <= c <= '9'
  }

  predicate AllDigits(s: string) {
    forall i :: 0 <= i < |s| ==> IsDigit(s[i])
  }

  /** The `digits:n` rule: no character outside 0-9, and exactly n of them. */
  predicate Digits(s: string, n: nat) {
    AllDigits(s) && |s| == n
  }

  /**
   * The decimal forms accepted by the `numeric` rule: an optional sign, then
   * digits with at most one decimal point, at least one digit in all.
   */
  predicate Numeric(s: string) {
    var body := if |s| > 0 && (s[0] == '+' || s[0] == '-') then s[1..] else s;
    (|body| > 0 && AllDigits(body))
    || (exists k :: 0 <= k < |body| && body[k] == '.' && |body| > 1
                    && AllDigits(body[..k]) && AllDigits(body[k + 1..]))
  }

  /** The `starts_with:p` rule. */
  predicate StartsWith(s: string, p: string) {
    p <= s
  }

  /** The `min:n` rule on a string: at least n characters. */
  predicate MinLength(s: string, n: nat) {
    |s| >= n
  }

  /** The `max:n` rule on a string: at most n characters. */
  predicate MaxLength(s: string, n: nat) {
    |s| <= n
  }

  /** The body of the phone pattern `^01[0-9]{9}$`, anchored at both ends. */
  predicate PhoneBody(s: string) {
    |s| == 11 && s[0] == '0' && s[1] == '1' && AllDigits(s[2..])
  }

  /**
   * `regex:/^01[0-9]{9}$/` under PCRE, where `$` also matches just before a
   * final newline: the body alone, or the body followed by one "\n".
   */
  predicate PhonePattern(s: string) {
    PhoneBody(s) || (|s| == 12 && s[11] == '\n' && PhoneBody(s[..11]))
  }

  /**
   * The registration phone rule without its uniqueness part:
   * `required|numeric|digits:11|starts_with:01|regex:/^01[0-9]{9}$/`.
   */
  predicate PhoneRule(s: string) {
    Required(s) && Numeric(s) && Digits(s, 11) && StartsWith(s, "01") && PhonePattern(s)
  }

  /** The OTP input rule `required|numeric|digits:4`. */
  predicate OtpInputRule(s: string) {
    Required(s) && Numeric(s) && Digits(s, 4)
  }

  /** The phone rule accepts exactly the 11-character digit strings that begin with "01". */
  lemma PhoneRuleExact(s: string)
    ensures PhoneRule(s) <==> (|s| == 11 && AllDigits(s) && s[..2] == "01")
  {
    if |s| == 11 && AllDigits(s) && s[..2] == "01" {
      assert !IsTrimmed(s[0]);
      assert s[0] == '0' && s[1] == '1';
      assert PhoneBody(s);
    }
  }

  /**
   * Where the value does not end in a newline, the pattern alone already
   * implies the `digits:11` and `starts_with:01` checks.
   */
  lemma PatternImpliesDigitsAndPrefix(s: string)
    requires PhonePattern(s)
    requires |s| == 0 || s[|s| - 1] != '\n'
    ensures Digits(s, 11) && StartsWith(s, "01")
  {
  }

  /**
   * With a trailing newline the pattern matches but `digits:11` does not, so
   * that check is not redundant under PCRE's `$`.
   */
  lemma PatternAdmitsTrailingNewline()
    ensures PhonePattern("01712345678\n") && !Digits("01712345678\n", 11)
  {
    var s := "01712345678\n";
    assert s[..11] == "01712345678";
    assert PhoneBody(s[..11]);
  }

  /** The OTP input rule only admits strings of length four. */
  lemma OtpInputIsFourLong(s: string)
    requires OtpInputRule(s)
    ensures |s| == 4 && s != "0"
  {
  }

  /** The character for a digit value. */
  function DigitChar(d: int): (c: char)
    requires 0 <= d < 10
    ensures IsDigit(c)
  {
    (d + '0' as int) as char
  }

  /** The value of a digit character. */
  function DigitValue(c: char): (d: nat)
    requires IsDigit(c)
    ensures d < 10 && DigitChar(d) == c
  {
    c as int - '0' as int
  }

  /** The decimal rendering of a natural number, as PHP converts an int to a string. */
  function Decimal(n: nat): string
    decreases n
  {
    if n < 10 then [DigitChar(n)] else Decimal(n / 10) + [DigitChar(n % 10)]
  }

  /** The value of a string of decimal digits (0 for the empty string). */
  function DecimalValue(s: string): nat
    requires AllDigits(s)
    decreases |s|
  {
    if s == [] then 0
    else
      assert AllDigits(s[..|s| - 1]);
      DecimalValue(s[..|s| - 1]) * 10 + DigitValue(s[|s| - 1])
  }

  /** Reading back the decimal rendering of n gives n: the rendering is injective. */
  lemma {:induction false} DecimalRoundTrip(n: nat)
    ensures AllDigits(Decimal(n)) && |Decimal(n)| > 0
    ensures DecimalValue(Decimal(n)) == n
    decreases n
  {
    if n >= 10 {
      DecimalRoundTrip(n / 10);
      var s := Decimal(n);
      assert s == Decimal(n / 10) + [DigitChar(n % 10)];
      assert s[..|s| - 1] == Decimal(n / 10);
    }
  }

  /** A number in 1000..9999 renders as four digits, the first of them not '0'. */
  lemma {:induction false} DecimalOfFourDigitCode(n: nat)
    requires 1000 <= n <= 9999
    ensures Digits(Decimal(n), 4) && Decimal(n)[0] != '0'
    ensures OtpInputRule(Decimal(n))
  {
    DecimalRoundTrip(n);
    var s := Decimal(n);
    assert Decimal(n / 1000) == [DigitChar(n / 1000)];
    assert Decimal(n / 100) == Decimal(n / 1000) + [DigitChar(n / 100 % 10)];
    assert Decimal(n / 10) == Decimal(n / 100) + [DigitChar(n / 10 % 10)];
    assert s == Decimal(n / 10) + [DigitChar(n % 10)];
    assert |s| == 4;
    assert s[0] == DigitChar(n / 1000) && s[0] != '0';
    assert !IsTrimmed(s[0]);
  }
}
