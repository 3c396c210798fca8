/** The code string attached to a rejected interactive sign-in: the provider error's
    integer code written in decimal, as Swift's string interpolation `"\(code)"` does. */
module ErrorCodes {
  import opened Values

  predicate IsDigit(c: char) {
    '0' <= c <= '9'
  }

  predicate AllDigits(s: string) {
    forall i :: 0 <= i < |s| ==> IsDigit(s[i])
  }

  function DigitChar(d: nat): (c: char)
    requires d < 10
    ensures IsDigit(c)
    ensures c as int - '0' as int == d
  {
    ('0' as int + d) as char
  }

  /** A decimal numeral as Swift writes one: digits, with no leading zero unless the
      numeral is `0` itself. */
  predicate CanonicalDigits(s: string) {
    |s| > 0 && AllDigits(s) && (|s| > 1 ==> s[0] != '0')
  }

  /** A code string as Swift writes an `Int`: a canonical numeral, or a minus sign
      followed by a canonical numeral other than `0`. */
  predicate CanonicalCode(s: string) {
    CanonicalDigits(s) || (|s| > 1 && s[0] == '-' && CanonicalDigits(s[1..]) && s[1] != '0')
  }

  /** Decimal digits of a natural number, most significant first, no leading zeros. */
  function Digits(n: nat): (s: string)
    ensures CanonicalDigits(s)
    ensures s[0] == '0' <==> n == 0
    decreases n
  {
    if n < 10 then [DigitChar(n)] else Digits(n / 10) + [DigitChar(n % 10)]
  }

  /** The number a non-empty run of decimal digits denotes. */
  function DigitsValue(s: string): nat
    requires AllDigits(s)
    decreases |s|
  {
    if s == [] then 0
    else DigitsValue(s[..|s| - 1]) * 10 + (s[|s| - 1] as int - '0' as int)
  }

  /** `"\(code)"`: an optional minus sign followed by the digits of the magnitude. */
  function CodeString(code: int): (s: string)
    ensures CanonicalCode(s)
    ensures s[0] == '-' <==> code < 0
  {
    if code < 0 then "-" + Digits(-code) else Digits(code)
  }

  /** Reads a code string back; `None` for anything that is not one. */
  function ParseCode(s: string): Option<int> {
    if |s| > 1 && s[0] == '-' && AllDigits(s[1..]) then Some(-(DigitsValue(s[1..]) as int))
    else if |s| > 0 && AllDigits(s) then Some(DigitsValue(s))
    else None
  }

  lemma {:induction false} DigitsRoundTrip(n: nat)
    ensures DigitsValue(Digits(n)) == n
    decreases n
  {
    if n >= 10 {
      var s := Digits(n);
      assert s[..|s| - 1] == Digits(n / 10);
      DigitsRoundTrip(n / 10);
    }
  }

  /** The code string carries the provider's code without loss. */
  lemma CodeStringRoundTrip(code: int)
    ensures ParseCode(CodeString(code)) == Some(code)
  {
    if code < 0 {
      var s := CodeString(code);
      assert s[1..] == Digits(-code);
      DigitsRoundTrip(-code);
    } else {
      DigitsRoundTrip(code);
    }
  }

  /** A run of digits with a non-zero first digit denotes a positive number. */
  lemma {:induction false} LeadingDigitPositive(s: string)
    requires |s| > 0 && AllDigits(s) && s[0] != '0'
    ensures DigitsValue(s) > 0
    decreases |s|
  {
    if |s| > 1 {
      LeadingDigitPositive(s[..|s| - 1]);
    }
  }

  /** A canonical numeral is the only one that denotes its value. */
  lemma {:induction false} DigitsUnique(s: string)
    requires CanonicalDigits(s)
    ensures s == Digits(DigitsValue(s))
    decreases |s|
  {
    var n := DigitsValue(s);
    var last := s[|s| - 1];
    if |s| > 1 {
      var t := s[..|s| - 1];
      LeadingDigitPositive(t);
      DigitsUnique(t);
      assert n / 10 == DigitsValue(t) && n % 10 == last as int - '0' as int;
      assert DigitChar(n % 10) == last;
      assert s == t + [last];
    } else {
      assert s[..|s| - 1] == [] && IsDigit(last);
      assert DigitsValue(s[..|s| - 1]) == 0;
      assert DigitChar(n) == last;
    }
  }

  /** `CodeString` is the only canonical text for a code: any canonical string that
      reads as `code` is exactly the text `"\(code)"` produces. */
  lemma CodeStringCanonical(s: string, code: int)
    requires CanonicalCode(s) && ParseCode(s) == Some(code)
    ensures s == CodeString(code)
  {
    if s[0] == '-' {
      var t := s[1..];
      LeadingDigitPositive(t);
      DigitsUnique(t);
      assert s == "-" + t;
    } else {
      DigitsUnique(s);
    }
  }

  /** Different provider codes give different code strings. */
  lemma CodeStringInjective(a: int, b: int)
    ensures CodeString(a) == CodeString(b) ==> a == b
  {
    CodeStringRoundTrip(a);
    CodeStringRoundTrip(b);
  }
}
