/**
 * The strconv encodings the optional parameters use: strconv.Itoa for integers
 * and strconv.FormatBool for booleans, each with the parser that reads it back:
 * a decimal parser that accepts exactly Itoa's texts, and strconv.ParseBool.
 */
module Format {
  import opened Outcomes

  predicate IsDigit(c: char)
  {
    '0' <= c <= '9'
  }

  function DigitChar(d: nat): (c: char)
    requires d < 10
    ensures IsDigit(c)
  {
    "0123456789"[d]
  }

  function DigitValue(c: char): nat
    requires IsDigit(c)
  {
    (c as int - '0' as int) as nat
  }

  /** The decimal digits of n, most significant first, with no leading zero. */
  function Digits(n: nat): (s: string)
    ensures Canonical(s)
    ensures s[0] == '0' ==> n == 0
  {
    if n < 10 then [DigitChar(n)] else Digits(n / 10) + [DigitChar(n % 10)]
  }

  /** strconv.Itoa: optional minus sign, then the decimal digits of the magnitude. */
  function Itoa(n: int): (s: string)
    ensures |s| >= 1
    ensures (s[0] == '-') <==> n < 0
  {
    if n < 0 then "-" + Digits(-n) else Digits(n)
  }

  /** A run of one or more decimal digits with no leading zero ("0" itself is allowed). */
  predicate Canonical(s: string)
  {
    |s| >= 1 && (forall i :: 0 <= i < |s| ==> IsDigit(s[i])) && (s[0] == '0' ==> |s| == 1)
  }

  /** The value of a run of decimal digits (0 for the empty run). */
  function DigitsValue(s: string): nat
    requires forall i :: 0 <= i < |s| ==> IsDigit(s[i])
  {
    if s == [] then 0 else DigitsValue(s[..|s| - 1]) * 10 + DigitValue(s[|s| - 1])
  }

  /**
   * Reads a decimal integer written the way Itoa writes it: an optional minus
   * sign, then digits with no leading zero; "-0" is refused.
   */
  function ParseDecimal(s: string): Option<int>
  {
    if |s| >= 2 && s[0] == '-' && Canonical(s[1..]) && s[1..] != "0" then
      var magnitude: int := DigitsValue(s[1..]);
      Some(-magnitude)
    else if Canonical(s) then
      Some(DigitsValue(s))
    else
      None
  }

  lemma {:induction false} DigitsRoundTrip(n: nat)
    ensures DigitsValue(Digits(n)) == n
  {
    if n >= 10 {
      DigitsRoundTrip(n / 10);
      var s := Digits(n);
      assert s[..|s| - 1] == Digits(n / 10);
    }
  }

  /** Itoa's output reads back as the integer it came from. */
  lemma ItoaRoundTrip(n: int)
    ensures ParseDecimal(Itoa(n)) == Some(n)
  {
    if n < 0 {
      var m: nat := -n;
      var digits := Digits(m);
      DigitsRoundTrip(m);
      ParseNegative(digits);
      assert Itoa(n) == "-" + digits;
    } else {
      DigitsRoundTrip(n);
      ParseNonNegative(Digits(n));
    }
  }

  lemma ParseNegative(digits: string)
    requires Canonical(digits) && DigitsValue(digits) != 0
    ensures ParseDecimal("-" + digits) == Some(-(DigitsValue(digits) as int))
  {
    var s := "-" + digits;
    assert s[1..] == digits;
  }

  lemma ParseNonNegative(digits: string)
    requires Canonical(digits)
    ensures ParseDecimal(digits) == Some(DigitsValue(digits))
  {
    assert IsDigit(digits[0]);
  }

  /** A digit run without a leading zero has a value of at least 1 unless it is "0". */
  lemma {:induction false} DigitsValuePositive(s: string)
    requires Canonical(s) && s != "0"
    ensures DigitsValue(s) >= 1
  {
    if |s| > 1 {
      var init := s[..|s| - 1];
      assert init[0] == s[0];
      assert init != "0" by { assert s[0] != '0'; }
      DigitsValuePositive(init);
    } else {
      assert s[0] != '0';
    }
  }

  /** A canonical digit run is exactly the Digits of its value. */
  lemma {:induction false} DigitsOfValue(s: string)
    requires Canonical(s)
    ensures Digits(DigitsValue(s)) == s
  {
    if |s| > 1 {
      var init := s[..|s| - 1];
      assert init[0] == s[0];
      assert init != "0" by { assert s[0] != '0'; }
      DigitsValuePositive(init);
      DigitsOfValue(init);
      var n := DigitsValue(s);
      var d := DigitValue(s[|s| - 1]);
      assert n / 10 == DigitsValue(init) && n % 10 == d;
      assert DigitChar(d) == s[|s| - 1];
      assert s == init + [s[|s| - 1]];
    } else {
      assert DigitChar(DigitValue(s[0])) == s[0];
    }
  }

  /** Every text ParseDecimal accepts is the Itoa text of the value it reads. */
  lemma ParseDecimalInverse(s: string, n: int)
    requires ParseDecimal(s) == Some(n)
    ensures Itoa(n) == s
  {
    if |s| >= 2 && s[0] == '-' && Canonical(s[1..]) && s[1..] != "0" {
      DigitsValuePositive(s[1..]);
      DigitsOfValue(s[1..]);
      assert s == "-" + s[1..];
    } else {
      DigitsOfValue(s);
    }
  }

  /** Two different integers are never sent as the same text. */
  lemma ItoaInjective(a: int, b: int)
    requires Itoa(a) == Itoa(b)
    ensures a == b
  {
    ItoaRoundTrip(a);
    ItoaRoundTrip(b);
  }

  /**
   * strconv.ParseBool: "1", "t", "T", "TRUE", "true" and "True" read as true;
   * "0", "f", "F", "FALSE", "false" and "False" read as false; anything else is an error.
   */
  function ParseBool(s: string): Option<bool>
  {
    if s in {"1", "t", "T", "TRUE", "true", "True"} then Some(true)
    else if s in {"0", "f", "F", "FALSE", "false", "False"} then Some(false)
    else None
  }

  /** strconv.FormatBool: lower-case "true" or "false", which ParseBool reads back. */
  function FormatBool(b: bool): (s: string)
    ensures s == "true" || s == "false"
    ensures ParseBool(s) == Some(b)
  {
    if b then "true" else "false"
  }
}
