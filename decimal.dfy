/** Decimal numerals as the scripts use them: Python's str() of an int, a
    simplified int() parser, and the zero-filled format `{i:03}`. */
module Decimal {
  import opened Wrappers

  predicate IsDigit(c: char) { '0' <= c <= '9' }

  predicate AllDigits(s: string) { forall k :: 0 <= k < |s| ==> IsDigit(s[k]) }

  function DigitChar(d: nat): (c: char)
    requires d < 10
    ensures IsDigit(c) && DigitValue(c) == d
  {
    (('0' as int) + d) as char
  }

  function DigitValue(c: char): nat
    requires IsDigit(c)
  {
    c as int - '0' as int
  }

  /** `k` copies of the character '0'. */
  function Zeros(k: nat): (s: string)
    ensures |s| == k && forall j :: 0 <= j < k ==> s[j] == '0'
  {
    seq(k, _ => '0')
  }

  function Pow10(k: nat): (p: nat)
    ensures p >= 1
  {
    if k == 0 then 1 else 10 * Pow10(k - 1)
  }

  /** The numeral of `n` without leading zeros, as str(n) writes it for n >= 0. */
  function Digits(n: nat): (s: string)
    ensures |s| >= 1 && AllDigits(s)
    ensures s[0] == '0' <==> n == 0
    decreases n
  {
    if n < 10 then [DigitChar(n)] else Digits(n / 10) + [DigitChar(n % 10)]
  }

  /** The value of a string of decimal digits, most significant first;
      leading zeros are allowed, as int() allows them. */
  function Value(s: string): nat
    requires AllDigits(s)
  {
    if s == [] then 0 else Value(s[..|s| - 1]) * 10 + DigitValue(s[|s| - 1])
  }

  /** Python's str() of an int. */
  function Show(i: int): string
  {
    if i >= 0 then Digits(i) else "-" + Digits(-i)
  }

  /** Python's int() of a string, simplified: an optional '+' or '-' sign
      followed by one or more ASCII digits; anything else is a ValueError,
      modelled as None. */
  function ParseInt(s: string): Option<int>
  {
    if |s| > 0 && (s[0] == '-' || s[0] == '+') then
      if |s| > 1 && AllDigits(s[1..]) then
        var v: int := Value(s[1..]);
        Some(if s[0] == '-' then -v else v)
      else None
    else if |s| > 0 && AllDigits(s) then Some(Value(s))
    else None
  }

  /** `s` padded on the left with '0' to at least `width` characters, never cut. */
  function ZeroFill(s: string, width: nat): string
  {
    if |s| < width then Zeros(width - |s|) + s else s
  }

  /** Python's `f"{i:03}"`: the zero fill goes between the sign and the
      digits, and the whole field is at least three characters wide. */
  function Pad3(i: int): string
  {
    if i >= 0 then ZeroFill(Digits(i), 3) else "-" + ZeroFill(Digits(-i), 2)
  }

  // ---------------------------------------------------------------- lemmas

  lemma {:induction false} ValueOfDigits(n: nat)
    ensures Value(Digits(n)) == n
    decreases n
  {
    if n >= 10 {
      var prefix := Digits(n / 10);
      var s := prefix + [DigitChar(n % 10)];
      assert s[..|s| - 1] == prefix;
      ValueOfDigits(n / 10);
    }
  }

  lemma {:induction false} ValueOfZeros(k: nat)
    ensures Value(Zeros(k)) == 0
  {
    if k > 0 {
      assert Zeros(k)[..k - 1] == Zeros(k - 1);
      ValueOfZeros(k - 1);
    }
  }

  /** Leading zeros do not change the value of a numeral. */
  lemma {:induction false} ValueIgnoresLeadingZeros(k: nat, s: string)
    requires AllDigits(s)
    ensures AllDigits(Zeros(k) + s) && Value(Zeros(k) + s) == Value(s)
    decreases |s|
  {
    var t := Zeros(k) + s;
    if s == [] {
      assert t == Zeros(k);
      ValueOfZeros(k);
    } else {
      var init := s[..|s| - 1];
      assert t[..|t| - 1] == Zeros(k) + init;
      ValueIgnoresLeadingZeros(k, init);
    }
  }

  /** int(str(i)) == i. */
  lemma ParseShow(i: int)
    ensures ParseInt(Show(i)) == Some(i)
  {
    if i >= 0 {
      ValueOfDigits(i);
    } else {
      var s := Show(i);
      assert s[1..] == Digits(-i);
      ValueOfDigits(-i);
    }
  }

  lemma ValueOfZeroFill(s: string, width: nat)
    requires AllDigits(s)
    ensures AllDigits(ZeroFill(s, width)) && Value(ZeroFill(s, width)) == Value(s)
  {
    if |s| < width { ValueIgnoresLeadingZeros(width - |s|, s); }
  }

  /** int() reads an unsigned numeral as its value. */
  lemma ParseUnsigned(s: string)
    requires |s| > 0 && AllDigits(s)
    ensures ParseInt(s) == Some(Value(s))
  {
    assert IsDigit(s[0]);
  }

  /** int() reads '-' followed by a numeral as the negated value. */
  lemma ParseNegative(s: string)
    requires |s| > 0 && AllDigits(s)
    ensures ParseInt("-" + s) == Some(-(Value(s) as int))
  {
    assert ("-" + s)[1..] == s;
  }

  /** int(f"{i:03}") == i: the padded numeral reads back as the index. */
  lemma ParsePad3(i: int)
    ensures ParseInt(Pad3(i)) == Some(i)
  {
    if i >= 0 {
      ParseFilled(i, 3);
    } else {
      ParseFilled(-i, 2);
      ParseNegative(ZeroFill(Digits(-i), 2));
    }
  }

  /** A zero-filled numeral of n reads back as n. */
  lemma ParseFilled(n: nat, width: nat)
    ensures AllDigits(ZeroFill(Digits(n), width)) && |ZeroFill(Digits(n), width)| > 0
    ensures Value(ZeroFill(Digits(n), width)) == n
    ensures ParseInt(ZeroFill(Digits(n), width)) == Some(n)
  {
    ValueOfDigits(n);
    ValueOfZeroFill(Digits(n), width);
    ParseUnsigned(ZeroFill(Digits(n), width));
  }

  /** Distinct indices never share a padded numeral. */
  lemma Pad3Injective(i: int, j: int)
    requires Pad3(i) == Pad3(j)
    ensures i == j
  {
    ParsePad3(i);
    ParsePad3(j);
  }

  /** `Digits(n)` has exactly as many characters as `n` has decimal digits. */
  lemma {:induction false} DigitsLength(n: nat)
    ensures n < Pow10(|Digits(n)|)
    ensures |Digits(n)| > 1 ==> Pow10(|Digits(n)| - 1) <= n
    decreases n
  {
    if n >= 10 {
      DigitsLength(n / 10);
    }
  }

  /** `{i:03}` pads to at least three characters and never truncates: for
      i >= 0 it is the numeral of i preceded by max(0, 3 - digits) zeros. */
  lemma Pad3Shape(i: int)
    requires i >= 0
    ensures |Pad3(i)| == if |Digits(i)| < 3 then 3 else |Digits(i)|
    ensures Pad3(i) == Zeros(|Pad3(i)| - |Digits(i)|) + Digits(i)
    ensures 0 <= i < 1000 ==> |Pad3(i)| == 3
    ensures i >= 1000 ==> Pad3(i) == Digits(i)
  {
    DigitsLength(i);
    if |Digits(i)| < 3 {
      assert Pad3(i) == Zeros(3 - |Digits(i)|) + Digits(i);
    } else {
      assert Zeros(0) + Digits(i) == Digits(i);
      assert Pow10(3) == 1000;
      if |Digits(i)| > 3 {
        Pow10Grows(3, |Digits(i)| - 1);
      }
    }
  }

  lemma {:induction false} Pow10Grows(a: nat, b: nat)
    requires a <= b
    ensures Pow10(a) <= Pow10(b)
    decreases b - a
  {
    if a < b { Pow10Grows(a + 1, b); }
  }

  /** Worked values of `{i:03}`. */
  lemma Pad3Examples()
    ensures Pad3(7) == "007" && Pad3(47) == "047" && Pad3(123) == "123"
    ensures Pad3(1234) == "1234" && Pad3(-5) == "-05"
  {
    assert Digits(12) == "12";
    assert Digits(123) == "123";
    assert Digits(1234) == "1234";
  }
}
