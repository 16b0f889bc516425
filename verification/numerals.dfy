/** Decimal numerals as Python's `str(int)` writes them and `int(str)` reads
    them (ASCII digits, an optional sign, underscores between digit groups). */
module Numerals {
  import opened Wrappers

  predicate IsDigit(c: char) {
    '0' <= c <= '9'
  }

  predicate AllDigits(s: string) {
    forall k :: 0 <= k < |s| ==> IsDigit(s[k])
  }

  function DigitValue(c: char): nat
    requires IsDigit(c)
  {
    c as int - '0' as int
  }

  function DigitChar(d: nat): (c: char)
    requires d < 10
    ensures IsDigit(c) && DigitValue(c) == d
  {
    ('0' as int + d) as char
  }

  /** The value of a string of digits, most significant first; leading zeros
      are allowed, as in `int("010") == 10`. */
  function DigitsValue(s: string): nat
    requires AllDigits(s)
    decreases |s|
  {
    if |s| == 0 then 0 else 10 * DigitsValue(s[..|s| - 1]) + DigitValue(s[|s| - 1])
  }

  /** `str(n)` for a non-negative `n`: digits without leading zeros. */
  function NatToString(n: nat): (s: string)
    ensures |s| > 0 && AllDigits(s)
    ensures s[0] == '0' ==> n == 0
    decreases n
  {
    if n < 10 then [DigitChar(n)] else NatToString(n / 10) + [DigitChar(n % 10)]
  }

  /** `str(i)`: a minus sign in front of negative numbers. */
  function IntToString(i: int): string {
    if i < 0 then "-" + NatToString(-i) else NatToString(i)
  }

  /** Digits with single underscores between them, as `int()` accepts them:
      "1_000" but not "_1", "1_" or "1__0". */
  predicate Grouped(s: string) {
    && |s| > 0 && IsDigit(s[0]) && IsDigit(s[|s| - 1])
    && (forall k :: 0 <= k < |s| ==> IsDigit(s[k]) || s[k] == '_')
    && (forall k :: 0 < k < |s| && s[k] == '_' ==> s[k - 1] != '_')
  }

  /** The digits of `s`, underscores removed. */
  function DropUnderscores(s: string): (r: string)
    ensures (forall k :: 0 <= k < |s| ==> IsDigit(s[k]) || s[k] == '_') ==> AllDigits(r)
    decreases |s|
  {
    if |s| == 0 then []
    else (if s[0] == '_' then [] else [s[0]]) + DropUnderscores(s[1..])
  }

  /** The value of a grouped numeral. */
  function GroupedValue(s: string): nat
    requires Grouped(s)
  {
    DigitsValue(DropUnderscores(s))
  }

  /** Python's `int(token)` on a whitespace-free token: an optional sign
      followed by digits, which single underscores may group; anything else
      raises ValueError. Non-ASCII digits are not read. */
  function ParseInt(s: string): (r: Option<int>)
    ensures r.Some? ==> |s| > 0
  {
    if |s| > 0 && (s[0] == '-' || s[0] == '+') then
      var body := s[1..];
      if |body| > 0 && AllDigits(body) then
        var magnitude: int := DigitsValue(body);
        Some(if s[0] == '-' then -magnitude else magnitude)
      else if Grouped(body) then
        var magnitude: int := GroupedValue(body);
        Some(if s[0] == '-' then -magnitude else magnitude)
      else None
    else if |s| > 0 && AllDigits(s) then Some(DigitsValue(s))
    else if Grouped(s) then Some(GroupedValue(s))
    else None
  }

  /** Underscores group digits: `int("1_0") == 10`. */
  lemma UnderscoresGroup()
    ensures ParseInt("1_0") == Some(10) && ParseInt("-1_0") == Some(-10)
  {
    var ten := "1_0";
    assert !AllDigits(ten) by { assert ten[1] == '_'; }
    assert "-1_0"[1..] == ten;
    assert Grouped(ten);
    assert DropUnderscores(ten) == "10";
    DigitsValueOfNatToString(10);
    assert NatToString(10) == "10";
  }

  /** A leading, trailing or doubled underscore is an error. */
  lemma UnderscoresMisplaced()
    ensures ParseInt("_1") == None && ParseInt("1_") == None && ParseInt("1__0") == None
  {
  }

  /** Reading back what `str` wrote gives the number. */
  lemma {:induction false} DigitsValueOfNatToString(n: nat)
    ensures DigitsValue(NatToString(n)) == n
    decreases n
  {
    if n >= 10 {
      var s := NatToString(n);
      DigitsValueOfNatToString(n / 10);
      assert s[..|s| - 1] == NatToString(n / 10);
    }
  }

  /** `int(str(i)) == i` for every integer. */
  lemma ParseIntOfIntToString(i: int)
    ensures ParseInt(IntToString(i)) == Some(i)
  {
    if i < 0 {
      DigitsValueOfNatToString(-i);
      assert IntToString(i)[1..] == NatToString(-i);
    } else {
      DigitsValueOfNatToString(i);
    }
  }

  /** Writing a number back out after reading a canonical numeral (no leading
      zero unless it is "0") reproduces the numeral. */
  lemma {:induction false} NatToStringOfDigitsValue(s: string)
    requires |s| > 0 && AllDigits(s)
    requires s[0] == '0' ==> |s| == 1
    ensures NatToString(DigitsValue(s)) == s
    decreases |s|
  {
    if |s| > 1 {
      var init := s[..|s| - 1];
      NatToStringOfDigitsValue(init);
      DigitsPositive(init);
      var n := DigitsValue(s);
      assert n / 10 == DigitsValue(init);
      assert n % 10 == DigitValue(s[|s| - 1]);
      assert s == init + [s[|s| - 1]];
    }
  }

  lemma {:induction false} DigitsPositive(s: string)
    requires |s| > 0 && AllDigits(s) && s[0] != '0'
    ensures DigitsValue(s) > 0
    decreases |s|
  {
    if |s| > 1 {
      DigitsPositive(s[..|s| - 1]);
    }
  }

  /** Leading zeros do not change the value of a numeral. */
  lemma {:induction false} DigitsValueLeadingZeros(z: string, s: string)
    requires forall k :: 0 <= k < |z| ==> z[k] == '0'
    requires AllDigits(s)
    ensures AllDigits(z + s) && DigitsValue(z + s) == DigitsValue(s)
    decreases |s|
  {
    var zs := z + s;
    if |s| == 0 {
      assert zs == z;
      ZerosValue(z);
    } else {
      assert zs[..|zs| - 1] == z + s[..|s| - 1];
      DigitsValueLeadingZeros(z, s[..|s| - 1]);
    }
  }

  lemma {:induction false} ZerosValue(z: string)
    requires forall k :: 0 <= k < |z| ==> z[k] == '0'
    ensures AllDigits(z) && DigitsValue(z) == 0
    decreases |z|
  {
    if |z| > 0 {
      ZerosValue(z[..|z| - 1]);
    }
  }

  /** The value of a concatenation of numerals: `a` shifted by `|b|` places. */
  lemma {:induction false} DigitsValueAppend(a: string, b: string)
    requires AllDigits(a) && AllDigits(b)
    ensures AllDigits(a + b) && DigitsValue(a + b) == DigitsValue(a) * Pow10(|b|) + DigitsValue(b)
    decreases |b|
  {
    var ab := a + b;
    if |b| == 0 {
      assert ab == a;
    } else {
      var init := b[..|b| - 1];
      var last := b[|b| - 1];
      assert AllDigits(init) && IsDigit(last);
      DigitsValueAppend(a, init);
      assert ab[..|ab| - 1] == a + init && ab[|ab| - 1] == last;
      assert AllDigits(ab) by {
        forall k | 0 <= k < |ab| ensures IsDigit(ab[k]) {
          if k < |ab| - 1 {
            assert ab[k] == (a + init)[k];
          }
        }
      }
      assert DigitsValue(ab) == 10 * DigitsValue(a + init) + DigitValue(last);
      assert DigitsValue(b) == 10 * DigitsValue(init) + DigitValue(last);
      ShiftDigit(DigitsValue(a), Pow10(|init|), DigitsValue(init), DigitValue(last));
    }
  }

  /** Appending one digit to `x * p + y`, where `p` is the scale of `y`. */
  lemma ShiftDigit(x: int, p: int, y: int, d: int)
    ensures 10 * (x * p + y) + d == x * (10 * p) + (10 * y + d)
  {
  }

  function Pow10(n: nat): (r: nat)
    ensures r > 0
  {
    if n == 0 then 1 else 10 * Pow10(n - 1)
  }
}
