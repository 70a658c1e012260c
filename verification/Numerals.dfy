/**
 Numbers written in a base up to 36 with the digits 0-9a-z, as Python prints decimal keys and as Django's
 `int_to_base36` prints guest numbers; and the rule that a separator splits a string in one way only.
 */
module Numerals {
  function Digit(d: nat): char
    requires d < 36
  {
    if d < 10 then ('0' as int + d) as char else ('a' as int + d - 10) as char
  }

  function DigitValue(c: char): nat {
    if '0' <= c <= '9' then c as int - '0' as int
    else if 'a' <= c <= 'z' then c as int - 'a' as int + 10
    else 0
  }

  predicate IsDigit(c: char) {
    '0' <= c <= '9' || 'a' <= c <= 'z'
  }

  datatype Base = TEN | THIRTY_SIX
  {
    /** The number without its last digit. */
    function Shift(n: nat): nat { if TEN? then n / 10 else n / 36 }

    function LastDigit(n: nat): nat { if TEN? then n % 10 else n % 36 }

    function Append(high: nat, digit: nat): nat { digit + if TEN? then 10 * high else 36 * high }
  }

  function Numeral(n: nat, base: Base): (s: string)
    ensures s != [] && forall c :: c in s ==> IsDigit(c)
  {
    var last := [Digit(base.LastDigit(n))];
    if base.Shift(n) == 0 then last else Numeral(base.Shift(n), base) + last
  }

  function Decimal(n: nat): string {
    Numeral(n, TEN)
  }

  function Value(s: string, base: Base): nat {
    if s == [] then 0 else base.Append(Value(s[..|s| - 1], base), DigitValue(s[|s| - 1]))
  }

  lemma {:induction false} NumeralRoundTrip(n: nat, base: Base)
    ensures Value(Numeral(n, base), base) == n
    decreases n
  {
    var s, high := Numeral(n, base), base.Shift(n);
    if high == 0 {
      assert s[..0] == [];
    } else {
      NumeralRoundTrip(high, base);
      assert s[..|s| - 1] == Numeral(high, base);
    }
    assert DigitValue(Digit(base.LastDigit(n))) == base.LastDigit(n);
    assert base.Append(high, base.LastDigit(n)) == n;
  }

  lemma NumeralsDiffer(m: nat, n: nat, base: Base)
    requires Numeral(m, base) == Numeral(n, base)
    ensures m == n
  {
    NumeralRoundTrip(m, base);
    NumeralRoundTrip(n, base);
  }

  /** Python's `str.zfill` on an unsigned numeral. */
  function ZFill(s: string, width: nat): (r: string)
    ensures |r| >= width && |r| >= |s|
    ensures (forall c :: c in s ==> IsDigit(c)) ==> forall c :: c in r ==> IsDigit(c)
    decreases width - |s|
  {
    if |s| >= width then s else ZFill("0" + s, width)
  }

  lemma {:induction false} LeadingZero(s: string, base: Base)
    ensures Value("0" + s, base) == Value(s, base)
  {
    if s == [] {
      assert ("0" + s)[..0] == [] && ("0" + s)[0] == '0';
    } else {
      LeadingZero(s[..|s| - 1], base);
      assert ("0" + s)[..|s|] == "0" + s[..|s| - 1];
    }
  }

  lemma {:induction false} ZFillKeepsValue(s: string, width: nat, base: Base)
    ensures Value(ZFill(s, width), base) == Value(s, base)
    decreases width - |s|
  {
    if |s| < width {
      ZFillKeepsValue("0" + s, width, base);
      LeadingZero(s, base);
    }
  }

  lemma {:induction false} ZFillLength(s: string, width: nat)
    ensures |ZFill(s, width)| == if |s| < width then width else |s|
    decreases width - |s|
  {
    if |s| < width {
      ZFillLength("0" + s, width);
    }
  }

  /** A separator that occurs in neither left part splits a string in one way only. */
  lemma SplitsOnce(a: string, b: string, c: string, d: string, separator: char)
    requires separator !in a && separator !in c
    requires a + [separator] + b == c + [separator] + d
    ensures a == c && b == d
  {
    var s := a + [separator] + b;
    assert s[|a|] == separator && s[|c|] == separator;
    assert forall i :: 0 <= i < |a| ==> s[i] == a[i] && a[i] in a;
    assert forall i :: 0 <= i < |c| ==> s[i] == c[i] && c[i] in c;
    assert a == s[..|a|] && c == s[..|c|];
    assert b == s[|a| + 1..] && d == s[|c| + 1..];
  }
}
