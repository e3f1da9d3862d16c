/**
 * Decimal rendering of integers and the currency format of `format_currency`
 * (`f"${amount:,.0f} COP"`), with money held as a whole number of pesos.
 */
module Formatting {

  predicate IsDigit(c: char) {
    '0' <= c <= '9'
  }

  predicate AllDigits(s: string) {
    forall i :: 0 <= i < |s| ==> IsDigit(s[i])
  }

  function DigitChar(d: nat): (c: char)
    requires d < 10
    ensures IsDigit(c)
  {
    (48 + d) as char
  }

  function DigitValue(c: char): (d: nat)
    requires IsDigit(c)
    ensures d < 10
  {
    (c as int) - 48
  }

  /** The number a string of decimal digits denotes (leading zeros allowed). */
  function ValueOf(s: string): nat
    requires AllDigits(s)
  {
    if s == [] then 0 else 10 * ValueOf(s[..|s| - 1]) + DigitValue(s[|s| - 1])
  }

  /** The decimal digits of `n`, most significant first, as Python's `str(n)` writes them. */
  function Digits(n: nat): (s: string)
    ensures |s| >= 1 && AllDigits(s)
    ensures |s| > 1 ==> s[0] != '0'
  {
    if n < 10 then [DigitChar(n)] else Digits(n / 10) + [DigitChar(n % 10)]
  }

  /** `Digits` is inverted by `ValueOf`: the digits denote exactly `n`. */
  lemma {:induction false} DigitsValue(n: nat)
    ensures ValueOf(Digits(n)) == n
  {
    if n >= 10 {
      var s := Digits(n);
      assert s[..|s| - 1] == Digits(n / 10);
      DigitsValue(n / 10);
    }
  }

  /** Python's `str(i)` for an `int`: an optional minus sign, then the digits. */
  function IntToString(i: int): (s: string)
    ensures i >= 0 ==> s == Digits(i)
    ensures i < 0 ==> s == "-" + Digits(-i)
  {
    if i < 0 then "-" + Digits(-i) else Digits(i)
  }

  /** `str` on integers is injective: distinct numbers are written differently. */
  lemma IntToStringInjective(a: int, b: int)
    requires IntToString(a) == IntToString(b)
    ensures a == b
  {
    var s := IntToString(a);
    if a < 0 && b < 0 {
      assert Digits(-a) == s[1..] == Digits(-b);
      DigitsValue(-a); DigitsValue(-b);
    } else if a >= 0 && b >= 0 {
      DigitsValue(a); DigitsValue(b);
    }
  }

  /**
   * The `,` grouping option: a comma before every complete group of three
   * digits counted from the right.
   */
  function GroupThousands(s: string): (r: string)
    decreases |s|
  {
    if |s| <= 3 then s else GroupThousands(s[..|s| - 3]) + "," + s[|s| - 3..]
  }

  /** `r` with every comma deleted. */
  function RemoveCommas(r: string): string {
    if r == [] then []
    else RemoveCommas(r[..|r| - 1]) + (if r[|r| - 1] == ',' then "" else [r[|r| - 1]])
  }

  /**
   * A comma-grouped digit string: digits and commas only, a comma exactly at the
   * positions whose distance from the end is a multiple of four, so the leading
   * group has one to three digits and every later group exactly three.
   */
  ghost predicate WellGrouped(r: string) {
    && 1 <= |r| % 4 <= 3
    && (forall i :: 0 <= i < |r| ==> (r[i] == ',' <==> (|r| - i) % 4 == 0))
    && (forall i :: 0 <= i < |r| && r[i] != ',' ==> IsDigit(r[i]))
  }

  lemma {:induction false} RemoveCommasAppend(a: string, b: string)
    ensures RemoveCommas(a + b) == RemoveCommas(a) + RemoveCommas(b)
    decreases |b|
  {
    if b == [] {
      assert a + b == a;
    } else {
      var b' := b[..|b| - 1];
      assert (a + b)[..|a + b| - 1] == a + b';
      RemoveCommasAppend(a, b');
      assert b[..|b| - 1] == b';
    }
  }

  lemma {:induction false} RemoveCommasNoComma(s: string)
    requires AllDigits(s)
    ensures RemoveCommas(s) == s
  {
    if s != [] {
      RemoveCommasNoComma(s[..|s| - 1]);
    }
  }

  /** Deleting the commas of the grouped form gives back the digits. */
  lemma {:induction false} GroupThousandsRemoveCommas(s: string)
    requires AllDigits(s)
    ensures RemoveCommas(GroupThousands(s)) == s
    decreases |s|
  {
    if |s| <= 3 {
      RemoveCommasNoComma(s);
    } else {
      var pre, last := s[..|s| - 3], s[|s| - 3..];
      assert AllDigits(pre) && AllDigits(last) by {
        assert forall i :: 0 <= i < |pre| ==> pre[i] == s[i];
        assert forall i :: 0 <= i < |last| ==> last[i] == s[|s| - 3 + i];
      }
      assert GroupThousands(s) == GroupThousands(pre) + "," + last;
      GroupThousandsRemoveCommas(pre);
      RemoveCommasAcross(GroupThousands(pre), last);
      RemoveCommasNoComma(last);
      assert pre + last == s;
    }
  }

  /** Removing commas drops a separating comma and keeps both sides. */
  lemma RemoveCommasAcross(a: string, b: string)
    ensures RemoveCommas(a + "," + b) == RemoveCommas(a) + RemoveCommas(b)
  {
    RemoveCommasAppend(a + ",", b);
    RemoveCommasAppend(a, ",");
    assert ","[..0] == [];
    assert RemoveCommas(",") == "";
  }

  lemma {:induction false} GroupThousandsLength(s: string)
    requires |s| >= 1
    ensures |GroupThousands(s)| == |s| + (|s| - 1) / 3
    decreases |s|
  {
    if |s| > 3 {
      GroupThousandsLength(s[..|s| - 3]);
    }
  }

  /** The grouped form of a non-empty digit string is well grouped. */
  lemma {:induction false} GroupThousandsWellGrouped(s: string)
    requires |s| >= 1 && AllDigits(s)
    ensures WellGrouped(GroupThousands(s))
    decreases |s|
  {
    if |s| > 3 {
      var pre, last := s[..|s| - 3], s[|s| - 3..];
      GroupThousandsWellGrouped(pre);
      AppendGroup(GroupThousands(pre), last);
    }
  }

  /** Appending a comma and a group of three digits keeps a string well grouped. */
  lemma AppendGroup(g: string, last: string)
    requires WellGrouped(g) && |last| == 3 && AllDigits(last)
    ensures WellGrouped(g + "," + last)
  {
    var r := g + "," + last;
    var n := |g|;
    assert |r| == n + 4;
    forall i | 0 <= i < |r|
      ensures r[i] == ',' <==> (|r| - i) % 4 == 0
      ensures r[i] != ',' ==> IsDigit(r[i])
    {
      if i < n {
        assert r[i] == g[i];
        assert |r| - i == (n - i) + 4;
      } else if i > n {
        assert r[i] == last[i - n - 1];
      }
    }
  }

  /** `f"${amount:,.0f} COP"` for a whole number of pesos. */
  function FormatCurrency(amount: int): (r: string)
  {
    "$" + (if amount < 0 then "-" else "") + GroupThousands(Digits(if amount < 0 then -amount else amount)) + " COP"
  }

  /**
   * The currency text is "$", a minus sign exactly for negative amounts, a
   * well-grouped digit string whose commas removed are the decimal digits of the
   * magnitude, and " COP".
   */
  lemma FormatCurrencyMeaning(amount: int)
    ensures var r := FormatCurrency(amount);
      var start := if amount < 0 then 2 else 1;
      && |r| >= 6 && r[0] == '$' && r[|r| - 4..] == " COP"
      && (r[1] == '-' <==> amount < 0)
      && WellGrouped(r[start..|r| - 4])
      && RemoveCommas(r[start..|r| - 4]) == Digits(if amount < 0 then -amount else amount)
      && ValueOf(RemoveCommas(r[start..|r| - 4])) == (if amount < 0 then -amount else amount)
  {
    var m := if amount < 0 then -amount else amount;
    CurrencyFrame(amount);
    GroupThousandsWellGrouped(Digits(m));
    GroupThousandsRemoveCommas(Digits(m));
    DigitsValue(m);
  }

  /** The fixed parts of the currency text around the grouped digits. */
  lemma CurrencyFrame(amount: int)
    ensures var r := FormatCurrency(amount);
      var start := if amount < 0 then 2 else 1;
      var g := GroupThousands(Digits(if amount < 0 then -amount else amount));
      && |r| == start + |g| + 4 && |g| >= 1 && r[0] == '$' && r[|r| - 4..] == " COP"
      && r[start..|r| - 4] == g
      && (r[1] == '-' <==> amount < 0)
  {
    var m := if amount < 0 then -amount else amount;
    var g := GroupThousands(Digits(m));
    GroupThousandsWellGrouped(Digits(m));
    var head := "$" + (if amount < 0 then "-" else "");
    var r := FormatCurrency(amount);
    assert r == head + g + " COP";
    ThreeParts(head, g, " COP");
    if amount < 0 {
      assert r[1] == head[1] == '-';
    } else {
      assert (|g| - 0) % 4 != 0;
      assert r[1] == g[0] && IsDigit(g[0]);
    }
  }

  /** Slicing a concatenation of three strings gives back its parts. */
  lemma ThreeParts(a: string, b: string, c: string)
    ensures var s := a + b + c;
      && s[..|a|] == a && s[|a|..|a| + |b|] == b && s[|a| + |b|..] == c
  {
  }
}
