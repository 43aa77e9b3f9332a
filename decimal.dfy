/**
 * Decimal text of integers, as the screens produce and consume it:
 * `id.toString()` (and `${id}` in template literals) when a user id is written to the
 * store or compared with a post's author, and `JSON.parse(text)` when the stored id is
 * read back to be sent with a new post.
 */
module Decimal {
  import opened Basics

  predicate IsDigit(c: char)
  {
    '0' <= c <= '9'
  }

  predicate AllDigits(s: string)
  {
    forall i :: 0 <= i < |s| ==> IsDigit(s[i])
  }

  function DigitChar(d: nat): (c: char)
    requires d < 10
    ensures IsDigit(c) && DigitValue(c) == d
  {
    ('0' as int + d) as char
  }

  function DigitValue(c: char): (d: nat)
    requires IsDigit(c)
    ensures d < 10
  {
    c as int - '0' as int
  }

  /** Shortest decimal text of `n`: digits only, no leading zero except for "0" itself. */
  function NatToString(n: nat): (s: string)
    ensures |s| > 0 && AllDigits(s)
    ensures (s[0] == '0') == (n == 0)
    ensures n < 10 <==> |s| == 1
    decreases n
  {
    if n < 10 then [DigitChar(n)] else NatToString(n / 10) + [DigitChar(n % 10)]
  }

  /** Number.prototype.toString for an integral number. */
  function IntToString(i: int): (s: string)
    ensures |s| > 0
    ensures (s[0] == '-') == (i < 0)
    ensures i < 0 ==> IsNatLiteral(s[1..])
    ensures i >= 0 ==> IsNatLiteral(s)
  {
    if i < 0 then "-" + NatToString(-i) else NatToString(i)
  }

  /** The value of a string of decimal digits, most significant first. */
  function DigitsValue(s: string): nat
    requires AllDigits(s)
    decreases |s|
  {
    if s == [] then 0 else DigitsValue(s[..|s| - 1]) * 10 + DigitValue(s[|s| - 1])
  }

  /** An unsigned JSON integer literal: digits, no leading zero unless it is "0". */
  predicate IsNatLiteral(s: string)
  {
    |s| > 0 && AllDigits(s) && (s[0] == '0' ==> |s| == 1)
  }

  /**
   * JSON.parse of a text that must denote an integer. `None` stands for the texts on which
   * JSON.parse throws (and, conservatively, for valid JSON texts that are not integers).
   */
  function ParseInt(s: string): (r: Option<int>)
    ensures r.Some? ==> IntToString(r.value) == s || s == "-0"
    ensures s == "" ==> r.None?
  {
    if |s| > 0 && s[0] == '-' then
      if IsNatLiteral(s[1..]) then
        LiteralRoundTrip(s[1..]);
        assert s == "-" + s[1..];
        Some(-(DigitsValue(s[1..]) as int))
      else None
    else if IsNatLiteral(s) then
      LiteralRoundTrip(s);
      Some(DigitsValue(s))
    else None
  }

  /** A JSON integer literal is the shortest text of its own value. */
  lemma {:induction false} LiteralRoundTrip(d: string)
    requires IsNatLiteral(d)
    ensures NatToString(DigitsValue(d)) == d
    decreases |d|
  {
    var last := d[|d| - 1];
    if |d| == 1 {
      assert DigitChar(DigitValue(last)) == last;
    } else {
      var p := d[..|d| - 1];
      assert p[0] == d[0];
      assert IsNatLiteral(p);
      LiteralRoundTrip(p);
      var v := DigitsValue(p) * 10 + DigitValue(last);
      assert DigitsValue(d) == v;
      assert DigitsValue(p) != 0;
      assert v / 10 == DigitsValue(p) && v % 10 == DigitValue(last);
      assert DigitChar(DigitValue(last)) == last;
      assert d == p + [last];
    }
  }

  lemma {:induction false} NatRoundTrip(n: nat)
    ensures DigitsValue(NatToString(n)) == n
    decreases n
  {
    if n >= 10 {
      var s := NatToString(n);
      assert s[..|s| - 1] == NatToString(n / 10);
      NatRoundTrip(n / 10);
    }
  }

  /** Reading back the text of a number gives that number: `JSON.parse(String(i)) === i`. */
  lemma IntRoundTrip(i: int)
    ensures ParseInt(IntToString(i)) == Some(i)
  {
    if i < 0 {
      NegativeRoundTrip(-i);
    } else {
      var s := NatToString(i);
      assert IsNatLiteral(s) && s[0] != '-';
      NatRoundTrip(i);
    }
  }

  lemma NegativeRoundTrip(n: nat)
    requires n > 0
    ensures ParseInt("-" + NatToString(n)) == Some(-(n as int))
  {
    var d := NatToString(n);
    var s := "-" + d;
    assert s[0] == '-' && s[1..] == d;
    assert IsNatLiteral(d);
    NatRoundTrip(n);
  }

  /** Two numbers have the same text exactly when they are equal. */
  lemma IntToStringInjective(i: int, j: int)
    ensures IntToString(i) == IntToString(j) <==> i == j
  {
    if IntToString(i) == IntToString(j) {
      IntRoundTrip(i);
      IntRoundTrip(j);
    }
  }
}
