/** Amounts are integer cents. This module gives the two conversions the
    source performs between amounts and text: `parseFloat` (reading a
    decimal prefix) and `String(number)` (the shortest decimal rendering),
    and proves that reading back a rendered amount gives the amount. */
module Numbers {
  import opened Common

  predicate IsDigit(c: char)
  {
    '0' <= c <= '9'
  }

  predicate AllDigits(s: string)
  {
    forall i :: 0 <= i < |s| ==> IsDigit(s[i])
  }

  function DigitVal(c: char): nat
    requires IsDigit(c)
  {
    c as int - '0' as int
  }

  function DigitChar(d: nat): (c: char)
    requires d < 10
    ensures IsDigit(c) && DigitVal(c) == d
  {
    ('0' as int + d) as char
  }

  /** The number a string of decimal digits denotes, most significant first. */
  function DigitsValue(s: string): nat
    requires AllDigits(s)
  {
    if s == [] then 0 else DigitsValue(s[..|s| - 1]) * 10 + DigitVal(s[|s| - 1])
  }

  /** Decimal digits of `n` without leading zeros. */
  function NatToString(n: nat): (s: string)
    ensures |s| > 0 && AllDigits(s)
  {
    if n < 10 then [DigitChar(n)] else NatToString(n / 10) + [DigitChar(n % 10)]
  }

  lemma {:induction false} NatToStringValue(n: nat)
    ensures DigitsValue(NatToString(n)) == n
  {
    if n >= 10 {
      var s := NatToString(n);
      assert s[..|s| - 1] == NatToString(n / 10);
      NatToStringValue(n / 10);
    }
  }

  /** Length of the run of digits that `s` starts with. */
  function DigitRun(s: string): (k: nat)
    ensures k <= |s|
  {
    if s != [] && IsDigit(s[0]) then 1 + DigitRun(s[1..]) else 0
  }

  /** `DigitRun` measures the longest prefix of digits. */
  lemma {:induction false} DigitRunIsLongest(s: string)
    ensures AllDigits(s[..DigitRun(s)])
    ensures DigitRun(s) < |s| ==> !IsDigit(s[DigitRun(s)])
  {
    if s != [] && IsDigit(s[0]) {
      DigitRunIsLongest(s[1..]);
      assert s[..DigitRun(s)] == [s[0]] + s[1..][..DigitRun(s[1..])];
    }
  }

  lemma {:induction false} DigitRunOfDigitsThen(a: string, b: string)
    requires AllDigits(a)
    requires b == [] || !IsDigit(b[0])
    ensures DigitRun(a + b) == |a|
  {
    if a != [] {
      assert (a + b)[1..] == a[1..] + b;
      DigitRunOfDigitsThen(a[1..], b);
    }
  }

  /** Cents denoted by the fraction digits after the decimal point; digits
      past the second (sub-cent precision) are not kept. */
  function FractionCents(f: string): (c: nat)
    requires AllDigits(f)
    ensures c < 100
  {
    if |f| == 0 then 0
    else if |f| == 1 then DigitVal(f[0]) * 10
    else DigitVal(f[0]) * 10 + DigitVal(f[1])
  }

  /** `parseFloat(s)` in cents: leading white space, an optional sign, integer
      digits, an optional '.' and fraction digits; whatever follows the
      longest such prefix is ignored. No digit at all is NaN (`None`). */
  function ParseNumber(s: string): (r: Option<int>)
  {
    var t := TrimStart(s);
    var signed := t != [] && (t[0] == '-' || t[0] == '+');
    match ParseUnsigned(if signed then t[1..] else t)
    case None => None
    case Some(v) => Some(if signed && t[0] == '-' then -(v as int) else v)
  }

  /** The unsigned part of `parseFloat`: integer digits, then an optional
      '.' with fraction digits; at least one digit is needed. */
  function ParseUnsigned(rest: string): (r: Option<nat>)
    ensures r.Some? ==> DigitRun(rest) > 0 || (DigitRun(rest) < |rest| && rest[DigitRun(rest)] == '.')
  {
    var k := DigitRun(rest);
    var intPart := rest[..k];
    var after := rest[k..];
    DigitRunIsLongest(rest);
    var frac := if after != [] && after[0] == '.' then DigitRunIsLongest(after[1..]); after[1..][..DigitRun(after[1..])] else [];
    if |intPart| == 0 && |frac| == 0 then None
    else Some(DigitsValue(intPart) * 100 + FractionCents(frac))
  }

  /** The fraction part of a rendering: "" for whole amounts, one digit when
      the second one is zero ("42.5"), two digits otherwise ("42.05"). */
  function FractionText(fr: nat): (s: string)
    requires fr < 100
    ensures AllDigits(s) && |s| <= 2
    ensures fr == 0 <==> s == []
    ensures s != [] ==> FractionCents(s) == fr
  {
    if fr == 0 then []
    else if fr % 10 == 0 then [DigitChar(fr / 10)]
    else [DigitChar(fr / 10), DigitChar(fr % 10)]
  }

  /** Rendering of a non-negative cent amount. */
  function UnsignedText(a: nat): (s: string)
    ensures s != [] && IsDigit(s[0])
  {
    var fr := FractionText(a % 100);
    NatToString(a / 100) + (if fr == [] then [] else "." + fr)
  }

  /** `String(amount)` of a cent amount: shortest decimal form. */
  function Render(c: int): (s: string)
    ensures s != [] && (IsDigit(s[0]) || s[0] == '-')
  {
    (if c < 0 then "-" else "") + UnsignedText(Abs(c))
  }

  lemma {:induction false} ParseUnsignedText(a: nat)
    ensures ParseUnsigned(UnsignedText(a)) == Some(a)
  {
    var fr := FractionText(a % 100);
    var digits := NatToString(a / 100);
    var tail := if fr == [] then [] else "." + fr;
    var body := digits + tail;
    assert UnsignedText(a) == body;
    DigitRunOfDigitsThen(digits, tail);
    assert body[..|digits|] == digits;
    assert body[|digits|..] == tail;
    NatToStringValue(a / 100);
    if fr != [] {
      assert tail[1..] == fr;
      DigitRunOfDigitsThen(fr, []);
      assert fr + [] == fr;
      assert tail[1..][..DigitRun(tail[1..])] == fr;
    }
  }

  /** A leading '-' negates what follows it. */
  lemma ParseNumberNegated(u: string, v: nat)
    requires u != [] && IsDigit(u[0]) && ParseUnsigned(u) == Some(v)
    ensures ParseNumber("-" + u) == Some(-(v as int))
  {
    var s := "-" + u;
    assert TrimStart(s) == s;
    assert s[1..] == u;
  }

  lemma ParseNumberUnsigned(u: string, v: nat)
    requires u != [] && IsDigit(u[0]) && ParseUnsigned(u) == Some(v)
    ensures ParseNumber(u) == Some(v)
  {
    assert TrimStart(u) == u;
  }

  /** Reading a rendered amount back gives the amount. */
  lemma ParseRender(c: int)
    ensures ParseNumber(Render(c)) == Some(c)
  {
    if c < 0 {
      ParseRenderNegative(c);
    } else {
      ParseRenderNonNegative(c);
    }
  }

  lemma ParseRenderNegative(c: int)
    requires c < 0
    ensures ParseNumber(Render(c)) == Some(c)
  {
    NegatedText(Abs(c));
  }

  /** A minus sign ahead of a non-negative rendering reads back negated. */
  lemma NegatedText(a: nat)
    ensures ParseNumber("-" + UnsignedText(a)) == Some(-(a as int))
  {
    ParseUnsignedText(a);
    ParseNumberNegated(UnsignedText(a), a);
  }

  lemma ParseRenderNonNegative(c: nat)
    ensures ParseNumber(Render(c)) == Some(c)
  {
    var u := UnsignedText(c);
    assert Render(c) == u by {
      assert "" + u == u;
    }
    ParseUnsignedText(c);
    ParseNumberUnsigned(u, c);
  }

  /** Distinct amounts render differently. */
  lemma RenderInjective(a: int, b: int)
    requires Render(a) == Render(b)
    ensures a == b
  {
    ParseRender(a);
    ParseRender(b);
  }
}
