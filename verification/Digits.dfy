// Numbers as text: str() of a whole number, fixed-width numbers, and the reading of them by int().
module Digits {
  import opened Wrappers

  predicate IsDigit(c: char) {
    '0' <= c <= '9'
  }

  predicate AllDigits(s: string) {
    forall i :: 0 <= i < |s| ==> IsDigit(s[i])
  }

  function DigitValue(c: char): (d: nat)
    requires IsDigit(c)
    ensures d < 10
  {
    c as int - '0' as int
  }

  function DigitChar(d: nat): (c: char)
    requires d < 10
    ensures IsDigit(c) && DigitValue(c) == d
  {
    ('0' as int + d) as char
  }

  function Pow10(k: nat): (p: nat)
    ensures p >= 1
  {
    if k == 0 then 1 else 10 * Pow10(k - 1)
  }

  // The number a run of digits denotes.
  function Value(s: string): nat
    requires AllDigits(s)
  {
    if s == [] then 0 else 10 * Value(s[..|s| - 1]) + DigitValue(s[|s| - 1])
  }

  // str(n): no leading zero, at least one digit.
  function NatText(n: nat): (t: string)
    ensures AllDigits(t) && t != []
    ensures Value(t) == n
    ensures n > 0 ==> t[0] != '0'
    ensures |t| > 1 ==> t[0] != '0'
    ensures |t| > 1 ==> Pow10(|t| - 1) <= n
  {
    if n < 10 then
      [DigitChar(n)]
    else
      var t := NatText(n / 10) + [DigitChar(n % 10)];
      assert t[..|t| - 1] == NatText(n / 10);
      assert |NatText(n / 10)| == 1 ==> Pow10(|t| - 1) == 10 * Pow10(0);
      t
  }

  function IntText(i: int): string {
    if i < 0 then "-" + NatText(-i) else NatText(i)
  }

  // Exactly `width` digits, padded with zeros on the left.
  function PadNat(n: nat, width: nat): (t: string)
    requires n < Pow10(width)
    ensures |t| == width && AllDigits(t) && Value(t) == n
  {
    if width == 0 then
      []
    else
      var t := PadNat(n / 10, width - 1) + [DigitChar(n % 10)];
      assert t[..|t| - 1] == PadNat(n / 10, width - 1);
      t
  }

  lemma Pow10Grows(a: nat, b: nat)
    requires a <= b
    ensures Pow10(a) <= Pow10(b)
  {
    if a < b {
      Pow10Grows(a, b - 1);
    }
  }

  lemma ValueBound(s: string)
    requires AllDigits(s)
    ensures Value(s) < Pow10(|s|)
  {
    if s != [] {
      ValueBound(s[..|s| - 1]);
    }
  }

  // Runs of digits of one length that denote the same number are the same run.
  lemma {:induction false} ValueInjective(a: string, b: string)
    requires AllDigits(a) && AllDigits(b) && |a| == |b|
    requires Value(a) == Value(b)
    ensures a == b
  {
    if a != [] {
      ValueInjective(a[..|a| - 1], b[..|b| - 1]);
      assert a == a[..|a| - 1] + [a[|a| - 1]];
      assert b == b[..|b| - 1] + [b[|b| - 1]];
      assert DigitValue(a[|a| - 1]) == DigitValue(b[|b| - 1]);
    }
  }

  // The number of digits of a number says between which powers of ten it lies.
  lemma DigitCount(n: nat, k: nat)
    requires k > 0
    ensures |NatText(n)| <= k <==> n < Pow10(k)
  {
    ValueBound(NatText(n));
    if |NatText(n)| <= k {
      Pow10Grows(|NatText(n)|, k);
    } else {
      Pow10Grows(k, |NatText(n)| - 1);
    }
  }

  // --- int() ------------------------------------------------------------------

  // The ASCII characters that str.strip() removes.
  predicate IsSpace(c: char) {
    c == ' ' || '\t' <= c <= '\r' || '\U{1c}' <= c <= '\U{1f}'
  }

  function StripLeft(s: string): string {
    if s != [] && IsSpace(s[0]) then StripLeft(s[1..]) else s
  }

  function StripRight(s: string): string {
    if s != [] && IsSpace(s[|s| - 1]) then StripRight(s[..|s| - 1]) else s
  }

  function Strip(s: string): string {
    StripRight(StripLeft(s))
  }

  function OnlyDigits(s: string): (d: string)
    ensures AllDigits(d) && |d| <= |s|
  {
    if s == [] then []
    else OnlyDigits(s[..|s| - 1]) + (if IsDigit(s[|s| - 1]) then [s[|s| - 1]] else [])
  }

  // Digits, with single underscores allowed between two of them.
  predicate DigitGroups(s: string) {
    && s != [] && IsDigit(s[0]) && IsDigit(s[|s| - 1])
    && forall i :: 0 <= i < |s| ==>
         IsDigit(s[i]) || (s[i] == '_' && 0 < i < |s| - 1 && IsDigit(s[i - 1]) && IsDigit(s[i + 1]))
  }

  function Unsigned(s: string): string {
    if s != [] && (s[0] == '-' || s[0] == '+') then s[1..] else s
  }

  // int(text) on ASCII text: surrounding white space, a sign and digit-group underscores are let through.
  function ReadInt(text: string): Option<int> {
    var stripped := Strip(text);
    if !DigitGroups(Unsigned(stripped)) then None
    else
      var magnitude: int := Value(OnlyDigits(text));
      Some(if stripped[0] == '-' then -magnitude else magnitude)
  }

  lemma OnlyDigitsOfDigits(s: string)
    requires AllDigits(s)
    ensures OnlyDigits(s) == s
  {
    if s != [] {
      OnlyDigitsOfDigits(s[..|s| - 1]);
      assert s == s[..|s| - 1] + [s[|s| - 1]];
    }
  }

  lemma {:induction false} OnlyDigitsDropsOne(s: string, i: nat)
    requires i < |s| && !IsDigit(s[i])
    ensures |OnlyDigits(s)| < |s|
  {
    if i < |s| - 1 {
      OnlyDigitsDropsOne(s[..|s| - 1], i);
    }
  }

  lemma ReadIntOfDigits(s: string)
    requires AllDigits(s) && s != []
    ensures ReadInt(s) == Some(Value(s))
  {
    OnlyDigitsOfDigits(s);
    assert IsDigit(s[0]) && IsDigit(s[|s| - 1]);
    assert StripLeft(s) == s && StripRight(s) == s;
    assert Unsigned(s) == s;
  }

  lemma ReadIntOfText(n: nat)
    ensures ReadInt(NatText(n)) == Some(n)
  {
    ReadIntOfDigits(NatText(n));
  }

  lemma {:induction false} OneDigitOnly(text: string)
    requires |text| == 1 && !IsDigit(text[0])
    ensures ReadInt(text).None?
  {
    if IsSpace(text[0]) {
      assert text[1..] == [] && StripLeft(text) == StripLeft([]);
    } else {
      assert StripLeft(text) == text && Strip(text) == text;
    }
  }

  // However lenient int() is, no single changed character of a number it is read from keeps its value.
  lemma ReadIntNoticesChange(n: nat, i: nat, c: char)
    requires i < |NatText(n)| && c != NatText(n)[i]
    ensures ReadInt(NatText(n)[i := c]) != Some(n)
  {
    var t := NatText(n);
    var u := t[i := c];
    if IsDigit(c) {
      assert AllDigits(u);
      ReadIntOfDigits(u);
      if Value(u) == n {
        ValueInjective(t, u);
      }
    } else if |t| == 1 {
      OneDigitOnly(u);
    } else {
      OnlyDigitsDropsOne(u, i);
      var d := OnlyDigits(u);
      ValueBound(d);
      Pow10Grows(|d|, |t| - 1);
    }
  }
}
