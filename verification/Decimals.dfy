// Decimal data items: their numeric meaning, the canonical form a file carries, and back.
module Decimals {
  import opened Wrappers
  import opened Digits
  import opened Scaling

  // A Python Decimal: (-1)^negative * coefficient * 10^exponent, or NaN and the infinities.
  datatype Decimal =
    | Finite(negative: bool, coefficient: nat, exponent: int)
    | Special

  // The decimal context rounds results to this many significant digits.
  const PRECISION: nat := 28

  // A finite decimal in lowest terms: units / 10^places, with as few places as its value needs.
  datatype Canonical = Canonical(negative: bool, units: nat, places: nat) {
    predicate Valid() {
      && (places > 0 ==> units % 10 != 0)
      && (negative ==> units > 0)
    }
  }

  // --- numeric meaning ----------------------------------------------------------

  // Drops the zeros a fraction ends in.
  function DropZeros(units: nat, places: nat): (r: (nat, nat))
    ensures r.1 <= places && (r.1 > 0 ==> r.0 % 10 != 0)
    ensures units == Scale(r.0, places - r.1)
    ensures r.0 == 0 <==> units == 0
  {
    if places > 0 && units % 10 == 0 then DropZeros(units / 10, places - 1) else (units, places)
  }

  function CanonicalOf(d: Decimal): (c: Canonical)
    requires d.Finite?
    ensures c.Valid()
  {
    var negative := d.negative && d.coefficient > 0;
    if d.exponent >= 0 then
      Canonical(negative, ScaleUp(d.coefficient, d.exponent), 0)
    else
      var (units, places) := DropZeros(d.coefficient, -d.exponent);
      Canonical(negative, units, places)
  }

  function ScaleUp(n: nat, k: nat): (m: nat)
    ensures m > 0 <==> n > 0
  {
    ScaleOrder(n, n, k);
    Scale(n, k)
  }

  // Numerically equal decimals have one canonical form (SameNumberIsNumeric).
  predicate SameNumber(a: Decimal, b: Decimal) {
    if a.Finite? && b.Finite? then CanonicalOf(a) == CanonicalOf(b) else a == b
  }

  // The whole number of units of 10^-places that the decimal amounts to.
  function UnitsAt(d: Decimal, places: nat): int
    requires d.Finite? && places + d.exponent >= 0
  {
    var magnitude: int := Scale(d.coefficient, places + d.exponent);
    if d.negative then -magnitude else magnitude
  }

  function CanonicalUnitsAt(c: Canonical, places: nat): int
    requires c.places <= places
  {
    var magnitude: int := Scale(c.units, places - c.places);
    if c.negative then -magnitude else magnitude
  }

  lemma CanonicalUnits(d: Decimal, places: nat)
    requires d.Finite? && places + d.exponent >= 0
    ensures CanonicalOf(d).places <= places
    ensures UnitsAt(d, places) == CanonicalUnitsAt(CanonicalOf(d), places)
  {
    var c := CanonicalOf(d);
    ScaleOrder(d.coefficient, d.coefficient, places + d.exponent);
    if d.exponent >= 0 {
      ScaleScale(d.coefficient, d.exponent, places);
    } else {
      ScaleScale(c.units, -d.exponent - c.places, places + d.exponent);
    }
  }

  lemma ScaledEndsInZero(n: nat, k: nat)
    ensures Scale(n, 0) == n && (k > 0 ==> Scale(n, k) % 10 == 0)
  {
  }

  lemma LowestTermsUnique(u: nat, p: nat, v: nat, q: nat, places: nat)
    requires p <= q <= places
    requires q > 0 ==> v % 10 != 0
    requires Scale(u, places - p) == Scale(v, places - q)
    ensures u == v && p == q
  {
    ScaleScale(u, q - p, places - q);
    ScaleOrder(Scale(u, q - p), v, places - q);
    ScaledEndsInZero(u, q - p);
  }

  // Two decimals have one canonical form exactly when they are the same number.
  lemma SameNumberIsNumeric(a: Decimal, b: Decimal, places: nat)
    requires a.Finite? && b.Finite?
    requires places + a.exponent >= 0 && places + b.exponent >= 0
    ensures SameNumber(a, b) <==> UnitsAt(a, places) == UnitsAt(b, places)
  {
    CanonicalUnits(a, places);
    CanonicalUnits(b, places);
    var c, d := CanonicalOf(a), CanonicalOf(b);
    if UnitsAt(a, places) == UnitsAt(b, places) {
      ScaleOrder(c.units, c.units, places - c.places);
      ScaleOrder(d.units, d.units, places - d.places);
      if c.places <= d.places {
        LowestTermsUnique(c.units, c.places, d.units, d.places, places);
      } else {
        LowestTermsUnique(d.units, d.places, c.units, c.places, places);
      }
    }
  }

  // --- abs() in the decimal context ---------------------------------------------

  // Half-even rounding away of the last `dropped` digits.
  function RoundHalfEven(coefficient: nat, dropped: nat): (q: nat)
    ensures q == High(coefficient, dropped) || q == High(coefficient, dropped) + 1
  {
    var q, r, unit := High(coefficient, dropped), Low(coefficient, dropped), Pow10(dropped);
    if 2 * r > unit || (2 * r == unit && q % 2 == 1) then q + 1 else q
  }

  function ExcessDigits(coefficient: nat): nat {
    var digits := |NatText(coefficient)|;
    if digits <= PRECISION then 0 else digits - PRECISION
  }

  // abs(value): the sign goes, and the context rounds.
  function Abs(d: Decimal): (r: Decimal)
    requires d.Finite?
    ensures r.Finite? && !r.negative
  {
    var k := ExcessDigits(d.coefficient);
    if k == 0 then Finite(false, d.coefficient, d.exponent)
    else Finite(false, RoundHalfEven(d.coefficient, k), d.exponent + k)
  }

  // The digits abs() would drop are all zero.
  predicate KeepsAllDigits(d: Decimal) {
    d.Finite? ==> Low(d.coefficient, ExcessDigits(d.coefficient)) == 0
  }

  // The value with the sign it had and the magnitude abs() gave it.
  function Rounded(d: Decimal): (r: Decimal)
    requires d.Finite?
    ensures r.Finite?
  {
    var a := Abs(d);
    Finite(d.negative, a.coefficient, a.exponent)
  }

  lemma RoundedNonZero(d: Decimal)
    requires d.Finite?
    ensures Rounded(d).coefficient > 0 <==> d.coefficient > 0
  {
    var k := ExcessDigits(d.coefficient);
    if k > 0 {
      Pow10Grows(k, |NatText(d.coefficient)| - 1);
      ScaleOne(k);
      HighBelow(d.coefficient, k, 1);
    }
  }

  // A rounded magnitude has all the digits the context carries.
  lemma RoundingKeepsPrecision(d: Decimal, top: nat)
    requires d.Finite? && ExcessDigits(d.coefficient) > 0 && top > 0 && top + 1 == PRECISION
    ensures |NatText(Abs(d).coefficient)| > top
  {
    var k := ExcessDigits(d.coefficient);
    HighBelow(d.coefficient, k, Pow10(top));
    ScaleOne(top);
    ScaleScale(1, top, k);
    ScaleOne(top + k);
    DigitCount(Abs(d).coefficient, top);
  }

  // abs() keeps the value exactly when the digits it drops are zeros.
  lemma RoundedExactly(d: Decimal)
    requires d.Finite?
    ensures SameNumber(Rounded(d), d) <==> KeepsAllDigits(d)
  {
    var k := ExcessDigits(d.coefficient);
    var r := Rounded(d);
    var places := if d.exponent >= 0 then 0 else -d.exponent;
    SameNumberIsNumeric(r, d, places);
    if k > 0 {
      var h := High(d.coefficient, k);
      HighLow(d.coefficient, k);
      ScaleOne(k);
      ScaleAdds(h, 1, k);
      ScaleScale(r.coefficient, k, places + d.exponent);
      ScaleOrder(Scale(r.coefficient, k), d.coefficient, places + d.exponent);
      ScaleOrder(d.coefficient, d.coefficient, places + d.exponent);
      RoundedNonZero(d);
    }
  }

  // --- encode -------------------------------------------------------------------

  function Zeros(n: nat): (z: string)
    ensures |z| == n && AllDigits(z)
  {
    if n == 0 then [] else Zeros(n - 1) + "0"
  }

  // format(value, "f") of a decimal without sign.
  function FormatFixed(coefficient: nat, exponent: int): string {
    if exponent >= 0 then
      if coefficient == 0 then "0" else NatText(coefficient) + Zeros(exponent)
    else
      NatText(High(coefficient, -exponent)) + "." + PadNat(Low(coefficient, -exponent), -exponent)
  }

  function StripTrailing(s: string, c: char): string {
    if s != [] && s[|s| - 1] == c then StripTrailing(s[..|s| - 1], c) else s
  }

  // text.partition("."): what stands before the first point and what stands after it.
  function Partition(s: string): (string, string) {
    if s == [] then ([], [])
    else if s[0] == '.' then ([], s[1..])
    else
      var (before, after) := Partition(s[1..]);
      ([s[0]] + before, after)
  }

  // The formatted magnitude with the zeros of its fraction, and then a bare point, stripped.
  function StrippedForm(magnitude: Decimal): string
    requires magnitude.Finite?
  {
    var formatted := FormatFixed(magnitude.coefficient, magnitude.exponent);
    if '.' in formatted then StripTrailing(StripTrailing(formatted, '0'), '.') else formatted
  }

  predicate WithinPrecision(whole: nat, fraction: nat, total: nat, places: nat) {
    fraction <= places && whole <= total - places && whole + fraction <= total
  }

  // The checks on the digits before and after the point, and the sign.
  function Checked(sign: string, stripped: string, total: nat, places: nat): Option<string> {
    var text := if stripped == "" then "0" else stripped;
    var (whole, fraction) := Partition(text);
    if !WithinPrecision(|whole|, |fraction|, total, places) then None
    else if text == "0" then Some("0")
    else Some(sign + text)
  }

  // The text of decimal(total,places); None where the original raises FieldError.
  function Encode(d: Decimal, total: nat, places: nat): Option<string> {
    if d.Special? then None
    else Checked(if d.negative && d.coefficient > 0 then "-" else "", StrippedForm(Abs(d)), total, places)
  }

  // --- what the text is ---------------------------------------------------------

  function MagnitudeText(units: nat, places: nat): string {
    if places == 0 then NatText(units)
    else NatText(High(units, places)) + "." + PadNat(Low(units, places), places)
  }

  // The one text a canonical decimal has in a file.
  function Show(c: Canonical): string {
    (if c.negative then "-" else "") + MagnitudeText(c.units, c.places)
  }

  lemma NoPoint(s: string)
    requires AllDigits(s)
    ensures '.' !in s
  {
    forall i | 0 <= i < |s| ensures s[i] != '.' {
      assert IsDigit(s[i]);
    }
  }

  lemma {:induction false} PartitionAtPoint(a: string, b: string)
    requires '.' !in a
    ensures Partition(a + "." + b) == (a, b)
    ensures Partition(a) == (a, [])
  {
    if a == [] {
      assert (a + "." + b)[1..] == b;
    } else {
      PartitionAtPoint(a[1..], b);
      assert (a + "." + b)[1..] == a[1..] + "." + b;
      assert a == [a[0]] + a[1..];
    }
  }

  lemma NatTextTimesTen(m: nat)
    requires m > 0
    ensures NatText(10 * m) == NatText(m) + "0"
  {
    assert (10 * m) / 10 == m && (10 * m) % 10 == 0;
  }

  lemma OneMoreZero(text: string, e: nat)
    ensures text + Zeros(0) == text
    ensures e > 0 ==> text + Zeros(e) == (text + Zeros(e - 1)) + "0"
  {
  }

  lemma {:induction false} ZerosAreScale(n: nat, e: nat)
    requires n > 0
    ensures Scale(n, e) > 0 && NatText(n) + Zeros(e) == NatText(Scale(n, e))
  {
    OneMoreZero(NatText(n), e);
    if e > 0 {
      ZerosAreScale(n, e - 1);
      NatTextTimesTen(Scale(n, e - 1));
    }
  }

  lemma PadNatLast(head: string, f: nat, k: nat)
    requires k > 0 && f < Pow10(k)
    ensures head + PadNat(f, k) == head + PadNat(f / 10, k - 1) + [DigitChar(f % 10)]
  {
  }

  lemma StripTrailingStep(s: string, c: char, d: char)
    ensures StripTrailing(s + [d], c) == if d == c then StripTrailing(s, c) else s + [d]
  {
    assert (s + [d])[..|s|] == s;
  }

  lemma {:induction false} StrippedFraction(head: string, f: nat, k: nat)
    requires f < Pow10(k) && head != [] && head[|head| - 1] == '.'
    ensures var (u, p) := DropZeros(f, k);
            u < Pow10(p) && StripTrailing(head + PadNat(f, k), '0') == head + PadNat(u, p)
  {
    if k == 0 {
      assert head + PadNat(f, 0) == head;
    } else {
      PadNatLast(head, f, k);
      StripTrailingStep(head + PadNat(f / 10, k - 1), '0', DigitChar(f % 10));
      if f % 10 == 0 {
        StrippedFraction(head, f / 10, k - 1);
      } else {
        assert DigitValue(DigitChar(f % 10)) != 0;
      }
    }
  }

  // Dropping the zeros of the fraction part is dropping the zeros of the whole coefficient.
  lemma LowKeepsLastDigit(units: nat, places: nat)
    requires places > 0
    ensures Low(units, places) % 10 == units % 10
    ensures Low(units, places) / 10 == Low(units / 10, places - 1)
  {
  }

  lemma {:induction false} DropZerosOfFraction(c: nat, k: nat)
    ensures var (u, p) := DropZeros(c, k);
            DropZeros(Low(c, k), k) == (Low(u, p), p) && High(u, p) == High(c, k)
  {
    if k > 0 {
      LowKeepsLastDigit(c, k);
      if c % 10 == 0 {
        DropZerosOfFraction(c / 10, k - 1);
      }
    }
  }

  lemma DotStripped(whole: string, u: nat, p: nat)
    requires AllDigits(whole) && whole != [] && u < Pow10(p)
    ensures StripTrailing(whole + "." + PadNat(u, p), '.') == if p == 0 then whole else whole + "." + PadNat(u, p)
  {
    var s := whole + "." + PadNat(u, p);
    if p == 0 {
      assert s == whole + "." && s[..|s| - 1] == whole;
      assert IsDigit(whole[|whole| - 1]);
    } else {
      assert IsDigit(PadNat(u, p)[p - 1]) && s[|s| - 1] == PadNat(u, p)[p - 1];
    }
  }

  // What stripping leaves of the formatted magnitude is the canonical text.
  lemma StrippedText(d: Decimal)
    requires d.Finite? && !d.negative
    ensures StrippedForm(d) == MagnitudeText(CanonicalOf(d).units, CanonicalOf(d).places)
  {
    var formatted := FormatFixed(d.coefficient, d.exponent);
    if d.exponent >= 0 {
      ScaleOrder(d.coefficient, d.coefficient, d.exponent);
      if d.coefficient == 0 {
        assert NatText(0) == "0" == formatted;
      } else {
        NoPoint(formatted);
        ZerosAreScale(d.coefficient, d.exponent);
      }
    } else {
      var k := -d.exponent;
      var whole := NatText(High(d.coefficient, k));
      assert formatted[|whole|] == '.';
      StrippedFraction(whole + ".", Low(d.coefficient, k), k);
      DropZerosOfFraction(d.coefficient, k);
      var (f, p) := DropZeros(Low(d.coefficient, k), k);
      DotStripped(whole, f, p);
    }
  }

  lemma MagnitudeParts(units: nat, places: nat)
    ensures Partition(MagnitudeText(units, places))
         == (NatText(High(units, places)), if places == 0 then "" else PadNat(Low(units, places), places))
    ensures MagnitudeText(units, places) != ""
    ensures MagnitudeText(units, places) == "0" <==> units == 0 && places == 0
  {
    var whole := NatText(High(units, places));
    NoPoint(whole);
    assert NatText(0) == "0";
    if places == 0 {
      PartitionAtPoint(whole, "");
      assert units == Value(NatText(units));
    } else {
      PartitionAtPoint(whole, PadNat(Low(units, places), places));
      assert MagnitudeText(units, places)[|whole|] == '.';
    }
  }

  // A value fits decimal(total,places) when it is a whole number of the smallest units, fewer than
  // 10^total of them, and there is room for a digit before the point.
  predicate Fits(c: Canonical, total: nat, places: nat) {
    places < total && c.places <= places && Scale(c.units, places - c.places) < Pow10(total)
  }

  lemma WholeDigitsFit(c: Canonical, total: nat, places: nat)
    requires c.places <= places < total
    ensures |NatText(High(c.units, c.places))| <= total - places <==> Fits(c, total, places)
  {
    var room := Pow10(total - places);
    DigitCount(High(c.units, c.places), total - places);
    HighBelow(c.units, c.places, room);
    ScaleOrder(c.units, Scale(room, c.places), places - c.places);
    ScaleScale(room, c.places, places - c.places);
    ScaleOne(total - places);
    ScaleScale(1, total - places, places);
    ScaleOne(total);
  }

  lemma WithinPrecisionFits(c: Canonical, total: nat, places: nat)
    ensures WithinPrecision(|NatText(High(c.units, c.places))|, c.places, total, places) <==> Fits(c, total, places)
  {
    if c.places <= places < total {
      WholeDigitsFit(c, total, places);
    }
  }

  lemma CheckedIsCanonical(c: Canonical, total: nat, places: nat)
    requires c.Valid()
    ensures Checked(if c.negative then "-" else "", MagnitudeText(c.units, c.places), total, places) ==
            if Fits(c, total, places) then Some(Show(c)) else None
  {
    MagnitudeParts(c.units, c.places);
    WithinPrecisionFits(c, total, places);
    var text := MagnitudeText(c.units, c.places);
    assert "" + text == text;
  }

  lemma RoundedCanonical(d: Decimal)
    requires d.Finite?
    ensures var (a, r) := (CanonicalOf(Abs(d)), CanonicalOf(Rounded(d)));
            r == Canonical(d.negative && d.coefficient > 0, a.units, a.places)
  {
    RoundedNonZero(d);
  }

  // Encoding succeeds exactly on the values that fit, and then gives their canonical text.
  lemma EncodeIsCanonical(d: Decimal, total: nat, places: nat)
    ensures Encode(d, total, places) ==
            if d.Finite? && Fits(CanonicalOf(Rounded(d)), total, places)
            then Some(Show(CanonicalOf(Rounded(d)))) else None
  {
    if d.Finite? {
      var c := CanonicalOf(Rounded(d));
      RoundedCanonical(d);
      StrippedText(Abs(d));
      CheckedIsCanonical(c, total, places);
    }
  }

  // --- reading back -------------------------------------------------------------

  // A strict reader: an optional minus sign, digits, and optionally a point and more digits.
  function Read(text: string): (r: Option<Decimal>)
    ensures r.Some? ==> r.value.Finite?
  {
    var negative := text != "" && text[0] == '-';
    var body := if negative then text[1..] else text;
    var (whole, fraction) := Partition(body);
    if whole == "" || !AllDigits(whole) || !AllDigits(fraction) || ('.' in body && fraction == "") then None
    else Some(Finite(negative, Value(whole + fraction), -|fraction|))
  }

  lemma ValueLast(s: string, d: nat)
    requires AllDigits(s) && d < 10
    ensures AllDigits(s + [DigitChar(d)]) && Value(s + [DigitChar(d)]) == 10 * Value(s) + d
  {
    assert (s + [DigitChar(d)])[..|s|] == s;
  }

  lemma {:induction false} ValueAppend(s: string, n: nat, places: nat)
    requires AllDigits(s) && n < Pow10(places)
    ensures Value(s + PadNat(n, places)) == Scale(Value(s), places) + n
  {
    if places == 0 {
      assert s + PadNat(n, 0) == s;
    } else {
      var q, d := n / 10, n % 10;
      ValueAppend(s, q, places - 1);
      PadNatLast(s, n, places);
      ValueLast(s + PadNat(q, places - 1), d);
      assert n == 10 * q + d;
    }
  }

  // The decimal a canonical text is read as.
  function Literal(c: Canonical): (d: Decimal)
    ensures d.Finite?
  {
    var places: int := c.places;
    Finite(c.negative, c.units, -places)
  }

  lemma LiteralIsCanonical(c: Canonical)
    requires c.Valid()
    ensures CanonicalOf(Literal(c)) == c
  {
    assert DropZeros(c.units, c.places) == (c.units, c.places);
    assert c.places == 0 ==> Scale(c.units, 0) == c.units;
  }

  lemma ReadMagnitude(units: nat, places: nat)
    ensures Read(MagnitudeText(units, places)) == Some(Literal(Canonical(false, units, places)))
    ensures MagnitudeText(units, places) != "" && IsDigit(MagnitudeText(units, places)[0])
  {
    var text := MagnitudeText(units, places);
    MagnitudeParts(units, places);
    ValueAppend(NatText(High(units, places)), Low(units, places), places);
    HighLow(units, places);
    var whole := NatText(High(units, places));
    assert text[0] == whole[0] && IsDigit(whole[0]);
    if places == 0 {
      NoPoint(text);
      assert whole + "" == whole;
    }
  }

  lemma ReadSigned(text: string)
    requires text != "" && text[0] != '-'
    ensures Read("-" + text) == match Read(text) case None => None case Some(d) => Some(Finite(true, d.coefficient, d.exponent))
  {
    assert ("-" + text)[1..] == text;
  }

  // Reading the canonical text gives back a decimal with that canonical form.
  lemma ReadShow(c: Canonical)
    requires c.Valid()
    ensures Read(Show(c)) == Some(Literal(c))
    ensures CanonicalOf(Literal(c)) == c
  {
    ReadMagnitude(c.units, c.places);
    var text := MagnitudeText(c.units, c.places);
    ReadSigned(text);
    assert "" + text == text;
    LiteralIsCanonical(c);
  }

  // Reading back gives the number itself, in lowest terms, exactly when abs() had no digit to drop.
  lemma ReadEncoded(d: Decimal, total: nat, places: nat)
    requires Encode(d, total, places).Some?
    ensures d.Finite? && Read(Encode(d, total, places).value).Some?
    ensures Read(Encode(d, total, places).value).value == Literal(CanonicalOf(d)) <==> KeepsAllDigits(d)
    ensures SameNumber(Read(Encode(d, total, places).value).value, d) <==> KeepsAllDigits(d)
  {
    EncodeIsCanonical(d, total, places);
    ReadShow(CanonicalOf(Rounded(d)));
    LiteralIsCanonical(CanonicalOf(d));
    RoundedExactly(d);
  }

  // Equal numbers have the same text and different numbers have different texts.
  lemma EncodeIsInjective(a: Decimal, b: Decimal, total: nat, places: nat)
    requires Encode(a, total, places).Some? && Encode(b, total, places).Some?
    requires KeepsAllDigits(a) && KeepsAllDigits(b)
    ensures Encode(a, total, places) == Encode(b, total, places) <==> SameNumber(a, b)
  {
    EncodesAs(a, total, places);
    EncodesAs(b, total, places);
    ReadShow(CanonicalOf(a));
    ReadShow(CanonicalOf(b));
  }

  lemma EncodesAs(d: Decimal, total: nat, places: nat)
    requires Encode(d, total, places).Some? && KeepsAllDigits(d)
    ensures d.Finite? && Encode(d, total, places).value == Show(CanonicalOf(d))
  {
    EncodeIsCanonical(d, total, places);
    RoundedExactly(d);
  }

  // Encoding succeeds exactly on the values the data type can hold.
  lemma EncodeSucceeds(d: Decimal, total: nat, places: nat)
    requires KeepsAllDigits(d)
    ensures Encode(d, total, places).Some? <==> d.Finite? && Fits(CanonicalOf(d), total, places)
  {
    EncodeIsCanonical(d, total, places);
    if d.Finite? {
      RoundedExactly(d);
    }
  }

  // Twenty-nine digits are one too many: abs() drops the last one, no error is raised, and 1 is sent.
  lemma ExcessPrecisionIsDropped(k: nat)
    requires k == PRECISION - 1
    ensures var d := Finite(false, 10 * Pow10(k) + 1, -(k + 1));
            Encode(d, 10, 3) == Some("1") && !SameNumber(Finite(false, 1, 0), d)
  {
    var e: int := k;
    var d := Finite(false, 10 * Pow10(k) + 1, -(e + 1));
    var one := Finite(false, 1, 0);
    OneExcessDigit(d.coefficient, k);
    HighLowUnique(d.coefficient, 1, Pow10(k), 1);
    OneRounded(d, k);
    RoundedExactly(d);
    EncodeIsCanonical(d, 10, 3);
  }

  lemma OneExcessDigit(n: nat, k: nat)
    requires k + 1 == PRECISION && n == 10 * Pow10(k) + 1
    ensures ExcessDigits(n) == 1
  {
    DigitCount(n, k + 1);
    DigitCount(n, k + 2);
  }

  lemma OneRounded(d: Decimal, k: nat)
    requires d.Finite? && !d.negative && ExcessDigits(d.coefficient) == 1
    requires High(d.coefficient, 1) == Pow10(k) && Low(d.coefficient, 1) == 1 && d.exponent == -(k + 1) as int
    ensures CanonicalOf(Rounded(d)) == CanonicalOf(Finite(false, 1, 0)) == Canonical(false, 1, 0)
    ensures Show(Canonical(false, 1, 0)) == "1" && Fits(Canonical(false, 1, 0), 10, 3)
    ensures !KeepsAllDigits(d)
  {
    ScaleOne(k);
    SameNumberIsNumeric(Rounded(d), Finite(false, 1, 0), k);
    assert NatText(1) == "1";
  }

  // Section 2.2.3 of NETA IDD Part 1: no leading zero except before the point, no zero at the end of
  // the fraction, no bare point, and no signed zero.
  predicate WellWritten(text: string) {
    text != "-0" && WellWrittenMagnitude(if text != "" && text[0] == '-' then text[1..] else text)
  }

  predicate WellWrittenMagnitude(body: string) {
    var (whole, fraction) := Partition(body);
    && AllDigits(whole) && AllDigits(fraction) && whole != ""
    && (|whole| > 1 ==> whole[0] != '0')
    && body == whole + (if fraction == "" then "" else "." + fraction)
    && (fraction != "" ==> fraction[|fraction| - 1] != '0')
  }

  lemma LastOfPadded(f: nat, k: nat)
    requires k > 0 && f < Pow10(k) && f % 10 != 0
    ensures PadNat(f, k)[k - 1] != '0'
  {
  }

  lemma FractionEndsInNonZero(units: nat, places: nat)
    requires places > 0 && units % 10 != 0
    ensures PadNat(Low(units, places), places)[places - 1] != '0'
  {
    LowKeepsLastDigit(units, places);
    LastOfPadded(Low(units, places), places);
  }

  lemma MagnitudeIsWellWritten(units: nat, places: nat)
    requires places > 0 ==> units % 10 != 0
    ensures WellWrittenMagnitude(MagnitudeText(units, places))
  {
    MagnitudeParts(units, places);
    var whole := NatText(High(units, places));
    if places > 0 {
      FractionEndsInNonZero(units, places);
    } else {
      assert whole + "" == whole;
    }
  }

  lemma ShowIsWellWritten(c: Canonical)
    requires c.Valid()
    ensures WellWritten(Show(c))
  {
    MagnitudeIsWellWritten(c.units, c.places);
    MagnitudeParts(c.units, c.places);
    ReadMagnitude(c.units, c.places);
    var text := MagnitudeText(c.units, c.places);
    assert "" + text == text && ("-" + text)[1..] == text && "-0"[1..] == "0";
  }

  lemma EncodedIsWellWritten(d: Decimal, total: nat, places: nat)
    requires Encode(d, total, places).Some?
    ensures WellWritten(Encode(d, total, places).value)
  {
    EncodeIsCanonical(d, total, places);
    ShowIsWellWritten(CanonicalOf(Rounded(d)));
  }
}
