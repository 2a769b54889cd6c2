/**
 How far a printed quantity can be from the number it was printed for.
 */
module QuantityBounds {
  import opened Text
  import opened Wrappers
  import opened Quantity

  // ---------- digits ----------

  lemma {:induction false} DigitsRead(n: nat)
    ensures Digits(n) != "" && AllDigits(Digits(n)) && ToNat(Digits(n)) == n
  {
    if n >= 10 {
      DigitsRead(n / 10);
      assert Digits(n)[..|Digits(n)| - 1] == Digits(n / 10);
    } else {
      assert Digits(n)[..0] == "";
    }
  }

  lemma {:induction false} RunOfDigits(digits: string, rest: string)
    requires AllDigits(digits) && (rest == "" || !IsDigit(rest[0]))
    ensures DigitRun(digits + rest) == |digits|
    decreases |digits|
  {
    if digits == "" {
      assert digits + rest == rest;
    } else {
      assert (digits + rest)[1..] == digits[1..] + rest;
      RunOfDigits(digits[1..], rest);
    }
  }

  lemma RunOfAll(digits: string)
    requires AllDigits(digits)
    ensures DigitRun(digits) == |digits|
  {
    RunOfDigits(digits, "");
    assert digits + "" == digits;
  }

  // ---------- printed numerals are read as they stand ----------

  predicate NumeralChar(c: char) {
    IsDigit(c) || c == ' ' || c == '/' || c == '.'
  }

  /** The shape of every printed quantity. */
  predicate Numeral(s: string) {
    && s != "" && IsDigit(s[0]) && IsDigit(s[|s| - 1])
    && forall k :: 0 <= k < |s| ==> NumeralChar(s[k])
  }

  /** A text without the characters that normalising replaces. */
  predicate Inert(s: string) {
    forall k :: 0 <= k < |s| ==> Straight(s[k]) == s[k] && Vulgar(s[k]) == "" && s[k] != ','
  }

  lemma {:induction false} SpellInert(s: string)
    requires Inert(s)
    ensures SpellFractions(s) == s
  {
    if s != "" {
      SpellInert(s[1..]);
      assert s == [s[0]] + s[1..];
    }
  }

  lemma {:induction false} PointInert(s: string)
    requires Inert(s)
    ensures PointForComma(s) == s
  {
    if s != "" {
      PointInert(s[1..]);
      assert s == [s[0]] + s[1..];
    }
  }

  lemma NormalizeInert(s: string)
    requires Inert(s)
    ensures Normalize(s) == s
  {
    assert StraightAll(s) == s;
    SpellInert(s);
    PointInert(s);
  }

  lemma TrimmedIsKept(s: string)
    requires Trimmed(s)
    ensures Trim(s) == s && TrimStart(s) == s && TrimEnd(s) == s
  {
  }

  lemma NumeralIsInert(s: string)
    requires Numeral(s)
    ensures Inert(s) && Trimmed(s)
  {
    forall k | 0 <= k < |s| ensures Straight(s[k]) == s[k] && Vulgar(s[k]) == "" && s[k] != ',' {
      assert NumeralChar(s[k]);
    }
  }

  /** The amount a numeral is read as. */
  function AmountIn(s: string): Option<Amount> {
    if Numeral(s) then ReadAmount(s) else None
  }

  lemma NumeralIsRead(s: string, a: Amount)
    requires AmountIn(s) == Some(a)
    ensures ParseQty(s) == Some(ValueOf(a))
  {
    NumeralIsInert(s);
    NormalizeInert(s);
    TrimmedIsKept(s);
  }

  // ---------- the four printed forms ----------

  lemma NotMixed(whole: string, rest: string)
    requires AllDigits(whole) && (rest == "" || (!IsDigit(rest[0]) && !IsSpace(rest[0])))
    ensures ReadMixed(whole + rest) == None
  {
    RunOfDigits(whole, rest);
    assert (whole + rest)[|whole|..] == rest;
  }

  lemma NotFraction(whole: string, rest: string)
    requires AllDigits(whole) && (rest == "" || (!IsDigit(rest[0]) && rest[0] != '/'))
    ensures ReadFraction(whole + rest) == None
  {
    RunOfDigits(whole, rest);
  }

  lemma PlainFloat(s: string, v: real)
    requires s != "" && IsDigit(s[0]) && ReadDecimal(s) == Some(v)
    ensures ParseFloat(s) == Finite(v)
  {
    assert "Infinity"[0] == 'I';
  }

  lemma WholeDecimal(whole: string)
    requires whole != "" && AllDigits(whole)
    ensures ReadDecimal(whole) == Some(ToNat(whole) as real)
  {
    RunOfAll(whole);
    assert whole[|whole|..] == "" && whole[..|whole|] == whole;
  }

  lemma PointDecimal(s: string, whole: string, digits: string, v: real)
    requires DigitRun(s) == |whole| && whole != "" && s[..|whole|] == whole
    requires |whole| < |s| && s[|whole|] == '.' && s[|whole| + 1..] == digits
    requires AllDigits(whole) && AllDigits(digits) && DigitRun(digits) == |digits|
    requires v == ToNat(whole) as real + AfterPoint(digits)
    ensures ReadDecimal(s) == Some(v)
  {
    assert digits[..|digits|] == digits && digits[|digits|..] == "";
  }

  lemma DigitsAreNumeral(whole: string, rest: string)
    requires whole != "" && AllDigits(whole)
    requires forall k :: 0 <= k < |rest| ==> NumeralChar(rest[k])
    requires rest == "" || IsDigit(rest[|rest| - 1])
    ensures Numeral(whole + rest)
  {
  }

  lemma FloatReads(s: string, v: real)
    requires Numeral(s) && ReadMixed(s) == None && ReadFraction(s) == None && ReadDecimal(s) == Some(v)
    ensures AmountIn(s) == Some(Decimal(Finite(v)))
  {
    PlainFloat(s, v);
  }

  lemma WholeReads(whole: string, v: real)
    requires whole != "" && AllDigits(whole) && v == ToNat(whole) as real
    ensures AmountIn(whole) == Some(Decimal(Finite(v)))
  {
    assert whole + "" == whole;
    DigitsAreNumeral(whole, "");
    NotMixed(whole, "");
    NotFraction(whole, "");
    WholeDecimal(whole);
    FloatReads(whole, v);
  }

  lemma WithPoint(whole: string, digits: string, v: real)
    requires whole != "" && AllDigits(whole) && digits != "" && AllDigits(digits)
    requires v == ToNat(whole) as real + AfterPoint(digits)
    ensures ReadDecimal(whole + ("." + digits)) == Some(v)
  {
    var rest := "." + digits;
    var s := whole + rest;
    RunOfDigits(whole, rest);
    RunOfAll(digits);
    assert s[..|whole|] == whole && s[|whole| + 1..] == digits;
    PointDecimal(s, whole, digits, v);
  }

  lemma PointNumeral(whole: string, digits: string)
    requires whole != "" && AllDigits(whole) && digits != "" && AllDigits(digits)
    ensures Numeral(whole + ("." + digits))
    ensures ReadMixed(whole + ("." + digits)) == None && ReadFraction(whole + ("." + digits)) == None
  {
    var rest := "." + digits;
    DigitsAreNumeral(whole, rest);
    NotMixed(whole, rest);
    NotFraction(whole, rest);
  }

  lemma DecimalReads(whole: string, digits: string, v: real)
    requires whole != "" && AllDigits(whole) && digits != "" && AllDigits(digits)
    requires v == ToNat(whole) as real + AfterPoint(digits)
    ensures AmountIn(whole + ("." + digits)) == Some(Decimal(Finite(v)))
  {
    PointNumeral(whole, digits);
    WithPoint(whole, digits, v);
    FloatReads(whole + ("." + digits), v);
  }

  /** A fraction of two single digits. */
  predicate Simple(s: string) {
    |s| == 3 && IsDigit(s[0]) && s[1] == '/' && IsDigit(s[2]) && s[2] != '0'
  }

  function PartOf(s: string): Fraction
    requires Simple(s)
  {
    Fraction(DigitValue(s[0]), DigitValue(s[2]))
  }

  lemma OneDigit(a: char)
    requires IsDigit(a)
    ensures AllDigits([a]) && ToNat([a]) == DigitValue(a)
  {
    assert [a][..0] == "";
  }

  lemma SimpleFraction(s: string)
    requires Simple(s)
    ensures ReadFraction(s) == Some(PartOf(s))
  {
    assert s == [s[0]] + (['/'] + [s[2]]);
    RunOfDigits([s[0]], ['/'] + [s[2]]);
    RunOfAll([s[2]]);
    assert s[..1] == [s[0]] && s[2..] == [s[2]];
    OneDigit(s[0]);
    OneDigit(s[2]);
  }

  lemma FractionReads(s: string)
    requires Simple(s)
    ensures AmountIn(s) == Some(Proper(PartOf(s)))
  {
    SimpleFraction(s);
    var rest := ['/'] + [s[2]];
    assert s == [s[0]] + rest;
    NotMixed([s[0]], rest);
  }

  lemma MixedMatches(whole: string, f: string)
    requires whole != "" && AllDigits(whole) && Simple(f)
    ensures ReadMixed(whole + (" " + f)) == Some(Mixed(ToNat(whole), PartOf(f)))
  {
    var rest := " " + f;
    var s := whole + rest;
    RunOfDigits(whole, rest);
    SimpleFraction(f);
    assert s[..|whole|] == whole && s[|whole|..] == rest && rest[1..] == f;
    assert SpaceRun(f) == 0;
    assert SpaceRun(rest) == 1;
    assert s[|whole| + 1..] == f;
  }

  lemma MixedReads(whole: string, f: string)
    requires whole != "" && AllDigits(whole) && Simple(f)
    ensures AmountIn(whole + (" " + f)) == Some(Mixed(ToNat(whole), PartOf(f)))
  {
    DigitsAreNumeral(whole, " " + f);
    MixedMatches(whole, f);
  }

  // ---------- two decimals ----------

  lemma StripLast(s: string, c: char)
    ensures StripZeros(s + [c]) == if c == '0' then StripZeros(s) else s + [c]
    ensures StripPoint(s + [c]) == if c == '.' then s else s + [c]
  {
    assert (s + [c])[..|s + [c]| - 1] == s;
  }

  lemma StrippedTenths(whole: string, a: char)
    requires IsDigit(a)
    ensures StripPoint(StripZeros(whole + "." + [a])) == if a != '0' then whole + "." + [a] else whole
  {
    StripLast(whole + ".", a);
    StripLast(whole, '.');
  }

  lemma Regrouped(whole: string, a: char, b: char)
    ensures whole + ['.', a, b] == whole + "." + [a] + [b] == whole + ("." + [a, b])
    ensures whole + "." + [a] == whole + ("." + [a])
  {
  }

  /** What is left of `toFixed(2)` when trailing zeros and a trailing point are stripped. */
  lemma StrippedForms(whole: string, a: char, b: char)
    requires IsDigit(a) && IsDigit(b)
    ensures StripPoint(StripZeros(whole + ['.', a, b]))
         == if b != '0' then whole + ("." + [a, b]) else if a != '0' then whole + ("." + [a]) else whole
  {
    Regrouped(whole, a, b);
    StripLast(whole + "." + [a], b);
    if b == '0' {
      StrippedTenths(whole, a);
    }
  }

  lemma DigitsOfHundredths(n: nat)
    ensures n as real / 100.0 == (n / 100) as real + ((n / 10 % 10) as real + (n % 10) as real / 10.0) / 10.0
  {
    assert n == 100 * (n / 100) + 10 * (n / 10 % 10) + n % 10;
  }

  lemma OneAfterPoint(a: char)
    requires IsDigit(a)
    ensures AllDigits([a]) && AfterPoint([a]) == DigitValue(a) as real / 10.0
  {
    assert [a][1..] == "";
  }

  lemma TwoAfterPoint(a: char, b: char)
    requires IsDigit(a) && IsDigit(b)
    ensures AllDigits([a, b]) && AfterPoint([a, b]) == (DigitValue(a) as real + DigitValue(b) as real / 10.0) / 10.0
  {
    assert [a, b][1..] == [b];
    OneAfterPoint(b);
  }

  /** Digits, a point and two more digits, read the same without the zeros at the end. */
  lemma StrippedReads(s: string, whole: string, a: char, b: char, v: real)
    requires whole != "" && AllDigits(whole) && IsDigit(a) && IsDigit(b)
    requires v == ToNat(whole) as real + (DigitValue(a) as real + DigitValue(b) as real / 10.0) / 10.0
    requires s == if b != '0' then whole + ("." + [a, b]) else if a != '0' then whole + ("." + [a]) else whole
    ensures AmountIn(s) == Some(Decimal(Finite(v)))
  {
    if b != '0' {
      TwoAfterPoint(a, b);
      DecimalReads(whole, [a, b], v);
    } else if a != '0' {
      OneAfterPoint(a);
      DecimalReads(whole, [a], v);
    } else {
      WholeReads(whole, v);
    }
  }

  lemma HundredthsRead(n: nat, v: real)
    requires v == n as real / 100.0
    ensures AmountIn(StripPoint(StripZeros(FixedText(n)))) == Some(Decimal(Finite(v)))
  {
    var whole, a, b := Digits(n / 100), DigitOf(n / 10 % 10), DigitOf(n % 10);
    DigitsRead(n / 100);
    DigitsOfHundredths(n);
    StrippedForms(whole, a, b);
    StrippedReads(StripPoint(StripZeros(FixedText(n))), whole, a, b, v);
  }

  /** Two decimals are within half a hundredth of the value. */
  lemma ShortDecimalReads(v: real) returns (r: real)
    requires v >= 0.0
    ensures AmountIn(ShortDecimal(v)) == Some(Decimal(Finite(r))) && Distance(r, v) <= 0.005
  {
    if v == v.Floor as real {
      DigitsRead(v.Floor);
      WholeReads(Digits(v.Floor), v);
      r := v;
    } else {
      var n := Hundredths(v);
      r := n as real / 100.0;
      HundredthsRead(n, r);
    }
  }

  // ---------- the fractions ----------

  lemma {:induction false} NearestIsListed(rem: real, fractions: seq<Nice>) returns (f: Nice)
    requires FirstNear(rem, fractions).Some?
    ensures f in fractions && f.text == FirstNear(rem, fractions).value && Distance(rem, f.near) < 0.04
    decreases |fractions|
  {
    if Distance(rem, fractions[0].near) < 0.04 {
      f := fractions[0];
    } else {
      f := NearestIsListed(rem, fractions[1..]);
    }
  }

  lemma NiceIsClose(f: Nice) returns (r: real)
    requires f in FRACTIONS
    ensures Simple(f.text) && Quotient(PartOf(f.text).over, PartOf(f.text).under) == Finite(r)
    ensures Distance(r, f.near) < 0.001
  {
    r := PartOf(f.text).over as real / PartOf(f.text).under as real;
  }

  // ---------- the printing bound ----------

  lemma FractionPrints(s: string, whole: nat, text: string)
    requires Simple(text)
    requires s == if whole > 0 then Digits(whole) + " " + text else text
    ensures AmountIn(s) == Some(if whole > 0 then Mixed(whole, PartOf(text)) else Proper(PartOf(text)))
  {
    if whole > 0 {
      var digits := Digits(whole);
      assert s == digits + (" " + text);
      DigitsRead(whole);
      MixedReads(digits, text);
    } else {
      FractionReads(text);
    }
  }

  lemma FractionValue(whole: nat, f: Fraction, part: real, r: real)
    requires Quotient(f.over, f.under) == Finite(part) && r == whole as real + part
    ensures ValueOf(if whole > 0 then Mixed(whole, f) else Proper(f)) == Finite(r)
  {
  }

  lemma PrintedReads(v: real, decimal: bool) returns (a: Amount, r: real)
    requires if decimal then v > 0.0 else v >= 0.05
    ensures AmountIn(FormatQty(v, decimal)) == Some(a) && ValueOf(a) == Finite(r)
    ensures Distance(r, v) < 0.05 && (decimal ==> Distance(r, v) <= 0.005)
  {
    var rem := v - v.Floor as real;
    if decimal {
      r := ShortDecimalReads(v);
      a := Decimal(Finite(r));
    } else if rem < 0.05 {
      DigitsRead(v.Floor);
      r := v.Floor as real;
      WholeReads(Digits(v.Floor), r);
      a := Decimal(Finite(r));
    } else if FirstNear(rem, FRACTIONS).Some? {
      var f := NearestIsListed(rem, FRACTIONS);
      var part := NiceIsClose(f);
      FractionPrints(FormatQty(v, decimal), v.Floor, f.text);
      r := v.Floor as real + part;
      FractionValue(v.Floor, PartOf(f.text), part, r);
      a := if v.Floor > 0 then Mixed(v.Floor, PartOf(f.text)) else Proper(PartOf(f.text));
    } else {
      r := ShortDecimalReads(v);
      a := Decimal(Finite(r));
    }
  }

  lemma EmptyIsNotRead()
    ensures ParseQty("") == None
  {
  }

  /**
   A quantity is printed legibly exactly when it is at least 0.05 (positive, for units shown in
   decimals), and what is read back is then less than 0.05 away (at most 0.005 in decimals).
   */
  lemma PrintedIsReadIff(v: real, decimal: bool) returns (r: real)
    ensures ParseQty(FormatQty(v, decimal)).Some? <==> if decimal then v > 0.0 else v >= 0.05
    ensures (if decimal then v > 0.0 else v >= 0.05) ==>
      && ParseQty(FormatQty(v, decimal)) == Some(Finite(r))
      && Distance(r, v) < 0.05 && (decimal ==> Distance(r, v) <= 0.005)
  {
    r := v;
    if (decimal && v > 0.0) || (!decimal && v >= 0.05) {
      var a;
      a, r := PrintedReads(v, decimal);
      NumeralIsRead(FormatQty(v, decimal), a);
    } else {
      assert FormatQty(v, decimal) == "";
      EmptyIsNotRead();
    }
  }
}
