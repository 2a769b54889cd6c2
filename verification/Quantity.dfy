/**
 Quantities of ingredients: normalised, read, printed and scaled, in exact arithmetic on reals.
 A quotient by zero is kept as the infinity or NaN that the original computes.
 */
module Quantity {
  import opened Text
  import opened Wrappers

  datatype Number = Finite(value: real) | Infinite(positive: bool) | NaN

  function Plus(x: Number, y: Number): Number {
    if x.NaN? || y.NaN? then NaN
    else if x.Infinite? && y.Infinite? then if x == y then x else NaN
    else if x.Infinite? then x
    else if y.Infinite? then y
    else Finite(x.value + y.value)
  }

  function Negate(x: Number): Number {
    match x
    case Finite(v) => Finite(-v)
    case Infinite(p) => Infinite(!p)
    case NaN => NaN
  }

  function Times(x: Number, k: real): Number {
    match x
    case Finite(v) => Finite(v * k)
    case Infinite(p) => if k == 0.0 then NaN else Infinite(p == (k > 0.0))
    case NaN => NaN
  }

  function Quotient(n: nat, d: nat): Number {
    if d != 0 then Finite(n as real / d as real) else if n == 0 then NaN else Infinite(true)
  }

  // ---------- normalising ----------

  predicate IsDigit(c: char) {
    '0' <= c <= '9'
  }

  predicate AllDigits(s: string) {
    forall k :: 0 <= k < |s| ==> IsDigit(s[k])
  }

  function Straight(c: char): char {
    if c == '\U{2012}' || c == '\U{2013}' || c == '\U{2014}' || c == '\U{2015}' then '-'
    else if c == '\U{00A0}' || c == '\U{2009}' || c == '\U{202F}' then ' '
    else c
  }

  function StraightAll(s: string): (r: string)
    ensures |r| == |s| && forall k :: 0 <= k < |s| ==> r[k] == Straight(s[k])
  {
    seq(|s|, k requires 0 <= k < |s| => Straight(s[k]))
  }

  /** The spelled-out form of a fraction character; empty for any other character. */
  function Vulgar(c: char): string {
    if c == '\U{00BC}' then "1/4" else if c == '\U{00BD}' then "1/2" else if c == '\U{00BE}' then "3/4"
    else if c == '\U{2153}' then "1/3" else if c == '\U{2154}' then "2/3"
    else if c == '\U{215B}' then "1/8" else if c == '\U{215C}' then "3/8"
    else if c == '\U{215D}' then "5/8" else if c == '\U{215E}' then "7/8"
    else ""
  }

  function SpellFractions(s: string): string {
    if s == "" then ""
    else if IsDigit(s[0]) && |s| > 1 && Vulgar(s[1]) != "" then [s[0]] + " " + Vulgar(s[1]) + SpellFractions(s[2..])
    else if Vulgar(s[0]) != "" then Vulgar(s[0]) + SpellFractions(s[1..])
    else [s[0]] + SpellFractions(s[1..])
  }

  /** Matches do not overlap: the digit after a comma is not looked at again. */
  function PointForComma(s: string): string {
    if s == "" then ""
    else if |s| >= 3 && IsDigit(s[0]) && s[1] == ',' && IsDigit(s[2]) then [s[0], '.', s[2]] + PointForComma(s[3..])
    else [s[0]] + PointForComma(s[1..])
  }

  function Normalize(s: string): string {
    PointForComma(SpellFractions(StraightAll(s)))
  }

  // ---------- reading ----------

  function DigitRun(s: string): (n: nat)
    ensures n <= |s| && AllDigits(s[..n])
  {
    if s != "" && IsDigit(s[0]) then
      var n := DigitRun(s[1..]);
      assert s[..1 + n] == [s[0]] + s[1..][..n];
      1 + n
    else 0
  }

  function SpaceRun(s: string): (n: nat)
    ensures n <= |s|
  {
    if s != "" && IsSpace(s[0]) then 1 + SpaceRun(s[1..]) else 0
  }

  function DigitValue(c: char): nat
    requires IsDigit(c)
  {
    c as int - '0' as int
  }

  function ToNat(s: string): nat
    requires AllDigits(s)
  {
    if s == "" then 0 else 10 * ToNat(s[..|s| - 1]) + DigitValue(s[|s| - 1])
  }

  /** The number with its decimal point moved `n` places. */
  function MovePoint(m: real, n: nat, left: bool): real
    decreases n
  {
    if n == 0 then m else MovePoint(if left then m / 10.0 else m * 10.0, n - 1, left)
  }

  datatype Fraction = Fraction(over: nat, under: nat)

  /** `^(\d+)\/(\d+)$`. */
  function ReadFraction(s: string): Option<Fraction> {
    var n := DigitRun(s);
    if n == 0 || n >= |s| || s[n] != '/' then None
    else
      var rest := s[n + 1..];
      if rest == "" || DigitRun(rest) != |rest| then None
      else
        assert rest[..|rest|] == rest;
        Some(Fraction(ToNat(s[..n]), ToNat(rest)))
  }

  /** What a quantity was written as. */
  datatype Amount = Mixed(whole: nat, part: Fraction) | Proper(part: Fraction) | Decimal(number: Number)

  function ValueOf(a: Amount): Number {
    match a
    case Mixed(whole, part) => Plus(Finite(whole as real), Quotient(part.over, part.under))
    case Proper(part) => Quotient(part.over, part.under)
    case Decimal(number) => number
  }

  /** `^(\d+)\s+(\d+)\/(\d+)$`. */
  function ReadMixed(s: string): Option<Amount> {
    var n := DigitRun(s);
    var gap := SpaceRun(s[n..]);
    if n == 0 || gap == 0 then None
    else
      match ReadFraction(s[n + gap..])
      case None => None
      case Some(f) => Some(Mixed(ToNat(s[..n]), f))
  }

  /** The value of digits after a decimal point. */
  function AfterPoint(digits: string): real
    requires AllDigits(digits)
  {
    if digits == "" then 0.0 else (DigitValue(digits[0]) as real + AfterPoint(digits[1..])) / 10.0
  }

  /** The number times the power of ten of an exponent at the front of the text, if there is one. */
  function WithExponent(m: real, s: string): real {
    if s == "" || Lower(s[0]) != 'e' then m
    else
      var negative := |s| > 1 && s[1] == '-';
      var digits := if |s| > 1 && (s[1] == '-' || s[1] == '+') then s[2..] else s[1..];
      MovePoint(m, ToNat(digits[..DigitRun(digits)]), negative)
  }

  /** The longest decimal literal at the front of the text. */
  function ReadDecimal(s: string): Option<real> {
    var i := DigitRun(s);
    var point := i < |s| && s[i] == '.';
    var j := if point then DigitRun(s[i + 1..]) else 0;
    if i == 0 && j == 0 then None
    else if point then
      Some(WithExponent(ToNat(s[..i]) as real + AfterPoint(s[i + 1..][..j]), s[i + 1..][j..]))
    else Some(WithExponent(ToNat(s[..i]) as real, s[i..]))
  }

  function ParseFloat(text: string): Number {
    var s := TrimStart(text);
    var negative := s != "" && s[0] == '-';
    var t := if s != "" && (s[0] == '-' || s[0] == '+') then s[1..] else s;
    if StartsWith(t, "Infinity") then Infinite(!negative)
    else
      match ReadDecimal(t)
      case None => NaN
      case Some(v) => Finite(if negative then -v else v)
  }

  function ReadAmount(s: string): Option<Amount> {
    if ReadMixed(s).Some? then ReadMixed(s)
    else
      match ReadFraction(s)
      case Some(f) => Some(Proper(f))
      case None => if ParseFloat(s) == NaN then None else Some(Decimal(ParseFloat(s)))
  }

  function ParseQty(s: string): Option<Number> {
    var t := Trim(Normalize(s));
    if t == "" then None
    else
      match ReadAmount(if t[0] == '~' then TrimStart(t[1..]) else t)
      case Some(a) => Some(ValueOf(a))
      case None => None
  }

  // ---------- printing ----------

  function DigitOf(n: nat): (c: char)
    requires n < 10
    ensures IsDigit(c) && DigitValue(c) == n
  {
    '0' + n as char
  }

  function Digits(n: nat): string {
    if n < 10 then [DigitOf(n)] else Digits(n / 10) + [DigitOf(n % 10)]
  }

  function StripZeros(s: string): string {
    if s != "" && s[|s| - 1] == '0' then StripZeros(s[..|s| - 1]) else s
  }

  function StripPoint(s: string): string {
    if s != "" && s[|s| - 1] == '.' then s[..|s| - 1] else s
  }

  /** `toFixed(2)`: the nearest number of hundredths, the larger of two equally near. */
  function Hundredths(value: real): nat
    requires value >= 0.0
  {
    (100.0 * value + 0.5).Floor
  }

  function FixedText(n: nat): string {
    Digits(n / 100) + ['.', DigitOf(n / 10 % 10), DigitOf(n % 10)]
  }

  function ShortDecimal(value: real): string
    requires value >= 0.0
  {
    if value == value.Floor as real then Digits(value.Floor)
    else StripPoint(StripZeros(FixedText(Hundredths(value))))
  }

  datatype Nice = Nice(near: real, text: string)

  const FRACTIONS: seq<Nice> := [
    Nice(0.125, "1/8"), Nice(0.25, "1/4"), Nice(0.333, "1/3"), Nice(0.375, "3/8"),
    Nice(0.5, "1/2"), Nice(0.625, "5/8"), Nice(0.667, "2/3"), Nice(0.75, "3/4"), Nice(0.875, "7/8")]

  function Distance(x: real, y: real): real {
    if x < y then y - x else x - y
  }

  function FirstNear(rem: real, fractions: seq<Nice>): Option<string> {
    if fractions == [] then None
    else if Distance(rem, fractions[0].near) < 0.04 then Some(fractions[0].text)
    else FirstNear(rem, fractions[1..])
  }

  function FormatQty(value: real, decimal: bool): string {
    if value <= 0.0 then ""
    else if decimal then ShortDecimal(value)
    else
      var whole := value.Floor;
      var rem := value - whole as real;
      if rem < 0.05 then if whole == 0 then "" else Digits(whole)
      else
        match FirstNear(rem, FRACTIONS)
        case Some(text) => if whole > 0 then Digits(whole) + " " + text else text
        case None => ShortDecimal(value)
  }

  function FormatNumber(x: Number): string {
    match x
    case Finite(v) => FormatQty(v, false)
    case Infinite(positive) => if positive then "Infinity" else ""
    case NaN => "NaN"
  }

  // ---------- scaling ----------

  predicate IsLineBreak(c: char) {
    c == '\n' || c == '\r' || c == '\U{2028}' || c == '\U{2029}'
  }

  predicate OneLine(s: string) {
    forall c :: c in s ==> !IsLineBreak(c)
  }

  predicate RangeWord(s: string) {
    SameWord(s, "to") || SameWord(s, "or")
  }

  datatype Words = Words(first: string, word: string, second: string)

  /** The word range whose first part is the first `i` characters, if there is one. */
  function WordsAt(s: string, i: nat): Option<Words>
    requires i <= |s|
  {
    var gap := SpaceRun(s[i..]);
    var j := i + gap;
    if gap == 0 || |s| < j + 2 || !RangeWord(s[j..j + 2]) then None
    else
      var after := s[j + 2..];
      var second := after[SpaceRun(after)..];
      if SpaceRun(after) == 0 || second == "" || !OneLine(s[..i]) || !OneLine(second) then None
      else Some(Words(s[..i], s[j..j + 2], second))
  }

  /** `^(.+?)\s+(to|or)\s+(.+)$` on a trimmed text: the shortest first part that fits. */
  function FindWords(s: string, i: nat): Option<Words>
    decreases |s| - i
  {
    if i >= |s| then None
    else if WordsAt(s, i).Some? then WordsAt(s, i)
    else FindWords(s, i + 1)
  }

  /** The two ends of a range and the text between them when it is printed again. */
  datatype Range = Range(low: Number, high: Number, glue: string)

  predicate IsGlue(glue: string) {
    glue == "-" || (|glue| == 4 && glue == [' ', glue[1], glue[2], ' '] && RangeWord(glue[1..3]))
  }

  function EndsOf(first: string, second: string, glue: string): (r: Option<Range>)
    ensures r.Some? ==> r.value.glue == glue
  {
    match (ParseQty(first), ParseQty(second))
    case (Some(a), Some(b)) => Some(Range(a, b, glue))
    case _ => None
  }

  function WordRange(s: string): (r: Option<Range>)
    ensures r.Some? ==> IsGlue(r.value.glue)
  {
    match FindWords(s, 1)
    case None => None
    case Some(w) => WordGlue(s, 1); EndsOf(w.first, w.second, " " + w.word + " ")
  }

  lemma {:induction false} WordGlue(s: string, i: nat)
    ensures FindWords(s, i).Some? ==> IsGlue(" " + FindWords(s, i).value.word + " ")
    decreases |s| - i
  {
    if i < |s| && WordsAt(s, i).Some? {
      var glue := " " + WordsAt(s, i).value.word + " ";
      assert glue[1..3] == WordsAt(s, i).value.word;
    } else if i < |s| {
      WordGlue(s, i + 1);
    }
  }

  function HyphenRange(s: string): (r: Option<Range>)
    ensures r.Some? ==> r.value.glue == "-"
  {
    var pieces := Split(s, '-');
    if |pieces| == 2 then EndsOf(TrimEnd(pieces[0]), TrimStart(pieces[1]), "-") else None
  }

  function RangeOf(s: string): (r: Option<Range>)
    ensures r.Some? ==> IsGlue(r.value.glue)
  {
    if WordRange(s).Some? then WordRange(s) else HyphenRange(s)
  }

  /** The lower end is scaled and the distance between the ends is kept. */
  function ScaleRange(range: Range, factor: real): string {
    var base := Times(range.low, factor);
    FormatNumber(base) + range.glue + FormatNumber(Plus(base, Plus(range.high, Negate(range.low))))
  }

  /** What follows `^(~\s*)` when something does. */
  function AfterTilde(s: string): Option<string> {
    if |s| < 2 || s[0] != '~' then None
    else
      var rest := TrimStart(s[1..]);
      Some(if rest == "" then s[|s| - 1..] else rest)
  }

  function Tildes(s: string): nat {
    if s == "" then 0 else (if s[0] == '~' then 1 else 0) + Tildes(s[1..])
  }

  function ScaleQty(raw: string, factor: real): string
    decreases Tildes(raw)
  {
    if factor == 1.0 then raw
    else
      var trimmed := Trim(raw);
      if trimmed != "" && trimmed[0] == '*' then trimmed[1..]
      else
        var normalized := Normalize(trimmed);
        match AfterTilde(normalized)
        case Some(inner) => TildeIsDropped(raw); "~" + ScaleQty(inner, factor)
        case None =>
          match RangeOf(normalized)
          case Some(range) => ScaleRange(range, factor)
          case None =>
            match ParseQty(raw)
            case None => raw
            case Some(n) => FormatNumber(Times(n, factor))
  }

  lemma {:induction false} TildesJoin(a: string, b: string)
    ensures Tildes(a + b) == Tildes(a) + Tildes(b)
  {
    if a == "" {
      assert a + b == b;
    } else {
      assert (a + b)[1..] == a[1..] + b;
      TildesJoin(a[1..], b);
    }
  }

  lemma {:induction false} StraightKeepsTildes(s: string)
    ensures Tildes(StraightAll(s)) == Tildes(s)
  {
    if s != "" {
      assert StraightAll(s)[1..] == StraightAll(s[1..]);
      StraightKeepsTildes(s[1..]);
    }
  }

  lemma ThreeTildes(s: string)
    requires |s| == 3 && s[0] != '~' && s[1] != '~' && s[2] != '~'
    ensures Tildes(s) == 0
  {
    assert s == [s[0]] + ([s[1]] + [s[2]]);
    TildesJoin([s[0]], [s[1]] + [s[2]]);
    TildesJoin([s[1]], [s[2]]);
    NoTilde(s[0]);
    NoTilde(s[1]);
    NoTilde(s[2]);
  }

  lemma NoTilde(c: char)
    requires c != '~'
    ensures Tildes([c]) == 0
  {
    assert [c][1..] == "";
  }

  lemma VulgarTildes(c: char)
    ensures Vulgar(c) != "" ==> Tildes(Vulgar(c)) == 0 && c != '~'
  {
    if Vulgar(c) != "" { ThreeTildes(Vulgar(c)); }
  }

  lemma {:induction false} SpellKeepsTildes(s: string)
    ensures Tildes(SpellFractions(s)) == Tildes(s)
    decreases |s|
  {
    if s != "" {
      VulgarTildes(s[0]);
      if IsDigit(s[0]) && |s| > 1 && Vulgar(s[1]) != "" {
        VulgarTildes(s[1]);
        SpellKeepsTildes(s[2..]);
        TildesJoin([s[0]] + " ", Vulgar(s[1]));
        TildesJoin([s[0]] + " " + Vulgar(s[1]), SpellFractions(s[2..]));
        assert s[1..][1..] == s[2..];
        assert ([s[0]] + " ")[1..] == " ";
      } else {
        SpellKeepsTildes(s[1..]);
        TildesJoin(if Vulgar(s[0]) != "" then Vulgar(s[0]) else [s[0]], SpellFractions(s[1..]));
      }
    }
  }

  lemma {:induction false} PointKeepsTildes(s: string)
    ensures Tildes(PointForComma(s)) == Tildes(s)
    decreases |s|
  {
    if s != "" {
      if |s| >= 3 && IsDigit(s[0]) && s[1] == ',' && IsDigit(s[2]) {
        PointKeepsTildes(s[3..]);
        var t := [s[0], '.', s[2]] + PointForComma(s[3..]);
        assert s[1..][1..][1..] == s[3..] && t[1..][1..][1..] == PointForComma(s[3..]);
        assert Tildes(s[1..][1..]) == Tildes(s[3..]) && Tildes(t[1..][1..]) == Tildes(t[1..][1..][1..]);
      } else {
        PointKeepsTildes(s[1..]);
        assert ([s[0]] + PointForComma(s[1..]))[1..] == PointForComma(s[1..]);
      }
    }
  }

  lemma {:induction false} TrimStartTildes(s: string)
    ensures Tildes(TrimStart(s)) <= Tildes(s)
  {
    if s != "" && IsSpace(s[0]) {
      TrimStartTildes(s[1..]);
    }
  }

  lemma {:induction false} TrimEndTildes(s: string)
    ensures Tildes(TrimEnd(s)) <= Tildes(s)
  {
    if s != "" && IsSpace(s[|s| - 1]) {
      assert s == s[..|s| - 1] + [s[|s| - 1]];
      TildesJoin(s[..|s| - 1], [s[|s| - 1]]);
      TrimEndTildes(s[..|s| - 1]);
    }
  }

  lemma NormalizeKeepsTildes(s: string)
    ensures Tildes(Normalize(s)) == Tildes(s)
  {
    StraightKeepsTildes(s);
    SpellKeepsTildes(StraightAll(s));
    PointKeepsTildes(SpellFractions(StraightAll(s)));
  }

  lemma AfterTildeDropsOne(s: string)
    ensures AfterTilde(s).Some? ==> Tildes(AfterTilde(s).value) < Tildes(s)
  {
    if |s| >= 2 && s[0] == '~' {
      TrimStartTildes(s[1..]);
      assert s[1..] == s[1..|s| - 1] + s[|s| - 1..];
      TildesJoin(s[1..|s| - 1], s[|s| - 1..]);
    }
  }

  /** Scaling what follows a tilde deals with a text that has fewer tildes. */
  lemma TildeIsDropped(raw: string)
    ensures var inner := AfterTilde(Normalize(Trim(raw)));
      inner.Some? ==> Tildes(inner.value) < Tildes(raw)
  {
    TrimStartTildes(raw);
    TrimEndTildes(TrimStart(raw));
    NormalizeKeepsTildes(Trim(raw));
    AfterTildeDropsOne(Normalize(Trim(raw)));
  }
}
