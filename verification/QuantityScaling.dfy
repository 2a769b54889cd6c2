/** What scaling a written quantity does to the numbers in it. */
module QuantityScaling {
  import opened Text
  import opened Wrappers
  import opened Quantity
  import opened QuantityBounds

  /** Neither locked nor approximate. */
  predicate Bare(raw: string) {
    (Trim(raw) == "" || Trim(raw)[0] != '*') && AfterTilde(Normalize(Trim(raw))) == None
  }

  predicate Plain(raw: string) {
    Bare(raw) && RangeOf(Normalize(Trim(raw))) == None
  }

  lemma PlainIsScaled(raw: string, factor: real, n: Number)
    requires factor != 1.0 && Plain(raw) && ParseQty(raw) == Some(n)
    ensures ScaleQty(raw, factor) == FormatNumber(Times(n, factor))
  {
  }

  lemma FiniteIsPrinted(x: Number, v: real)
    requires x == Finite(v)
    ensures FormatNumber(x) == FormatQty(v, false)
  {
  }

  lemma TimesFinite(a: real, factor: real, scaled: real)
    requires scaled == a * factor
    ensures Times(Finite(a), factor) == Finite(scaled)
  {
  }

  lemma PlainIsPrinted(raw: string, factor: real, a: real, scaled: real)
    requires factor != 1.0 && Plain(raw) && ParseQty(raw) == Some(Finite(a)) && scaled == a * factor
    ensures ScaleQty(raw, factor) == FormatQty(scaled, false)
  {
    PlainIsScaled(raw, factor, Finite(a));
    TimesFinite(a, factor, scaled);
    FiniteIsPrinted(Times(Finite(a), factor), scaled);
  }

  // ---------- a tilde in front ----------

  lemma TildeIsReadPast(s: string)
    requires Numeral(s)
    ensures ParseQty("~" + s) == ParseQty(s)
  {
    var t := "~" + s;
    NumeralIsInert(s);
    assert Inert(t) && Trimmed(t) && t[1..] == s;
    NormalizeInert(s);
    NormalizeInert(t);
    TrimmedIsKept(s);
    TrimmedIsKept(t);
  }

  lemma TildeIsPrinted(raw: string, inner: string, factor: real)
    requires factor != 1.0 && (Trim(raw) == "" || Trim(raw)[0] != '*')
    requires AfterTilde(Normalize(Trim(raw))) == Some(inner)
    ensures ScaleQty(raw, factor) == "~" + ScaleQty(inner, factor)
  {
  }

  // ---------- ranges ----------

  lemma {:induction false} SpacesStop(s: string, k: nat)
    requires k < |s| && !IsSpace(s[k])
    ensures SpaceRun(s) <= k
    decreases k
  {
    if k > 0 {
      SpacesStop(s[1..], k - 1);
    }
  }

  lemma OneSpace(s: string)
    requires s != "" && !IsSpace(s[0])
    ensures SpaceRun(" " + s) == 1 && (" " + s)[1..] == s
  {
    SpacesStop(" " + s, 1);
  }

  predicate NotInWord(c: char) {
    Lower(c) != 't' && Lower(c) != 'o'
  }

  lemma NotRangeWord(s: string)
    requires |s| == 2 && NotInWord(s[0])
    ensures !RangeWord(s)
  {
  }

  lemma SpacesStopAt(s: string, i: nat, k: nat)
    requires i <= k < |s| && !IsSpace(s[k])
    ensures i + SpaceRun(s[i..]) <= k
  {
    assert s[i..][k - i] == s[k];
    SpacesStop(s[i..], k - i);
  }

  lemma NoWordsAt(s: string, i: nat, k: nat)
    requires i <= k < |s| && !IsSpace(s[k])
    requires forall j :: i <= j <= k ==> NotInWord(s[j])
    ensures WordsAt(s, i) == None
  {
    SpacesStopAt(s, i, k);
    var j := i + SpaceRun(s[i..]);
    if |s| >= j + 2 {
      assert s[j..j + 2][0] == s[j];
      NotRangeWord(s[j..j + 2]);
    }
  }

  lemma {:induction false} FirstWords(s: string, i: nat, k: nat)
    requires i <= k < |s| && WordsAt(s, k).Some?
    requires forall j :: i <= j < k ==> WordsAt(s, j) == None
    ensures FindWords(s, i) == WordsAt(s, k)
    decreases k - i
  {
    if i < k {
      FirstWords(s, i + 1, k);
    }
  }

  lemma {:induction false} NoWords(s: string, i: nat)
    requires forall j :: i <= j < |s| ==> WordsAt(s, j) == None
    ensures FindWords(s, i) == None
    decreases |s| - i
  {
    if i < |s| {
      NoWords(s, i + 1);
    }
  }

  lemma NumeralChars(s: string)
    requires Numeral(s)
    ensures forall k :: 0 <= k < |s| ==> NotInWord(s[k]) && s[k] != '-' && !IsLineBreak(s[k])
    ensures !IsSpace(s[0]) && !IsSpace(s[|s| - 1])
  {
    forall k | 0 <= k < |s| ensures NotInWord(s[k]) && s[k] != '-' && !IsLineBreak(s[k]) {
      assert NumeralChar(s[k]);
    }
  }

  /** What a quantity is printed as: a numeral, or nothing when it is too small. */
  predicate Printed(s: string) {
    s == "" || Numeral(s)
  }

  lemma PrintedChars(s: string)
    requires Printed(s)
    ensures forall k :: 0 <= k < |s| ==> NotInWord(s[k]) && s[k] != '-' && !IsLineBreak(s[k])
    ensures s != "" ==> !IsSpace(s[0]) && !IsSpace(s[|s| - 1])
    ensures Inert(s) && Trimmed(s)
  {
    if s != "" {
      NumeralChars(s);
      NumeralIsInert(s);
    }
  }

  lemma NoGap(s: string, i: nat)
    requires i < |s| && !IsSpace(s[i])
    ensures WordsAt(s, i) == None
  {
    assert s[i..][0] == s[i];
  }

  lemma NoWordsFrom(s: string, i: nat)
    requires s != "" && !IsSpace(s[|s| - 1])
    requires forall k :: i <= k < |s| ==> NotInWord(s[k])
    ensures FindWords(s, i) == None
  {
    forall j | i <= j < |s| ensures WordsAt(s, j) == None {
      NoWordsAt(s, j, |s| - 1);
    }
    NoWords(s, i);
  }

  lemma NumeralHasNoWords(s: string)
    requires Numeral(s)
    ensures FindWords(s, 1) == None && Split(s, '-') == [s]
  {
    NumeralChars(s);
    NoWordsFrom(s, 1);
    SplitWhole(s, '-');
  }

  /** A printed quantity is plain, so it can be scaled again. */
  lemma NumeralIsPlain(s: string)
    requires Numeral(s)
    ensures Plain(s)
  {
    NumeralIsInert(s);
    NormalizeInert(s);
    TrimmedIsKept(s);
    NumeralHasNoWords(s);
  }

  lemma WordGlueChars(glue: string)
    requires IsGlue(glue) && glue != "-"
    ensures |glue| == 4 && glue[0] == ' ' && glue[3] == ' ' && RangeWord(glue[1..3])
    ensures forall k :: 1 <= k < 3 ==> 'A' <= glue[k] <= 'z'
    ensures glue == " " + glue[1..3] + " "
  {
    var w := glue[1..3];
    assert w[0] == glue[1] && w[1] == glue[2];
    assert Lower(w[0]) == 't' || Lower(w[0]) == 'o';
    assert Lower(w[1]) == 'o' || Lower(w[1]) == 'r';
  }

  lemma WordsBetween(x: string, glue: string, y: string)
    requires Numeral(x) && Numeral(y) && IsGlue(glue) && glue != "-"
    ensures WordsAt(x + glue + y, |x|) == Some(Words(x, glue[1..3], y))
  {
    var s := x + glue + y;
    WordGlueChars(glue);
    NumeralChars(x);
    NumeralChars(y);
    var tail := glue[1..3] + " " + y;
    assert s[|x|..] == " " + tail;
    OneSpace(tail);
    assert s[|x| + 1..|x| + 3] == glue[1..3] && s[|x| + 3..] == " " + y;
    OneSpace(y);
    assert s[..|x|] == x;
  }

  lemma NoWordsBefore(x: string, rest: string, i: nat)
    requires Numeral(x) && i < |x|
    ensures WordsAt(x + rest, i) == None
  {
    NumeralChars(x);
    NoWordsAt(x + rest, i, |x| - 1);
  }

  lemma WordsAreFound(x: string, glue: string, y: string)
    requires Numeral(x) && Numeral(y) && IsGlue(glue) && glue != "-"
    ensures FindWords(x + glue + y, 1) == Some(Words(x, glue[1..3], y))
  {
    var s := x + glue + y;
    NumeralChars(x);
    forall i | 1 <= i < |x| ensures WordsAt(s, i) == None {
      NoWordsBefore(x, glue + y, i);
      assert x + (glue + y) == s;
    }
    WordsBetween(x, glue, y);
    FirstWords(s, 1, |x|);
  }

  lemma HyphenIsFound(x: string, y: string)
    requires Printed(x) && Printed(y)
    ensures FindWords(x + "-" + y, 1) == None && Split(x + "-" + y, '-') == [x, y]
  {
    var s := x + "-" + y;
    PrintedChars(x);
    PrintedChars(y);
    assert s[|s| - 1] == if y == "" then '-' else y[|y| - 1];
    NoWordsFrom(s, 1);
    SplitAfter(x, y, '-');
    SplitWhole(y, '-');
  }

  /** Two numerals with the text of a range between them are read as that range. */
  lemma RangeIsFound(x: string, glue: string, y: string, low: Number, high: Number)
    requires Numeral(x) && Numeral(y) && IsGlue(glue)
    requires ParseQty(x) == Some(low) && ParseQty(y) == Some(high)
    ensures RangeOf(x + glue + y) == Some(Range(low, high, glue))
  {
    if glue == "-" {
      HyphenIsFound(x, y);
      NumeralIsInert(x);
      NumeralIsInert(y);
      TrimmedIsKept(x);
      TrimmedIsKept(y);
    } else {
      WordsAreFound(x, glue, y);
      WordGlueChars(glue);
    }
  }

  lemma InertJoin(a: string, b: string)
    requires Inert(a) && Inert(b)
    ensures Inert(a + b)
  {
  }

  lemma GlueIsInert(glue: string)
    requires IsGlue(glue)
    ensures Inert(glue)
  {
    if glue != "-" {
      WordGlueChars(glue);
    }
  }

  lemma RangeIsKept(x: string, glue: string, y: string)
    requires Numeral(x) && Numeral(y) && IsGlue(glue)
    ensures Normalize(Trim(x + glue + y)) == x + glue + y && Bare(x + glue + y)
  {
    var s := x + glue + y;
    NumeralIsInert(x);
    NumeralIsInert(y);
    GlueIsInert(glue);
    InertJoin(x, glue);
    InertJoin(x + glue, y);
    assert s[0] == x[0] && s[|s| - 1] == y[|y| - 1];
    TrimmedIsKept(s);
    NormalizeInert(s);
  }

  // ---------- ranges with an end that is printed as nothing ----------

  lemma NoRange(s: string)
    requires FindWords(s, 1) == None && '-' !in s
    ensures RangeOf(s) == None
  {
    SplitWhole(s, '-');
  }

  lemma HyphenIsLost(x: string, y: string)
    requires Printed(x) && Printed(y) && (x == "" || y == "")
    ensures RangeOf(Normalize(Trim(x + "-" + y))) == None
  {
    var s := x + "-" + y;
    PrintedChars(x);
    PrintedChars(y);
    InertJoin(x, "-");
    InertJoin(x + "-", y);
    assert s[0] == (if x == "" then '-' else x[0]) && s[|s| - 1] == if y == "" then '-' else y[|y| - 1];
    TrimmedIsKept(s);
    NormalizeInert(s);
    HyphenIsFound(x, y);
    TrimmedIsKept(x);
    TrimmedIsKept(y);
    EmptyIsNotRead();
  }

  lemma WordChars(word: string)
    requires RangeWord(word)
    ensures |word| == 2 && Inert(word) && !IsSpace(word[0]) && !IsSpace(word[1]) && '-' !in word
  {
    assert Lower(word[0]) == 't' || Lower(word[0]) == 'o';
    assert Lower(word[1]) == 'o' || Lower(word[1]) == 'r';
  }

  lemma WordAtEnd(x: string, word: string, i: nat)
    requires Numeral(x) && RangeWord(word) && 1 <= i < |x| + 3
    ensures WordsAt(x + " " + word, i) == None
  {
    var s := x + " " + word;
    NumeralChars(x);
    WordChars(word);
    if i < |x| {
      NoWordsAt(s, i, |x| - 1);
    } else if i == |x| {
      assert s[i..] == " " + word;
      OneSpace(word);
      assert s[i + 3..] == "";
    } else {
      NoGap(s, i);
    }
  }

  lemma WordAlone(word: string)
    requires RangeWord(word)
    ensures RangeOf(Normalize(Trim(" " + word + " "))) == None
  {
    WordChars(word);
    TrimAround(" ", word, " ");
    NormalizeInert(word);
    NoGap(word, 1);
    NoRange(word);
  }

  lemma WordBefore(word: string, y: string)
    requires RangeWord(word) && Numeral(y)
    ensures FindWords(word + " " + y, 1) == None && '-' !in word + " " + y
  {
    var s := word + " " + y;
    WordChars(word);
    NumeralChars(y);
    assert s[1] == word[1] && s[|s| - 1] == y[|y| - 1];
    NoGap(s, 1);
    NoWordsFrom(s, 2);
  }

  lemma LowEndIsLost(word: string, y: string)
    requires RangeWord(word) && Numeral(y)
    ensures RangeOf(Normalize(Trim(" " + (word + " " + y)))) == None
  {
    var s := word + " " + y;
    WordChars(word);
    NumeralIsInert(y);
    InertJoin(word, " ");
    InertJoin(word + " ", y);
    assert " " + s + "" == " " + s && s[0] == word[0] && s[|s| - 1] == y[|y| - 1];
    TrimAround(" ", s, "");
    NormalizeInert(s);
    WordBefore(word, y);
    NoRange(s);
  }

  lemma WordAfter(x: string, word: string)
    requires Numeral(x) && RangeWord(word)
    ensures FindWords(x + " " + word, 1) == None && '-' !in x + " " + word
  {
    var s := x + " " + word;
    WordChars(word);
    NumeralChars(x);
    forall i | 1 <= i < |s| ensures WordsAt(s, i) == None {
      WordAtEnd(x, word, i);
    }
    NoWords(s, 1);
  }

  lemma HighEndIsLost(x: string, word: string)
    requires Numeral(x) && RangeWord(word)
    ensures RangeOf(Normalize(Trim(x + " " + word + " "))) == None
  {
    var s := x + " " + word;
    WordChars(word);
    NumeralIsInert(x);
    InertJoin(x, " ");
    InertJoin(x + " ", word);
    assert "" + s + " " == s + " " && s[0] == x[0] && s[|s| - 1] == word[1];
    TrimAround("", s, " ");
    NormalizeInert(s);
    WordAfter(x, word);
    NoRange(s);
  }

  lemma RangeIsScaled(raw: string, factor: real, range: Range)
    requires factor != 1.0 && Bare(raw) && RangeOf(Normalize(Trim(raw))) == Some(range)
    ensures ScaleQty(raw, factor) == ScaleRange(range, factor)
  {
  }

  lemma RangeEnds(range: Range, factor: real, low: real, high: real)
    requires Times(range.low, factor) == Finite(low)
    requires Plus(Finite(low), Plus(range.high, Negate(range.low))) == Finite(high)
    ensures ScaleRange(range, factor) == FormatQty(low, false) + range.glue + FormatQty(high, false)
  {
    FiniteIsPrinted(Times(range.low, factor), low);
    FiniteIsPrinted(Plus(Times(range.low, factor), Plus(range.high, Negate(range.low))), high);
  }

  lemma RangeIsPrinted(raw: string, factor: real, a: real, b: real, glue: string, low: real, high: real)
    requires factor != 1.0 && Bare(raw)
    requires RangeOf(Normalize(Trim(raw))) == Some(Range(Finite(a), Finite(b), glue))
    requires low == a * factor && high == low + (b - a)
    ensures ScaleQty(raw, factor) == FormatQty(low, false) + glue + FormatQty(high, false)
  {
    RangeIsScaled(raw, factor, Range(Finite(a), Finite(b), glue));
    TimesFinite(a, factor, low);
    RangeEnds(Range(Finite(a), Finite(b), glue), factor, low, high);
  }

  lemma RangeIsLost(x: string, glue: string, y: string)
    requires Printed(x) && Printed(y) && (x == "" || y == "") && IsGlue(glue)
    ensures RangeOf(Normalize(Trim(x + glue + y))) == None
  {
    if glue == "-" {
      HyphenIsLost(x, y);
    } else {
      WordGlueChars(glue);
      WordIsLost(x, glue[1..3], y);
      assert x + " " + glue[1..3] + " " + y == x + glue + y;
    }
  }

  lemma WordIsLost(x: string, word: string, y: string)
    requires Printed(x) && Printed(y) && (x == "" || y == "") && RangeWord(word)
    ensures RangeOf(Normalize(Trim(x + " " + word + " " + y))) == None
  {
    if x == "" && y == "" {
      assert x + " " + word + " " + y == " " + word + " ";
      WordAlone(word);
    } else if x == "" {
      assert x + " " + word + " " + y == " " + (word + " " + y);
      LowEndIsLost(word, y);
    } else {
      assert x + " " + word + " " + y == x + " " + word + " ";
      HighEndIsLost(x, word);
    }
  }

  lemma SmallIsNothing(v: real)
    ensures Printed(FormatQty(v, false)) && (FormatQty(v, false) == "" <==> v < 0.05)
  {
    if v >= 0.05 {
      var _, _ := PrintedReads(v, false);
    }
  }

  /**
   A scaled range is a range again, with the same hyphen or word, exactly when neither printed end
   is below 0.05. Its lower end is then scaled, the distance between the ends is kept, and each end
   is printed within 0.05; so it can be scaled again.
   */
  lemma RangeScalesIff(raw: string, factor: real, a: real, b: real, glue: string, low: real, high: real)
    returns (x: real, y: real)
    requires factor != 1.0 && Bare(raw)
    requires RangeOf(Normalize(Trim(raw))) == Some(Range(Finite(a), Finite(b), glue))
    requires low == a * factor && high == low + (b - a)
    ensures RangeOf(Normalize(Trim(ScaleQty(raw, factor)))).Some? <==> low >= 0.05 && high >= 0.05
    ensures low >= 0.05 && high >= 0.05 ==>
      && RangeOf(Normalize(Trim(ScaleQty(raw, factor)))) == Some(Range(Finite(x), Finite(y), glue))
      && Distance(x, low) < 0.05 && Distance(y, high) < 0.05 && Bare(ScaleQty(raw, factor))
  {
    RangeIsPrinted(raw, factor, a, b, glue, low, high);
    if low >= 0.05 && high >= 0.05 {
      x, y := LegibleRange(low, glue, high);
    } else {
      x, y := low, high;
      SmallIsNothing(low);
      SmallIsNothing(high);
      RangeIsLost(FormatQty(low, false), glue, FormatQty(high, false));
    }
  }

  lemma LegibleRange(low: real, glue: string, high: real) returns (x: real, y: real)
    requires low >= 0.05 && high >= 0.05 && IsGlue(glue)
    ensures var text := FormatQty(low, false) + glue + FormatQty(high, false);
            RangeOf(Normalize(Trim(text))) == Some(Range(Finite(x), Finite(y), glue)) && Bare(text)
    ensures Distance(x, low) < 0.05 && Distance(y, high) < 0.05
  {
    var s, t := FormatQty(low, false), FormatQty(high, false);
    var p, q;
    p, x := PrintedReads(low, false);
    q, y := PrintedReads(high, false);
    NumeralIsRead(s, p);
    NumeralIsRead(t, q);
    RangeIsKept(s, glue, t);
    RangeIsFound(s, glue, t, Finite(x), Finite(y));
  }

  // ---------- plain and approximate quantities ----------

  /**
   Scaling a plain quantity prints a legible one exactly when the scaled amount is at least 0.05,
   and what is then read is less than 0.05 away from it. The printed quantity is plain again.
   */
  lemma PlainScalesIff(raw: string, factor: real, a: real, scaled: real) returns (r: real)
    requires factor != 1.0 && Plain(raw) && ParseQty(raw) == Some(Finite(a)) && scaled == a * factor
    ensures ParseQty(ScaleQty(raw, factor)).Some? <==> scaled >= 0.05
    ensures scaled >= 0.05 ==> ParseQty(ScaleQty(raw, factor)) == Some(Finite(r)) && Distance(r, scaled) < 0.05
    ensures scaled >= 0.05 ==> Plain(ScaleQty(raw, factor))
  {
    PlainIsPrinted(raw, factor, a, scaled);
    r := PrintedIsReadIff(scaled, false);
    if scaled >= 0.05 {
      var _, _ := PrintedReads(scaled, false);
      NumeralIsPlain(FormatQty(scaled, false));
    }
  }

  lemma TildeAlone()
    ensures ParseQty("~") == None
  {
    assert Inert("~") && "~"[1..] == "";
    NormalizeInert("~");
    TrimmedIsKept("~");
  }

  /**
   An approximate quantity keeps its tilde. It stays legible exactly when the scaled amount is at
   least 0.05, and is then scaled within the same bound.
   */
  lemma ApproximationScalesIff(raw: string, inner: string, factor: real, a: real, scaled: real) returns (r: real)
    requires factor != 1.0 && (Trim(raw) == "" || Trim(raw)[0] != '*')
    requires AfterTilde(Normalize(Trim(raw))) == Some(inner) && Plain(inner)
    requires ParseQty(inner) == Some(Finite(a)) && scaled == a * factor
    ensures StartsWith(ScaleQty(raw, factor), "~")
    ensures ParseQty(ScaleQty(raw, factor)).Some? <==> scaled >= 0.05
    ensures scaled >= 0.05 ==> ParseQty(ScaleQty(raw, factor)) == Some(Finite(r)) && Distance(r, scaled) < 0.05
  {
    TildeIsPrinted(raw, inner, factor);
    PlainIsPrinted(inner, factor, a, scaled);
    assert "~"[1..] == "";
    r := scaled;
    if scaled >= 0.05 {
      var amount;
      amount, r := PrintedReads(scaled, false);
      NumeralIsRead(FormatQty(scaled, false), amount);
      TildeIsReadPast(FormatQty(scaled, false));
    } else {
      SmallIsNothing(scaled);
      assert "~" + "" == "~";
      TildeAlone();
    }
  }
}
