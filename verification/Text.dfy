/** The string operations of ECMAScript that the search and ingredient code lean on. */
module Text {
  /** What both `\s` and `trim` take for white space. */
  predicate IsSpace(c: char) {
    || '\t' <= c <= '\r'
    || c == ' ' || c == '\U{00A0}' || c == '\U{1680}'
    || '\U{2000}' <= c <= '\U{200A}'
    || c == '\U{2028}' || c == '\U{2029}' || c == '\U{202F}' || c == '\U{205F}'
    || c == '\U{3000}' || c == '\U{FEFF}'
  }

  predicate Blank(s: string) {
    forall c :: c in s ==> IsSpace(c)
  }

  function TrimStart(s: string): string {
    if s != "" && IsSpace(s[0]) then TrimStart(s[1..]) else s
  }

  function TrimEnd(s: string): string {
    if s != "" && IsSpace(s[|s| - 1]) then TrimEnd(s[..|s| - 1]) else s
  }

  function Trim(s: string): string {
    TrimEnd(TrimStart(s))
  }

  predicate Trimmed(s: string) {
    s == "" || (!IsSpace(s[0]) && !IsSpace(s[|s| - 1]))
  }

  function Split(s: string, bar: char): (pieces: seq<string>)
    ensures pieces != []
  {
    if s == "" then [""]
    else
      var rest := Split(s[1..], bar);
      if s[0] == bar then [""] + rest else [[s[0]] + rest[0]] + rest[1..]
  }

  function Join(pieces: seq<string>, bar: char): string {
    if pieces == [] then ""
    else if |pieces| == 1 then pieces[0]
    else pieces[0] + [bar] + Join(pieces[1..], bar)
  }

  function Repeat(c: char, n: nat): (s: string)
    ensures |s| == n && forall d :: d in s ==> d == c
  {
    seq(n, _ => c)
  }

  /** Case folding, of the letters A to Z only, as a regular expression with just the `i` flag does it. */
  function Lower(c: char): char {
    if 'A' <= c <= 'Z' then c - 'A' + 'a' else c
  }

  predicate StartsWith(s: string, prefix: string) {
    prefix == "" || (s != "" && s[0] == prefix[0] && StartsWith(s[1..], prefix[1..]))
  }

  predicate SameWord(s: string, word: string) {
    |s| == |word| && forall k :: 0 <= k < |s| ==> Lower(s[k]) == Lower(word[k])
  }

  /** Trimming takes exactly the blanks around a trimmed text. */
  lemma {:induction false} TrimAround(before: string, s: string, after: string)
    requires Blank(before) && Blank(after) && Trimmed(s)
    ensures Trim(before + s + after) == s
    decreases |before| + |after|
  {
    if before != "" {
      assert (before + s + after)[0] == before[0] && before[0] in before;
      assert (before + s + after)[1..] == before[1..] + s + after;
      assert Blank(before[1..]);
      TrimAround(before[1..], s, after);
    } else {
      assert before + s + after == s + after;
      if s == "" {
        assert s + after == after;
        TrimBlank(after);
      } else {
        assert TrimStart(s + after) == s + after;
        TrimEndAfter(s, after);
      }
    }
  }

  lemma {:induction false} TrimBlank(s: string)
    requires Blank(s)
    ensures TrimStart(s) == ""
  {
    if s != "" {
      assert s[0] in s;
      assert Blank(s[1..]);
      TrimBlank(s[1..]);
    }
  }

  lemma {:induction false} TrimEndAfter(s: string, after: string)
    requires Blank(after) && s != "" && Trimmed(s)
    ensures TrimEnd(s + after) == s
    decreases |after|
  {
    if after == "" {
      assert s + after == s;
    } else {
      var n := |after| - 1;
      assert (s + after)[|s + after| - 1] == after[n] && after[n] in after;
      assert (s + after)[..|s + after| - 1] == s + after[..n];
      assert Blank(after[..n]);
      TrimEndAfter(s, after[..n]);
    }
  }

  lemma {:induction false} TrimStartTrims(s: string)
    ensures var t := TrimStart(s); t == "" || !IsSpace(t[0])
    ensures forall c :: c in TrimStart(s) ==> c in s
  {
    if s != "" && IsSpace(s[0]) {
      TrimStartTrims(s[1..]);
    }
  }

  lemma {:induction false} TrimEndTrims(s: string)
    ensures var t := TrimEnd(s); t == "" || (!IsSpace(t[|t| - 1]) && s != "" && t[0] == s[0])
    ensures forall c :: c in TrimEnd(s) ==> c in s
  {
    if s != "" && IsSpace(s[|s| - 1]) {
      TrimEndTrims(s[..|s| - 1]);
    }
  }

  lemma TrimTrims(s: string)
    ensures Trimmed(Trim(s))
    ensures forall c :: c in Trim(s) ==> c in s
  {
    TrimStartTrims(s);
    TrimEndTrims(TrimStart(s));
  }

  lemma {:induction false} SplitAfter(a: string, s: string, bar: char)
    requires bar !in a
    ensures Split(a + [bar] + s, bar) == [a] + Split(s, bar)
    decreases |a|
  {
    var whole := a + [bar] + s;
    if a == "" {
      assert whole[1..] == s;
    } else {
      assert whole[0] == a[0] && whole[1..] == a[1..] + [bar] + s;
      SplitAfter(a[1..], s, bar);
      assert [a[0]] + a[1..] == a;
    }
  }

  lemma {:induction false} SplitWhole(a: string, bar: char)
    requires bar !in a
    ensures Split(a, bar) == [a]
  {
    if a != "" {
      SplitWhole(a[1..], bar);
      assert [a[0]] + a[1..] == a;
    }
  }

  /** Splitting what was joined gives the pieces back when none of them holds the bar. */
  lemma {:induction false} SplitOfJoin(pieces: seq<string>, bar: char)
    requires pieces != []
    requires forall p :: p in pieces ==> bar !in p
    ensures Split(Join(pieces, bar), bar) == pieces
  {
    if |pieces| == 1 {
      SplitWhole(pieces[0], bar);
    } else {
      SplitAfter(pieces[0], Join(pieces[1..], bar), bar);
      SplitOfJoin(pieces[1..], bar);
    }
  }

  lemma {:induction false} PiecesAreFree(s: string, bar: char)
    ensures forall p :: p in Split(s, bar) ==> bar !in p
    ensures forall p, c :: p in Split(s, bar) && c in p ==> c in s
  {
    if s != "" {
      PiecesAreFree(s[1..], bar);
    }
  }
}
