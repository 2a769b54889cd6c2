/**
 fzfScore: greedy forward match, backward contraction to a short window, then a score. The score
 is stated on the positions of the matched characters, without the loop's bookkeeping.
 */
module Fuzzy {
  import opened Text
  import opened Wrappers

  const SCORE_MATCH := 16
  const SCORE_GAP_START := -3
  const SCORE_GAP_EXTENSION := -1
  const BONUS_BOUNDARY := 8
  const BONUS_BOUNDARY_WHITE := 10
  const BONUS_BOUNDARY_DELIMITER := 9
  const BONUS_CAMEL_123 := 7
  const BONUS_CONSECUTIVE := 4
  const BONUS_NON_WORD := 8
  const BONUS_FIRST_CHAR_MULTIPLIER := 2
  const MAX_GAP := 16
  const SPAN_FACTOR := 8

  datatype CharClass = White | NonWord | Delim | LowerCase | UpperCase | Number

  function ClassOf(c: char): CharClass {
    if c == ' ' || c == '\t' || c == '\n' || c == '\r' then White
    else if 'a' <= c <= 'z' then LowerCase
    else if 'A' <= c <= 'Z' then UpperCase
    else if '0' <= c <= '9' then Number
    else if c in ",;:|/" then Delim
    else NonWord
  }

  function BonusFor(prev: CharClass, cur: CharClass): (bonus: nat)
    ensures bonus <= BONUS_BOUNDARY_WHITE
  {
    if cur == White then BONUS_BOUNDARY_WHITE
    else if cur == NonWord || cur == Delim then BONUS_NON_WORD
    else if prev == White then BONUS_BOUNDARY_WHITE
    else if prev == Delim then BONUS_BOUNDARY_DELIMITER
    else if prev == NonWord then BONUS_BOUNDARY
    else if prev == LowerCase && cur == UpperCase then BONUS_CAMEL_123
    else if prev != Number && cur == Number then BONUS_CAMEL_123
    else 0
  }

  predicate Matches(text: string, i: int, c: char) {
    0 <= i < |text| && Lower(text[i]) == c
  }

  // ---- subsequences and the two greedy passes

  /** The characters of the pattern from `skip` on, as many as there are positions, are at these positions. */
  predicate Occurs(p: string, skip: nat, text: string, pos: seq<int>) {
    && skip + |pos| <= |p|
    && (forall i :: 0 <= i < |pos| ==> Matches(text, pos[i], p[skip + i]))
    && (forall i, j :: 0 <= i < j < |pos| ==> pos[i] < pos[j])
  }

  /** The pattern occurs in the text at these positions. */
  predicate Embeds(p: string, text: string, pos: seq<int>) {
    |pos| == |p| && Occurs(p, 0, text, pos)
  }

  /** Greedy match of as much of `p` as possible, left to right from `from`. */
  function Align(p: string, text: string, from: nat): (pos: seq<int>)
    ensures |pos| <= |p|
    decreases |text| - from
  {
    if p == "" || from >= |text| then []
    else if Lower(text[from]) == p[0] then [from] + Align(p[1..], text, from + 1)
    else Align(p, text, from + 1)
  }

  /** Greedy match right to left, below `end`. */
  function AlignBack(p: string, text: string, end: nat): (pos: seq<int>)
    requires end <= |text|
    ensures |pos| <= |p|
    decreases end
  {
    if p == "" || end == 0 then []
    else if Lower(text[end - 1]) == p[|p| - 1] then AlignBack(p[..|p| - 1], text, end - 1) + [end - 1]
    else AlignBack(p, text, end - 1)
  }

  lemma {:induction false} AlignEmbeds(p: string, text: string, from: nat)
    ensures var pos := Align(p, text, from);
            Occurs(p, 0, text, pos) && forall i :: 0 <= i < |pos| ==> from <= pos[i]
    decreases |text| - from
  {
    if p != "" && from < |text| {
      if Lower(text[from]) == p[0] {
        AlignEmbeds(p[1..], text, from + 1);
      } else {
        AlignEmbeds(p, text, from + 1);
      }
    }
  }

  /** The greedy match is complete if any match is, and is nowhere later. */
  lemma {:induction false} AlignIsEarliest(p: string, text: string, from: nat, pos: seq<int>)
    requires Embeds(p, text, pos) && (pos != [] ==> from <= pos[0])
    ensures |Align(p, text, from)| == |p|
    ensures forall i :: 0 <= i < |p| ==> Align(p, text, from)[i] <= pos[i]
    decreases |text| - from
  {
    if p != "" && from < |text| {
      if Lower(text[from]) == p[0] {
        var rest := pos[1..];
        assert forall i :: 0 <= i < |rest| ==> rest[i] == pos[i + 1] && p[1..][i] == p[i + 1];
        assert rest != [] ==> pos[0] < pos[1];
        AlignIsEarliest(p[1..], text, from + 1, rest);
        forall i | 0 <= i < |p| ensures Align(p, text, from)[i] <= pos[i] {
          if i > 0 { assert Align(p, text, from)[i] == Align(p[1..], text, from + 1)[i - 1]; }
        }
      } else {
        assert pos[0] != from;
        AlignIsEarliest(p, text, from + 1, pos);
      }
    }
  }

  lemma AddLast(p: string, text: string, pos: seq<int>, last: nat)
    requires |pos| < |p| && Matches(text, last, p[|p| - 1])
    requires Occurs(p[..|p| - 1], |p| - 1 - |pos|, text, pos) && forall i :: 0 <= i < |pos| ==> pos[i] < last
    ensures Occurs(p, |p| - 1 - |pos|, text, pos + [last])
  {
  }

  /** The positions are a match of the end of the pattern below `end`. */
  ghost predicate EmbedsBelow(p: string, text: string, pos: seq<int>, end: nat) {
    |pos| <= |p| && Occurs(p, |p| - |pos|, text, pos) && forall i :: 0 <= i < |pos| ==> pos[i] < end
  }

  lemma EmbedsBelowLast(p: string, text: string, pos: seq<int>, last: nat)
    requires p != "" && last < |text| && Matches(text, last, p[|p| - 1]) && EmbedsBelow(p[..|p| - 1], text, pos, last)
    ensures EmbedsBelow(p, text, pos + [last], last + 1)
  {
    AddLast(p, text, pos, last);
  }

  lemma NothingBelow(p: string, text: string, end: nat)
    ensures EmbedsBelow(p, text, [], end)
  {
  }

  lemma EmbedsBelowNext(p: string, text: string, pos: seq<int>, end: nat)
    requires EmbedsBelow(p, text, pos, end)
    ensures EmbedsBelow(p, text, pos, end + 1)
  {
  }

  lemma {:induction false} AlignBackEmbeds(p: string, text: string, end: nat)
    requires end <= |text|
    ensures EmbedsBelow(p, text, AlignBack(p, text, end), end)
    decreases end
  {
    if p == "" || end == 0 {
      NothingBelow(p, text, end);
    } else if Lower(text[end - 1]) == p[|p| - 1] {
      var init := p[..|p| - 1];
      AlignBackEmbeds(init, text, end - 1);
      EmbedsBelowLast(p, text, AlignBack(init, text, end - 1), end - 1);
    } else {
      AlignBackEmbeds(p, text, end - 1);
      EmbedsBelowNext(p, text, AlignBack(p, text, end - 1), end - 1);
    }
  }

  /** The backward match is complete if any match below `end` is, and is nowhere earlier. */
  lemma {:induction false} AlignBackIsLatest(p: string, text: string, end: nat, pos: seq<int>)
    requires end <= |text| && Embeds(p, text, pos) && (pos != [] ==> pos[|pos| - 1] < end)
    ensures |AlignBack(p, text, end)| == |p|
    ensures forall i :: 0 <= i < |p| ==> pos[i] <= AlignBack(p, text, end)[i]
    decreases end
  {
    if p != "" && end > 0 {
      if Lower(text[end - 1]) == p[|p| - 1] {
        var init := pos[..|pos| - 1];
        assert init != [] ==> pos[|init| - 1] < pos[|pos| - 1];
        assert Embeds(p[..|p| - 1], text, init);
        AlignBackIsLatest(p[..|p| - 1], text, end - 1, init);
        var back := AlignBack(p[..|p| - 1], text, end - 1);
        forall i | 0 <= i < |p| ensures pos[i] <= (back + [end - 1])[i] {
          if i < |init| { assert pos[i] == init[i]; }
        }
      } else {
        assert pos[|pos| - 1] != end - 1;
        AlignBackIsLatest(p, text, end - 1, pos);
      }
    }
  }

  /** A case-insensitive subsequence, for a lower-case pattern. */
  ghost predicate IsSubsequence(p: string, text: string) {
    exists pos :: Embeds(p, text, pos)
  }

  lemma SubsequenceIff(p: string, text: string)
    ensures IsSubsequence(p, text) <==> |Align(p, text, 0)| == |p|
  {
    AlignEmbeds(p, text, 0);
    var greedy := Align(p, text, 0);
    if |greedy| == |p| { assert Embeds(p, text, greedy); }
    if pos :| Embeds(p, text, pos) {
      AlignIsEarliest(p, text, 0, pos);
    }
  }

  /** The end of the earliest match, and the start of the shortest window that ends there. */
  function WindowEnd(p: string, text: string): (end: nat)
    requires p != "" && |Align(p, text, 0)| == |p|
    ensures end <= |text|
  {
    AlignEmbeds(p, text, 0);
    Align(p, text, 0)[|p| - 1] + 1
  }

  function WindowStart(p: string, text: string): nat
    requires p != "" && |Align(p, text, 0)| == |p|
  {
    var pos := AlignBack(p, text, WindowEnd(p, text));
    AlignBackEmbeds(p, text, WindowEnd(p, text));
    if pos == [] then 0 else pos[0]
  }

  /** A match that ends by the window's end starts no later than the window, and all matches end no earlier. */
  lemma WindowIsShortest(p: string, text: string, pos: seq<int>)
    requires p != "" && Embeds(p, text, pos)
    ensures |Align(p, text, 0)| == |p| && WindowEnd(p, text) <= pos[|pos| - 1] + 1
    ensures pos[|pos| - 1] < WindowEnd(p, text) ==> pos[0] <= WindowStart(p, text)
  {
    AlignIsEarliest(p, text, 0, pos);
    AlignEmbeds(p, text, 0);
    if pos[|pos| - 1] < WindowEnd(p, text) {
      AlignBackIsLatest(p, text, WindowEnd(p, text), pos);
    }
  }

  /** The greedy match from the window's start fills the window. */
  lemma WindowIsFilled(p: string, text: string)
    requires p != "" && |Align(p, text, 0)| == |p|
    ensures var s, e := WindowStart(p, text), WindowEnd(p, text);
            var pos := Align(p, text, s);
            s < e <= |text| && |AlignBack(p, text, e)| == |p| && |pos| == |p| && pos[0] == s && pos[|p| - 1] == e - 1
            && Align(p, text, 0)[0] <= s
  {
    AlignEmbeds(p, text, 0);
    var first := Align(p, text, 0);
    var e := WindowEnd(p, text);
    AlignBackIsLatest(p, text, e, first);
    AlignBackEmbeds(p, text, e);
    var back := AlignBack(p, text, e);
    AlignIsEarliest(p, text, back[0], back);
    AlignEmbeds(p, text, back[0]);
    AlignIsEarliest(p, text, 0, Align(p, text, back[0]));
  }

  // ---- the score of a match

  function ClassBefore(text: string, i: nat): CharClass
    requires i <= |text|
  {
    if i == 0 then White else ClassOf(text[i - 1])
  }

  /** The bonus of the character at `i`, from its class and that of the character before it. */
  function BonusAt(text: string, i: nat): (bonus: nat)
    requires i < |text|
    ensures bonus <= BONUS_BOUNDARY_WHITE
  {
    BonusFor(ClassBefore(text, i), ClassOf(text[i]))
  }

  predicate Within(pos: seq<int>, text: string) {
    forall i :: 0 <= i < |pos| ==> 0 <= pos[i] < |text|
  }

  /** Match `i` directly follows match `i - 1`. */
  predicate Adjacent(pos: seq<int>, i: nat) {
    0 < i < |pos| && pos[i] == pos[i - 1] + 1
  }

  /** The best bonus in the run of adjacent matches that ends with match `i`. */
  function RunBonus(text: string, pos: seq<int>, i: nat): (bonus: nat)
    requires i < |pos| && Within(pos, text)
    ensures bonus <= BONUS_BOUNDARY_WHITE
  {
    if Adjacent(pos, i) then Max(RunBonus(text, pos, i - 1), BonusAt(text, pos[i])) else BonusAt(text, pos[i])
  }

  /** How many characters lie between match `i` and the one before it. */
  function GapBefore(pos: seq<int>, i: nat): int
    requires 0 < i < |pos|
  {
    pos[i] - pos[i - 1] - 1
  }

  /** A gap of n characters costs 3 for the first and 1 for each further one. */
  function GapCost(n: int): int {
    if n <= 0 then 0 else SCORE_GAP_START + (n - 1) * SCORE_GAP_EXTENSION
  }

  function Points(text: string, pos: seq<int>, i: nat): int
    requires i < |pos| && Within(pos, text)
  {
    SCORE_MATCH +
    if i == 0 then BonusAt(text, pos[0]) * BONUS_FIRST_CHAR_MULTIPLIER
    else if Adjacent(pos, i) then Max(RunBonus(text, pos, i - 1), Max(BONUS_CONSECUTIVE, BonusAt(text, pos[i])))
    else BonusAt(text, pos[i]) + GapCost(GapBefore(pos, i))
  }

  /** The score of the first `n` matches. */
  function Total(text: string, pos: seq<int>, n: nat): int
    requires n <= |pos| && Within(pos, text)
  {
    if n == 0 then 0 else Total(text, pos, n - 1) + Points(text, pos, n - 1)
  }

  /** No gap between the first `n` matches is too wide. */
  predicate GapsWithin(pos: seq<int>, n: nat)
    requires n <= |pos|
  {
    forall i :: 0 < i < n ==> GapBefore(pos, i) <= MAX_GAP
  }

  /** Why a non-empty pattern scores: a match, its window not too long, no gap too wide. */
  ghost predicate Accepts(p: string, text: string) {
    && p != "" && IsSubsequence(p, text)
    && |Align(p, text, 0)| == |p|
    && WindowEnd(p, text) - WindowStart(p, text) <= |p| * SPAN_FACTOR
    && var pos := Align(p, text, WindowStart(p, text)); GapsWithin(pos, |pos|)
  }

  lemma {:induction false} TotalBounds(text: string, pos: seq<int>, n: nat)
    requires 0 < n <= |pos| && Within(pos, text)
    requires forall i, j :: 0 <= i < j < |pos| ==> pos[i] < pos[j]
    ensures Total(text, pos, n) >= SCORE_MATCH * n - (pos[n - 1] - pos[0] + 1 - n) - 2 * (n - 1)
    ensures Total(text, pos, n) <= 26 * n + 10
  {
    if n > 1 {
      TotalBounds(text, pos, n - 1);
      assert pos[n - 2] < pos[n - 1];
    }
  }

  /** Bounds of a score whose span is at most 8 times the pattern: the clamp at 0 never fires. */
  lemma ScoreBounds(p: string, text: string)
    requires Accepts(p, text)
    ensures var pos := Align(p, text, WindowStart(p, text));
            Within(pos, text) && 7 * |p| + 2 <= Total(text, pos, |pos|) <= 26 * |p| + 10
  {
    var pos := Align(p, text, WindowStart(p, text));
    WindowIsFilled(p, text);
    AlignEmbeds(p, text, WindowStart(p, text));
    TotalBounds(text, pos, |pos|);
  }

  // ---- the algorithm

  /** The greedy match `whole` still to come at `ti`, after `pi` of its characters. */
  ghost predicate Ahead(p: string, text: string, whole: seq<int>, pi: nat, ti: nat) {
    pi <= |whole| <= |p| && Align(p[pi..], text, ti) == whole[pi..]
  }

  lemma AheadStep(p: string, text: string, whole: seq<int>, pi: nat, ti: nat)
    requires Ahead(p, text, whole, pi, ti) && pi < |p| && ti < |text|
    ensures if Lower(text[ti]) == p[pi] then pi < |whole| && whole[pi] == ti && Ahead(p, text, whole, pi + 1, ti + 1)
            else Ahead(p, text, whole, pi, ti + 1)
  {
    assert p[pi..][1..] == p[pi + 1..];
    if Lower(text[ti]) == p[pi] {
      assert Align(p[pi..], text, ti)[1..] == Align(p[pi + 1..], text, ti + 1);
      assert whole[pi..][1..] == whole[pi + 1..];
    }
  }

  lemma AheadStart(p: string, text: string, from: nat)
    ensures Ahead(p, text, Align(p, text, from), 0, from)
  {
    assert p[0..] == p && Align(p, text, from)[0..] == Align(p, text, from);
  }

  /** At the end of the text nothing is left to match. */
  lemma AheadEnd(p: string, text: string, whole: seq<int>, pi: nat, ti: nat)
    requires Ahead(p, text, whole, pi, ti) && (ti >= |text| || pi == |p|)
    ensures |whole| == pi
  {
  }

  /** The forward pass: first occurrence of each pattern character; None when one is missing. */
  method Forward(pattern: string, text: string) returns (found: bool, startIdx: nat, endIdx: nat)
    requires pattern != ""
    ensures found <==> |Align(pattern, text, 0)| == |pattern|
    ensures found ==> startIdx == Align(pattern, text, 0)[0] && endIdx == WindowEnd(pattern, text)
  {
    var pi, ti := 0, 0;
    startIdx, endIdx := 0, 0;
    ghost var whole := Align(pattern, text, 0);
    AheadStart(pattern, text, 0);
    while ti < |text| && pi < |pattern|
      invariant ti <= |text| && pi <= |pattern| && Ahead(pattern, text, whole, pi, ti)
      invariant pi > 0 ==> startIdx == whole[0]
      invariant pi == |pattern| ==> endIdx == whole[pi - 1] + 1
    {
      AheadStep(pattern, text, whole, pi, ti);
      if Lower(text[ti]) == pattern[pi] {
        if pi == 0 { startIdx := ti; }
        pi := pi + 1;
        if pi == |pattern| { endIdx := ti + 1; }
      }
      ti := ti + 1;
    }
    AheadEnd(pattern, text, whole, pi, ti);
    found := pi == |pattern|;
  }

  /** The backward match `whole` still to come below `end`, with `n` of its characters left. */
  ghost predicate Behind(p: string, text: string, whole: seq<int>, n: nat, end: nat) {
    n <= |p| == |whole| && end <= |text| && AlignBack(p[..n], text, end) == whole[..n]
  }

  lemma BehindStep(p: string, text: string, whole: seq<int>, n: nat, end: nat)
    requires Behind(p, text, whole, n, end) && n > 0 && end > 0
    ensures if Lower(text[end - 1]) == p[n - 1] then whole[n - 1] == end - 1 && Behind(p, text, whole, n - 1, end - 1)
            else Behind(p, text, whole, n, end - 1)
  {
    assert p[..n][..n - 1] == p[..n - 1];
    if Lower(text[end - 1]) == p[n - 1] {
      var back := AlignBack(p[..n], text, end);
      assert back[..n - 1] == AlignBack(p[..n - 1], text, end - 1);
      assert whole[..n][..n - 1] == whole[..n - 1];
    }
  }

  /** Characters left below `end` are matched below `end`. */
  lemma BehindBelow(p: string, text: string, whole: seq<int>, n: nat, end: nat)
    requires Behind(p, text, whole, n, end)
    ensures n > 0 ==> 0 <= whole[0] < end
  {
    AlignBackEmbeds(p[..n], text, end);
    assert n > 0 ==> whole[..n][0] == whole[0];
  }

  /** The backward pass: from the end of the match to the latest start. */
  method Backward(pattern: string, text: string, startIdx: nat, endIdx: nat) returns (start: nat)
    requires pattern != "" && endIdx <= |text| && |AlignBack(pattern, text, endIdx)| == |pattern|
    requires startIdx <= AlignBack(pattern, text, endIdx)[0] < endIdx
    ensures start == AlignBack(pattern, text, endIdx)[0]
  {
    ghost var whole := AlignBack(pattern, text, endIdx);
    assert pattern[..|pattern|] == pattern && whole[..|pattern|] == whole;
    start := startIdx;
    var pi := |pattern| - 1;
    var ti: int := endIdx - 1;
    while ti >= start && pi >= 0
      invariant -1 <= pi < |pattern|
      invariant pi >= 0 ==> start == startIdx && startIdx - 1 <= ti < endIdx && Behind(pattern, text, whole, pi + 1, ti + 1)
      invariant pi < 0 ==> start == whole[0]
      decreases pi + 1, ti + 1
    {
      BehindStep(pattern, text, whole, pi + 1, ti + 1);
      if Lower(text[ti]) == pattern[pi] {
        pi := pi - 1;
        if pi < 0 { start := ti; }
      }
      ti := ti - 1;
    }
    if pi >= 0 {
      BehindBelow(pattern, text, whole, pi + 1, ti + 1);
      assert false;
    }
  }

  /** What the scoring loop's variables say when it stands at `ti`, after the first `n` matches of `pos`. */
  ghost predicate ScanOk(text: string, pos: seq<int>, n: nat, ti: nat,
                         score: int, consecutive: int, firstBonus: int, gapLen: int) {
    && n <= |pos| && Within(pos, text) && GapsWithin(pos, n)
    && (n == 0 ==> gapLen == 0 && consecutive == 0)
    && (n > 0 ==> 0 <= gapLen == ti - pos[n - 1] - 1)
    && consecutive >= 0 && (consecutive > 0 <==> n > 0 && gapLen == 0)
    && (consecutive > 0 ==> firstBonus == RunBonus(text, pos, n - 1))
    && score == Total(text, pos, n) + GapCost(gapLen)
  }

  lemma GapKeepsScan(text: string, pos: seq<int>, n: nat, ti: nat, score: int, consecutive: int, firstBonus: int, gapLen: int)
    requires ScanOk(text, pos, n, ti, score, consecutive, firstBonus, gapLen) && n > 0
    ensures ScanOk(text, pos, n, ti + 1, score + (if consecutive > 0 then SCORE_GAP_START else SCORE_GAP_EXTENSION),
                   0, firstBonus, gapLen + 1)
  {
  }

  lemma MatchKeepsScan(text: string, pos: seq<int>, n: nat, ti: nat, score: int, consecutive: int, firstBonus: int, gapLen: int,
                       added: int, runBonus: int)
    requires ScanOk(text, pos, n, ti, score, consecutive, firstBonus, gapLen)
    requires n < |pos| && pos[n] == ti && gapLen <= MAX_GAP
    requires runBonus == if consecutive > 0 then Max(firstBonus, BonusAt(text, ti)) else BonusAt(text, ti)
    requires added == SCORE_MATCH +
               if n == 0 then BonusAt(text, ti) * BONUS_FIRST_CHAR_MULTIPLIER
               else if consecutive > 0 then Max(Max(BonusAt(text, ti), BONUS_CONSECUTIVE), firstBonus)
               else BonusAt(text, ti)
    ensures ScanOk(text, pos, n + 1, ti + 1, score + added, consecutive + 1, runBonus, 0)
  {
    assert consecutive > 0 <==> Adjacent(pos, n);
    if n > 0 { assert GapBefore(pos, n) == gapLen; }
  }

  /** What one matched character adds to the score, and the best bonus of its run from now on. */
  method ScoreMatch(first: bool, consecutive: int, firstBonus: int, bonus: nat) returns (added: int, runBonus: int)
    requires consecutive >= 0 && (first ==> consecutive == 0)
    ensures runBonus == if consecutive > 0 then Max(firstBonus, bonus) else bonus
    ensures added == SCORE_MATCH + if first then bonus * BONUS_FIRST_CHAR_MULTIPLIER
                                   else if consecutive > 0 then Max(Max(bonus, BONUS_CONSECUTIVE), firstBonus)
                                   else bonus
  {
    added, runBonus := SCORE_MATCH, firstBonus;
    if first {
      added := added + bonus * BONUS_FIRST_CHAR_MULTIPLIER;
      runBonus := bonus;
    } else if consecutive > 0 {
      var consBonus := Max(Max(bonus, BONUS_CONSECUTIVE), firstBonus);
      added := added + consBonus;
    } else {
      added := added + bonus;
      runBonus := bonus;
    }
    if consecutive == 0 || bonus > runBonus {
      runBonus := bonus;
    }
  }

  /** The whole state of the scoring loop, after the first `n` matches of `pos`. */
  ghost predicate ScoringOk(p: string, text: string, pos: seq<int>, n: nat, ti: nat, prevClass: CharClass,
                            score: int, consecutive: int, firstBonus: int, gapLen: int) {
    && n <= |p| == |pos| && ti <= |text| && (n == 0 ==> pos != [] && ti == pos[0])
    && Ahead(p, text, pos, n, ti) && prevClass == ClassBefore(text, ti)
    && ScanOk(text, pos, n, ti, score, consecutive, firstBonus, gapLen)
  }

  lemma ScoringStart(p: string, text: string, start: nat)
    requires var pos := Align(p, text, start); |pos| == |p| > 0 && Within(pos, text) && pos[0] == start
    ensures ScoringOk(p, text, Align(p, text, start), 0, start, ClassBefore(text, start), 0, 0, 0, 0)
  {
    AheadStart(p, text, start);
  }

  lemma ScoringGap(p: string, text: string, pos: seq<int>, n: nat, ti: nat, prevClass: CharClass,
                   score: int, consecutive: int, firstBonus: int, gapLen: int)
    requires ScoringOk(p, text, pos, n, ti, prevClass, score, consecutive, firstBonus, gapLen)
    requires n < |p| && ti < |text| && Lower(text[ti]) != p[n]
    ensures ScoringOk(p, text, pos, n, ti + 1, ClassOf(text[ti]),
                      score + (if consecutive > 0 then SCORE_GAP_START else SCORE_GAP_EXTENSION), 0, firstBonus, gapLen + 1)
  {
    AheadStep(p, text, pos, n, ti);
    FirstMatches(p, text, pos, n, ti);
    GapKeepsScan(text, pos, n, ti, score, consecutive, firstBonus, gapLen);
  }

  lemma ScoringMatch(p: string, text: string, pos: seq<int>, n: nat, ti: nat, prevClass: CharClass,
                     score: int, consecutive: int, firstBonus: int, gapLen: int, added: int, runBonus: int)
    requires ScoringOk(p, text, pos, n, ti, prevClass, score, consecutive, firstBonus, gapLen)
    requires n < |p| && ti < |text| && Lower(text[ti]) == p[n] && gapLen <= MAX_GAP
    requires var bonus := BonusFor(prevClass, ClassOf(text[ti]));
             && (runBonus == if consecutive > 0 then Max(firstBonus, bonus) else bonus)
             && added == SCORE_MATCH + if n == 0 then bonus * BONUS_FIRST_CHAR_MULTIPLIER
                                       else if consecutive > 0 then Max(Max(bonus, BONUS_CONSECUTIVE), firstBonus)
                                       else bonus
    ensures ScoringOk(p, text, pos, n + 1, ti + 1, ClassOf(text[ti]), score + added, consecutive + 1, runBonus, 0)
  {
    AheadStep(p, text, pos, n, ti);
    MatchKeepsScan(text, pos, n, ti, score, consecutive, firstBonus, gapLen, added, runBonus);
  }

  lemma ScoringWide(p: string, text: string, pos: seq<int>, n: nat, ti: nat, prevClass: CharClass,
                    score: int, consecutive: int, firstBonus: int, gapLen: int)
    requires ScoringOk(p, text, pos, n, ti, prevClass, score, consecutive, firstBonus, gapLen)
    requires 0 < n < |p| && ti < |text| && Lower(text[ti]) == p[n] && gapLen > MAX_GAP
    ensures !GapsWithin(pos, |pos|)
  {
    AheadStep(p, text, pos, n, ti);
    assert GapBefore(pos, n) > MAX_GAP;
  }

  lemma ScoringEnds(p: string, text: string, pos: seq<int>, n: nat, ti: nat, end: nat, prevClass: CharClass,
                    score: int, consecutive: int, firstBonus: int, gapLen: int)
    requires ScoringOk(p, text, pos, n, ti, prevClass, score, consecutive, firstBonus, gapLen)
    requires p != "" && pos[|p| - 1] == end - 1 && ti <= end && (n == |p| || ti == end)
    ensures GapsWithin(pos, |pos|) && score == Total(text, pos, |pos|)
  {
    AheadComplete(p, text, pos, n, ti, end);
  }

  /** The scoring pass over the window; `ok` is false when a gap is too wide. */
  method ScoreWindow(pattern: string, text: string, startIdx: nat, endIdx: nat) returns (ok: bool, score: int)
    requires startIdx <= endIdx <= |text| && pattern != ""
    requires var pos := Align(pattern, text, startIdx);
             |pos| == |pattern| && Within(pos, text) && pos[|pattern| - 1] == endIdx - 1 && pos[0] == startIdx
    ensures var pos := Align(pattern, text, startIdx);
            (ok <==> GapsWithin(pos, |pos|)) && (ok ==> score == Total(text, pos, |pos|))
  {
    ghost var pos := Align(pattern, text, startIdx);
    ScoringStart(pattern, text, startIdx);
    score := 0;
    var consecutive, firstBonus, gapLen, pi, ti := 0, 0, 0, 0, startIdx;
    var prevClass := if startIdx > 0 then ClassOf(text[startIdx - 1]) else White;
    while ti < endIdx && pi < |pattern|
      invariant startIdx <= ti <= endIdx && pi <= |pattern| && consecutive >= 0 && (pi == 0 ==> consecutive == 0)
      invariant ScoringOk(pattern, text, pos, pi, ti, prevClass, score, consecutive, firstBonus, gapLen)
    {
      var curClass := ClassOf(text[ti]);
      if Lower(text[ti]) == pattern[pi] {
        if pi > 0 && gapLen > MAX_GAP {
          ScoringWide(pattern, text, pos, pi, ti, prevClass, score, consecutive, firstBonus, gapLen);
          return false, 0;
        }
        var bonus := BonusFor(prevClass, curClass);
        var added, runBonus := ScoreMatch(pi == 0, consecutive, firstBonus, bonus);
        ScoringMatch(pattern, text, pos, pi, ti, prevClass, score, consecutive, firstBonus, gapLen, added, runBonus);
        score, firstBonus, gapLen := score + added, runBonus, 0;
        consecutive := consecutive + 1;
        pi := pi + 1;
      } else {
        ScoringGap(pattern, text, pos, pi, ti, prevClass, score, consecutive, firstBonus, gapLen);
        gapLen := gapLen + 1;
        if consecutive > 0 {
          score := score + SCORE_GAP_START;
          consecutive := 0;
        } else {
          score := score + SCORE_GAP_EXTENSION;
        }
      }
      prevClass := curClass;
      ti := ti + 1;
    }
    ScoringEnds(pattern, text, pos, pi, ti, endIdx, prevClass, score, consecutive, firstBonus, gapLen);
    ok := true;
  }

  /** The window starts with a match, so a character that does not match comes after one. */
  lemma FirstMatches(p: string, text: string, pos: seq<int>, pi: nat, ti: nat)
    requires Ahead(p, text, pos, pi, ti) && pi < |p| && ti < |text| && Lower(text[ti]) != p[pi]
    requires pos != [] && (pi == 0 ==> pos[0] == ti)
    ensures pi > 0
  {
    AlignEmbeds(p[pi..], text, ti);
    assert pos[pi..] != [] ==> pos[pi..][0] == pos[pi];
  }

  /** At the end of the window the greedy match is complete. */
  lemma AheadComplete(p: string, text: string, pos: seq<int>, pi: nat, ti: nat, end: nat)
    requires Ahead(p, text, pos, pi, ti) && |pos| == |p| > 0 && pos[|p| - 1] == end - 1
    requires ti <= end && (ti == end || pi == |p|)
    ensures pi == |p|
  {
    AlignEmbeds(p[pi..], text, ti);
    LastOf(pos, pi);
  }

  lemma LastOf(s: seq<int>, i: nat)
    requires i <= |s|
    ensures i < |s| ==> s[i..][|s| - 1 - i] == s[|s| - 1]
  {
  }

  /**
   The score is nonzero exactly when the pattern is a subsequence whose contracted window passes
   the span and gap limits; it is then the total of its matches, between 7 |p| + 2 and 26 |p| + 10.
   */
  method FzfScore(pattern: string, text: string) returns (score: int)
    ensures score != 0 <==> Accepts(pattern, text)
    ensures Accepts(pattern, text) ==>
              var pos := Align(pattern, text, WindowStart(pattern, text));
              Within(pos, text) && score == Total(text, pos, |pos|) && 7 * |pattern| + 2 <= score <= 26 * |pattern| + 10
  {
    SubsequenceIff(pattern, text);
    if |pattern| == 0 { return 0; }
    if |pattern| > |text| {
      TooShort(pattern, text);
      return 0;
    }
    var found, startIdx, endIdx := Forward(pattern, text);
    if !found { return 0; }
    WindowIsFilled(pattern, text);
    startIdx := Backward(pattern, text, startIdx, endIdx);
    var matchSpan := endIdx - startIdx;
    var maxSpan := |pattern| * SPAN_FACTOR;
    if matchSpan > maxSpan { return 0; }
    var ok;
    AlignEmbeds(pattern, text, startIdx);
    ok, score := ScoreWindow(pattern, text, startIdx, endIdx);
    if !ok { return 0; }
    ScoreBounds(pattern, text);
    score := Max(score, 0);
  }

  lemma TooShort(p: string, text: string)
    requires |p| > |text|
    ensures |Align(p, text, 0)| < |p|
  {
    AlignLength(p, text, 0);
  }

  lemma {:induction false} AlignLength(p: string, text: string, from: nat)
    requires from <= |text|
    ensures |Align(p, text, from)| <= |text| - from
    decreases |text| - from
  {
    if p != "" && from < |text| {
      AlignLength(if Lower(text[from]) == p[0] then p[1..] else p, text, from + 1);
    }
  }
}
