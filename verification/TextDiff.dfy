/**
 diffToChanges of the editor bridge: the one splice that turns one text into another, found by
 stripping the common prefix and then the common suffix.
 */
module TextDiff {
  datatype Change = Change(from: nat, to: nat, insert: string)

  predicate Fits(c: Change, text: string) {
    c.from <= c.to <= |text|
  }

  function Splice(text: string, c: Change): string
    requires Fits(c, text)
  {
    text[..c.from] + c.insert + text[c.to..]
  }

  /** The changes applied in turn; the editor gets at most one. */
  function ApplyAll(text: string, changes: seq<Change>): string
    requires |changes| <= 1 && forall c | c in changes :: Fits(c, text)
  {
    if changes == [] then text else Splice(text, changes[0])
  }

  /** The two texts agree on `prefix` characters at the front and `suffix` at the back. */
  predicate Shared(a: string, b: string, prefix: nat, suffix: nat) {
    && prefix + suffix <= |a| && prefix + suffix <= |b|
    && a[..prefix] == b[..prefix] && a[|a| - suffix..] == b[|b| - suffix..]
  }

  /** Any splice that turns `a` into `b` keeps a common prefix and a common suffix. */
  lemma SpliceShares(a: string, b: string, c: Change)
    requires Fits(c, a) && Splice(a, c) == b
    ensures Shared(a, b, c.from, |a| - c.to)
  {
    var r := Splice(a, c);
    assert r[..c.from] == a[..c.from];
    assert r[|r| - (|a| - c.to)..] == a[c.to..];
  }

  lemma SharedChars(a: string, b: string, prefix: nat, suffix: nat)
    requires Shared(a, b, prefix, suffix)
    ensures forall i :: 0 <= i < prefix ==> a[i] == b[i]
    ensures forall i :: |a| - suffix <= i < |a| ==> a[i] == b[i + |b| - |a|]
  {
    forall i | 0 <= i < prefix ensures a[i] == b[i] {
      assert a[..prefix][i] == b[..prefix][i];
    }
    forall i | |a| - suffix <= i < |a| ensures a[i] == b[i + |b| - |a|] {
      assert a[|a| - suffix..][i - |a| + suffix] == b[|b| - suffix..][i - |a| + suffix];
    }
  }

  /** The prefix cannot be extended, nor the suffix beside it. */
  predicate Maximal(a: string, b: string, prefix: nat, suffix: nat) {
    && Shared(a, b, prefix, suffix)
    && (prefix == |a| || prefix == |b| || a[prefix] != b[prefix])
    && (prefix + suffix == |a| || prefix + suffix == |b| || a[|a| - 1 - suffix] != b[|b| - 1 - suffix])
  }

  /** Stripping the prefix first loses nothing: no other pair is longer in total. */
  lemma MaximalIsLongest(a: string, b: string, prefix: nat, suffix: nat, p: nat, s: nat)
    requires Maximal(a, b, prefix, suffix) && Shared(a, b, p, s)
    ensures p <= prefix && p + s <= prefix + suffix
  {
    SharedChars(a, b, p, s);
  }

  /** No splice that turns `a` into `b` deletes or inserts fewer characters. */
  lemma MaximalIsMinimalSplice(a: string, b: string, prefix: nat, suffix: nat, d: Change)
    requires Maximal(a, b, prefix, suffix) && Fits(d, a) && Splice(a, d) == b
    ensures |a| - suffix - prefix <= d.to - d.from && |b| - suffix - prefix <= |d.insert| && d.from <= prefix
  {
    SpliceShares(a, b, d);
    MaximalIsLongest(a, b, prefix, suffix, d.from, |a| - d.to);
  }

  lemma SharedSplice(a: string, b: string, prefix: nat, suffix: nat)
    requires Shared(a, b, prefix, suffix)
    ensures Splice(a, Change(prefix, |a| - suffix, b[prefix..|b| - suffix])) == b
    ensures prefix + suffix == |a| == |b| ==> a == b
  {
    assert b == b[..prefix] + b[prefix..|b| - suffix] + b[|b| - suffix..];
    assert a == a[..prefix] + a[prefix..|a| - suffix] + a[|a| - suffix..];
  }

  /** What the stripped texts leave over is the best splice. */
  lemma StrippedIsBest(a: string, b: string, prefix: nat, suffix: nat)
    requires Maximal(a, b, prefix, suffix)
    ensures var c := Change(prefix, |a| - suffix, b[prefix..|b| - suffix]);
      && Fits(c, a) && Splice(a, c) == b
      && (prefix + suffix == |a| == |b| <==> a == b)
      && forall d | Fits(d, a) && Splice(a, d) == b ::
           c.to - c.from <= d.to - d.from && |c.insert| <= |d.insert| && d.from <= c.from
  {
    SharedSplice(a, b, prefix, suffix);
    forall d | Fits(d, a) && Splice(a, d) == b
      ensures |a| - suffix - prefix <= d.to - d.from && |b| - suffix - prefix <= |d.insert| && d.from <= prefix
    {
      MaximalIsMinimalSplice(a, b, prefix, suffix, d);
    }
    if a == b {
      assert Shared(a, b, |a|, 0);
      MaximalIsLongest(a, b, prefix, suffix, |a|, 0);
    }
  }

  lemma PrefixGrows(a: string, b: string, n: nat)
    requires n < |a| && n < |b| && a[..n] == b[..n] && a[n] == b[n]
    ensures a[..n + 1] == b[..n + 1]
  {
    assert a[..n + 1] == a[..n] + [a[n]] && b[..n + 1] == b[..n] + [b[n]];
  }

  lemma SuffixGrows(a: string, b: string, i: nat, j: nat)
    requires 0 < i <= |a| && 0 < j <= |b| && a[i..] == b[j..] && a[i - 1] == b[j - 1]
    ensures a[i - 1..] == b[j - 1..]
  {
    assert a[i - 1..] == [a[i - 1]] + a[i..] && b[j - 1..] == [b[j - 1]] + b[j..];
  }

  /**
   Applying the result to the old text gives the new one; it is empty exactly when the texts are
   equal; and no other single splice deletes or inserts fewer characters, or starts later.
   */
  method DiffToChanges(oldText: string, newText: string) returns (changes: seq<Change>)
    ensures |changes| <= 1 && forall c | c in changes :: Fits(c, oldText)
    ensures ApplyAll(oldText, changes) == newText
    ensures changes == [] <==> oldText == newText
    ensures forall c, d | c in changes && Fits(d, oldText) && Splice(oldText, d) == newText ::
              c.to - c.from <= d.to - d.from && |c.insert| <= |d.insert| && d.from <= c.from
  {
    var prefixLen := 0;
    var minLen := if |oldText| <= |newText| then |oldText| else |newText|;
    while prefixLen < minLen && oldText[prefixLen] == newText[prefixLen]
      invariant prefixLen <= minLen && oldText[..prefixLen] == newText[..prefixLen]
    {
      PrefixGrows(oldText, newText, prefixLen);
      prefixLen := prefixLen + 1;
    }

    var oldSuffix := |oldText|;
    var newSuffix := |newText|;
    while oldSuffix > prefixLen && newSuffix > prefixLen && oldText[oldSuffix - 1] == newText[newSuffix - 1]
      invariant prefixLen <= oldSuffix <= |oldText| && prefixLen <= newSuffix <= |newText|
      invariant |oldText| - oldSuffix == |newText| - newSuffix
      invariant oldText[oldSuffix..] == newText[newSuffix..]
    {
      SuffixGrows(oldText, newText, oldSuffix, newSuffix);
      oldSuffix := oldSuffix - 1;
      newSuffix := newSuffix - 1;
    }

    StrippedIsBest(oldText, newText, prefixLen, |oldText| - oldSuffix);
    if prefixLen == oldSuffix && prefixLen == newSuffix { return []; }
    changes := [Change(prefixLen, oldSuffix, newText[prefixLen..newSuffix])];
  }
}
