/** The Python string operations the core relies on: `sub in s`, `str.lower()`
    and the leftmost-occurrence search that `re.search` performs for a
    literal piece of a pattern. */
module Strings {
  import opened Wrappers

  /** `sub` occurs in `s` starting at index `k`. */
  predicate OccursAt(s: string, sub: string, k: nat)
  {
    k + |sub| <= |s| && s[k..k + |sub|] == sub
  }

  /** Python's `sub in s`. */
  predicate Contains(s: string, sub: string)
  {
    exists k :: 0 <= k <= |s| - |sub| && OccursAt(s, sub, k)
  }

  /** The empty string is contained in every string (`"" in s` is True). */
  lemma EmptyIsContained(s: string)
    ensures Contains(s, "")
  {
    assert OccursAt(s, "", 0);
  }

  /** A single mismatching character rules out an occurrence. */
  lemma MismatchAt(s: string, sub: string, k: nat, i: nat)
    requires i < |sub| && k + i < |s| && s[k + i] != sub[i]
    ensures !OccursAt(s, sub, k)
  {
  }

  /** Case folding of one character: the ASCII capitals, and the KELVIN SIGN
      (U+212A), which Python lower-cases to the ASCII `k`. */
  function LowerChar(c: char): char
  {
    if 'A' <= c <= 'Z' then (c as int - 'A' as int + 'a' as int) as char
    else if c == '\U{212A}' then 'k'
    else c
  }

  /** `str.lower()` as far as it can produce ASCII letters; every other
      character is kept as it is. */
  function Lower(s: string): string
  {
    seq(|s|, i requires 0 <= i < |s| => LowerChar(s[i]))
  }

  /** Lower-casing twice is lower-casing once. */
  lemma LowerIdempotent(s: string)
    ensures Lower(Lower(s)) == Lower(s)
  {
    var once := Lower(s);
    forall i | 0 <= i < |s|
      ensures Lower(once)[i] == once[i]
    {
      var c := s[i];
      assert once[i] == LowerChar(c);
    }
  }

  /** An occurrence that ends inside `a` does not see what follows `a`. */
  lemma OccursInPrefix(a: string, b: string, sub: string, k: nat)
    requires k + |sub| <= |a|
    ensures OccursAt(a + b, sub, k) <==> OccursAt(a, sub, k)
  {
    assert (a + b)[k..k + |sub|] == a[k..k + |sub|];
  }

  /** An occurrence that starts after `a` is an occurrence in what follows `a`. */
  lemma OccursInSuffix(a: string, b: string, sub: string, k: nat)
    ensures OccursAt(a + b, sub, |a| + k) <==> OccursAt(b, sub, k)
  {
    if k + |sub| <= |b| {
      assert (a + b)[|a| + k..|a| + k + |sub|] == b[k..k + |sub|];
    }
  }

  /** The leftmost occurrence of `sub` in `s` at or after index `from`. */
  function FindFrom(s: string, sub: string, from: nat): (r: Option<nat>)
    ensures r.Some? ==> from <= r.value && OccursAt(s, sub, r.value)
    ensures r.Some? ==> forall k :: from <= k < r.value ==> !OccursAt(s, sub, k)
    ensures r.None? ==> forall k :: from <= k ==> !OccursAt(s, sub, k)
    decreases |s| - from
  {
    if from + |sub| > |s| then None
    else if OccursAt(s, sub, from) then Some(from)
    else FindFrom(s, sub, from + 1)
  }
}
