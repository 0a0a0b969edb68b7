/** `StringStartsWithComparator`, `StringContainsComparator` and their
    factories `startsWith` / `contains` from
    include/cxxutils/test/StringComparators.hpp. */
module StringComparators {
  import opened Wrappers
  import opened Comparators

  /** `s.substr(0, n)`: the first `n` characters, or all of `s` if it is shorter. */
  function Head(s: string, n: nat): (r: string)
    ensures r <= s
    ensures |r| == if n <= |s| then n else |s|
  {
    if n <= |s| then s[..n] else s
  }

  /** `needle` occurs in `s` starting at index `i`. */
  predicate OccursAt(s: string, needle: string, i: nat) {
    i + |needle| <= |s| && s[i..i + |needle|] == needle
  }

  /** `s.find(needle, from)`: the first index at or after `from` where
      `needle` occurs, `None` standing for `npos`. */
  function Find(s: string, needle: string, from: nat): (r: Option<nat>)
    decreases |s| - from
    ensures r.Some? ==> from <= r.value && OccursAt(s, needle, r.value)
    ensures r.Some? ==> forall j :: from <= j < r.value ==> !OccursAt(s, needle, j)
    ensures r.None? ==> forall j :: from <= j ==> !OccursAt(s, needle, j)
  {
    if from + |needle| > |s| then None
    else if s[from..from + |needle|] == needle then Some(from)
    else Find(s, needle, from + 1)
  }

  /** `startsWith(prefix)`: accepts exactly the strings that begin with
      `prefix`; the failure text quotes as many leading characters of the
      input as the prefix has, or the whole input if it is shorter. */
  function StartsWith(prefix: string): (c: Comparator<string>)
    ensures forall s :: c.ok(s) <==> prefix <= s
    ensures forall s :: c.describeFailure(s) == Returns("Expected string starting '" + prefix + "' but got string starting '" + Head(s, |prefix|) + "'")
    ensures Describable(c)
  {
    Comparator(
      s => Head(s, |prefix|) == prefix,
      s => Returns("Expected string starting '" + prefix + "' but got string starting '" + Head(s, |prefix|) + "'"))
  }

  /** `contains(needle)`: accepts exactly the strings in which `needle`
      occurs as a contiguous run. */
  function Contains(needle: string): (c: Comparator<string>)
    ensures forall s :: c.ok(s) <==> exists i :: OccursAt(s, needle, i)
    ensures forall s :: c.describeFailure(s) == Returns("Expected string to contain '" + needle + "' but got string '" + s + "'")
    ensures Describable(c)
  {
    Comparator(
      s => Find(s, needle, 0).Some?,
      s => Returns("Expected string to contain '" + needle + "' but got string '" + s + "'"))
  }

  /** A string shorter than the prefix is never accepted, and the empty
      prefix accepts every string. */
  lemma StartsWithEdgeCases(prefix: string, s: string)
    ensures |s| < |prefix| ==> !StartsWith(prefix).ok(s)
    ensures StartsWith("").ok(s)
  {
  }

  /** The empty needle is contained in every string, the empty one included. */
  lemma EmptyNeedleIsContained(s: string)
    ensures Contains("").ok(s)
  {
    assert OccursAt(s, "", 0);
  }

  /** A string that starts with `p` also contains `p`. */
  lemma StartsWithImpliesContains(p: string, s: string)
    requires StartsWith(p).ok(s)
    ensures Contains(p).ok(s)
  {
    assert OccursAt(s, p, 0);
  }

  /** A needle longer than the string is never contained. */
  lemma LongNeedleIsNotContained(needle: string, s: string)
    requires |s| < |needle|
    ensures !Contains(needle).ok(s)
  {
  }
}
