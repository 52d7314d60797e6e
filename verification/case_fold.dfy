/** Case-insensitive comparison of usernames. The username lookups run with collation
    `{ locale: 'en', strength: 2 }`, which ignores letter case; the model folds the ASCII letters. */
module CaseFold {

  function Lower(c: char): char
  {
    if 'A' <= c <= 'Z' then (c as int + 32) as char else c
  }

  function Upper(c: char): char
  {
    if 'a' <= c <= 'z' then (c as int - 32) as char else c
  }

  /** The lower-case form of a string, character by character. */
  function FoldCase(s: string): (r: string)
    ensures |r| == |s|
    ensures forall i :: 0 <= i < |s| ==> r[i] == Lower(s[i])
  {
    if s == [] then [] else [Lower(s[0])] + FoldCase(s[1..])
  }

  /** Two strings compare equal at strength 2: same length, same letters up to case. */
  predicate EqualIgnoringCase(a: string, b: string)
  {
    |a| == |b| && forall i :: 0 <= i < |a| ==> Lower(a[i]) == Lower(b[i])
  }

  /** Two strings that differ at most in the case of their letters. */
  predicate DifferOnlyInCase(a: string, b: string)
  {
    |a| == |b| && forall i :: 0 <= i < |a| ==> a[i] == b[i] || a[i] == Upper(b[i]) || Upper(a[i]) == b[i]
  }

  /** Comparing ignoring case is comparing the folded forms. */
  lemma EqualIgnoringCaseIsFoldEquality(a: string, b: string)
    ensures EqualIgnoringCase(a, b) <==> FoldCase(a) == FoldCase(b)
  {
  }

  /** Comparing ignoring case is an equivalence relation. */
  lemma EqualIgnoringCaseIsEquivalence(a: string, b: string, c: string)
    ensures EqualIgnoringCase(a, a)
    ensures EqualIgnoringCase(a, b) ==> EqualIgnoringCase(b, a)
    ensures EqualIgnoringCase(a, b) && EqualIgnoringCase(b, c) ==> EqualIgnoringCase(a, c)
  {
  }

  /** Usernames that differ only in letter case ("Dave", "dave") collide. */
  lemma CaseVariantsCompareEqual(a: string, b: string)
    requires DifferOnlyInCase(a, b)
    ensures EqualIgnoringCase(a, b)
  {
  }
}
