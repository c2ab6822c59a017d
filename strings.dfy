/** Python `str` operations used by the core: substring test and ordering. */
module Strings {

  /** `p` occurs in `s` starting at index `k`. */
  predicate OccursAt(s: string, p: string, k: nat)
  {
    k + |p| <= |s| && s[k..k + |p|] == p
  }

  /** Python's `p in s` on strings: a contiguous, case-sensitive substring test. */
  function Contains(s: string, p: string): (r: bool)
    ensures r <==> exists k: nat :: OccursAt(s, p, k)
    decreases |s|
  {
    if p <= s then
      assert OccursAt(s, p, 0);
      true
    else if s == [] then
      assert forall k: nat :: !OccursAt(s, p, k);
      false
    else
      var r := Contains(s[1..], p);
      assert forall k: nat :: OccursAt(s[1..], p, k) <==> OccursAt(s, p, k + 1);
      assert !OccursAt(s, p, 0);
      assert forall k: nat :: OccursAt(s, p, k) ==> k == 0 || OccursAt(s[1..], p, k - 1);
      r
  }

  /** Python's `a < b` on strings: lexicographic by code point, a proper prefix
      coming first. */
  predicate StrLt(a: string, b: string)
  {
    if a == [] then b != []
    else if b == [] then false
    else if a[0] != b[0] then a[0] < b[0]
    else StrLt(a[1..], b[1..])
  }

  lemma {:induction false} StrLtIrreflexive(a: string)
    ensures !StrLt(a, a)
  {
    if a != [] {
      StrLtIrreflexive(a[1..]);
    }
  }

  /** Exactly one of `a < b`, `a == b`, `b < a` holds. */
  lemma {:induction false} StrLtTrichotomy(a: string, b: string)
    ensures StrLt(a, b) || a == b || StrLt(b, a)
    ensures !(StrLt(a, b) && StrLt(b, a))
  {
    if a != [] && b != [] && a[0] == b[0] {
      StrLtTrichotomy(a[1..], b[1..]);
      if a[1..] == b[1..] {
        assert a == [a[0]] + a[1..] && b == [b[0]] + b[1..];
      }
    }
  }

  lemma {:induction false} StrLtTransitive(a: string, b: string, c: string)
    requires StrLt(a, b) && StrLt(b, c)
    ensures StrLt(a, c)
  {
    if a != [] && a[0] == b[0] && b[0] == c[0] {
      StrLtTransitive(a[1..], b[1..], c[1..]);
    }
  }
}
