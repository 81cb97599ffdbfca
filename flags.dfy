/** Counting the set flags of a rendered list (active indicators, checked rows, filled stars). */
module Flags {

  function CountTrue(s: seq<bool>): (n: nat)
    ensures n <= |s|
  {
    if s == [] then 0 else (if s[0] then 1 else 0) + CountTrue(s[1..])
  }

  lemma {:induction false} CountNone(s: seq<bool>)
    requires forall i :: 0 <= i < |s| ==> !s[i]
    ensures CountTrue(s) == 0
  {
    if s != [] {
      CountNone(s[1..]);
    }
  }

  /** A list whose only set flag is at position `c` has exactly one set flag. */
  lemma {:induction false} CountOneHot(s: seq<bool>, c: nat)
    requires c < |s| && s[c]
    requires forall i :: 0 <= i < |s| && i != c ==> !s[i]
    ensures CountTrue(s) == 1
  {
    if c == 0 {
      CountNone(s[1..]);
    } else {
      CountOneHot(s[1..], c - 1);
    }
  }

  /** When no two positions are both set, at most one flag is set. */
  lemma {:induction false} CountAtMostOne(s: seq<bool>)
    requires forall i, j :: 0 <= i < |s| && 0 <= j < |s| && s[i] && s[j] ==> i == j
    ensures CountTrue(s) <= 1
  {
    if s != [] {
      if s[0] {
        CountNone(s[1..]);
      } else {
        CountAtMostOne(s[1..]);
      }
    }
  }

  /** When exactly the first `k` flags are set, `k` flags are set. */
  lemma {:induction false} CountPrefix(s: seq<bool>, k: nat)
    requires k <= |s|
    requires forall i :: 0 <= i < |s| ==> (s[i] <==> i < k)
    ensures CountTrue(s) == k
  {
    if k == 0 {
      CountNone(s);
    } else {
      CountPrefix(s[1..], k - 1);
    }
  }
}
