/**
 * Small facts about sequences, slices and concatenation that the proofs of
 * the other modules use as single steps.
 */
module Seqs {

  /** No element occurs twice. */
  predicate Distinct<T(==)>(s: seq<T>)
  {
    forall i, j :: 0 <= i < j < |s| ==> s[i] != s[j]
  }

  function Last<T>(s: seq<T>): T
    requires s != []
  {
    s[|s| - 1]
  }

  lemma TakeAll<T>(s: seq<T>)
    ensures s[..|s|] == s
  {
  }

  lemma SplitLast<T>(s: seq<T>)
    requires s != []
    ensures s == s[..|s| - 1] + [Last(s)]
  {
  }

  lemma AppendAssoc<T>(a: seq<T>, b: seq<T>, c: seq<T>)
    ensures a + (b + c) == (a + b) + c
  {
  }

  lemma AppendEmpty<T>(a: seq<T>)
    ensures a + [] == a
  {
  }

  lemma UpdateSuffix<T>(s: seq<T>, i: int, x: T)
    requires 0 <= i < |s|
    ensures s[i := x][i..] == [x] + s[i + 1..]
  {
  }

  lemma DropOfSlice<T>(t: seq<T>, a: int, b: int, n: int)
    requires 0 <= a && 0 <= n && a + n <= b <= |t|
    ensures t[a..b][n..] == t[a + n..b]
  {
  }

  lemma TakeOfSlice<T>(t: seq<T>, a: int, b: int, n: int)
    requires 0 <= a && 0 <= n && a + n <= b <= |t|
    ensures t[a..b][..n] == t[a..a + n]
  {
  }

  lemma SplitSuffix<T>(t: seq<T>, a: int, b: int)
    requires 0 <= a <= b <= |t|
    ensures t[a..] == t[a..b] + t[b..]
  {
  }
}
