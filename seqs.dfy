/** Facts about sequences that the model uses in many places, stated once
    so that each use is a single step. */
module Seqs {

  lemma AppendAssoc<T>(a: seq<T>, b: seq<T>, c: seq<T>)
    ensures a + b + c == a + (b + c)
  {
  }

  /** A sequence is what comes before a place, the element there, and the rest. */
  lemma SplitAt<T>(s: seq<T>, e: nat)
    requires e < |s|
    ensures s == s[..e] + [s[e]] + s[e + 1..]
  {
  }

  /** A prefix of a prefix is a prefix. */
  lemma SlicePrefix<T>(s: seq<T>, m: nat, n: nat)
    requires n <= m <= |s|
    ensures s[..m][..n] == s[..n]
  {
  }

  /** Being a prefix is transitive. */
  lemma PrefixTrans<T>(a: seq<T>, b: seq<T>, c: seq<T>)
    requires |a| <= |b| <= |c| && b[..|a|] == a && c[..|b|] == b
    ensures c[..|a|] == a
  {
    SlicePrefix(c, |b|, |a|);
  }

  /** What a prefix holds, the whole holds. */
  lemma PrefixIn<T>(a: seq<T>, c: seq<T>)
    requires |a| <= |c| && c[..|a|] == a
    ensures forall x :: x in a ==> x in c
  {
    forall x | x in a
      ensures x in c
    {
      var i :| 0 <= i < |a| && a[i] == x;
      assert c[i] == c[..|a|][i];
    }
  }
}
