/** The two array field transforms the follow and like commands send to the
    document store, with the semantics the backend documents for them:
    `arrayUnion` appends an element only if it is absent, `arrayRemove` drops
    every copy of it. */
module Firestore {
  import opened Seqs

  /** `arrayUnion(x)` applied to the stored array `s`. */
  function ArrayUnion(s: seq<string>, x: string): (r: seq<string>)
    ensures forall y :: y in r <==> y in s || y == x
    ensures Subseq(s, r)
    ensures x in s ==> r == s
    ensures x !in s ==> r == s + [x]
    ensures |r| <= |s| + 1
  {
    if x in s then (SubseqReflexive(s); s)
    else
      assert Subseq(s, s + [x]) by { AppendKeepsSubseq(s, x); }
      s + [x]
  }

  /** `arrayRemove(x)` applied to the stored array `s`. */
  function ArrayRemove(s: seq<string>, x: string): (r: seq<string>)
    ensures forall y :: y in r <==> y in s && y != x
    ensures Subseq(r, s)
    ensures x !in s ==> r == s
    ensures forall y {:trigger multiset(r)[y]} :: multiset(r)[y] == if y == x then 0 else multiset(s)[y]
  {
    Filter(s, y => y != x)
  }

  /** A list is a subsequence of itself with one element appended. */
  lemma {:induction false} AppendKeepsSubseq(s: seq<string>, x: string)
    ensures Subseq(s, s + [x])
    decreases |s|
  {
    if |s| > 0 {
      AppendKeepsSubseq(s[1..], x);
      assert (s + [x])[1..] == s[1..] + [x];
    }
  }

  /** Removing an element that a union has just added restores the array. */
  lemma RemoveUndoesUnion(s: seq<string>, x: string)
    requires x !in s
    ensures ArrayRemove(ArrayUnion(s, x), x) == s
  {
    var u := ArrayUnion(s, x);
    assert u == s + [x];
    assert ArrayRemove(u, x) == Filter(s, y => y != x) by {
      FilterAppendRejected(s, x);
    }
  }

  /** Filtering out `x` from `s + [x]` is filtering it out of `s`. */
  lemma {:induction false} FilterAppendRejected(s: seq<string>, x: string)
    ensures Filter(s + [x], y => y != x) == Filter(s, y => y != x)
    decreases |s|
  {
    if |s| > 0 {
      FilterAppendRejected(s[1..], x);
      assert (s + [x])[1..] == s[1..] + [x];
    }
  }

  /** A second identical union changes nothing. */
  lemma UnionIdempotent(s: seq<string>, x: string)
    ensures ArrayUnion(ArrayUnion(s, x), x) == ArrayUnion(s, x)
  {
  }
}
