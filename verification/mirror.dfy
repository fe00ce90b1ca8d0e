/** The list operations both entity slices share: the local mirror of a remote
    collection is an ordered list of records keyed by `id`, changed by
    insert-at-front, replace-in-place and remove-by-id. Generic in the record
    type; `key` reads a record's id. */
module Mirror {
  import opened Common
  import opened Seqs

  /** Some record of `s` has id `k`. */
  predicate HasKey<T>(s: seq<T>, k: string, key: T -> string) {
    exists i :: 0 <= i < |s| && key(s[i]) == k
  }

  /** No two records of `s` share an id. */
  predicate UniqueKeys<T>(s: seq<T>, key: T -> string) {
    forall i, j :: 0 <= i < j < |s| ==> key(s[i]) != key(s[j])
  }

  /** Index `i` holds the first record of `s` with id `k`. */
  predicate FirstWithKey<T>(s: seq<T>, k: string, key: T -> string, i: int) {
    0 <= i < |s| && key(s[i]) == k && forall j :: 0 <= j < i ==> key(s[j]) != k
  }

  /** `s.find((e) => e.id === k)`: the record a reader of the mirror sees for id `k`. */
  function Lookup<T>(s: seq<T>, k: string, key: T -> string): (r: Option<T>)
    ensures r.None? <==> !HasKey(s, k, key)
    ensures r.Some? ==> exists i :: FirstWithKey(s, k, key, i) && s[i] == r.value
  {
    var r := Find(s, e => key(e) == k);
    assert r.Some? ==> exists i :: IsFirst(s, e => key(e) == k, i) && s[i] == r.value;
    r
  }

  /** Insert `x` at the front unless a record with its id is already present.
      The flag reports whether the insertion happened. */
  function AddFront<T>(s: seq<T>, x: T, key: T -> string): (r: (seq<T>, bool))
    ensures r.1 <==> !HasKey(s, key(x), key)
    ensures r.1 ==> r.0 == [x] + s
    ensures !r.1 ==> r.0 == s
  {
    if Lookup(s, key(x), key).None? then ([x] + s, true) else (s, false)
  }

  /** Replace the first record whose id is `x`'s id by `x`. With no such record
      the list is left as it is. */
  function Replace<T>(s: seq<T>, x: T, key: T -> string): (r: seq<T>)
    ensures |r| == |s|
    ensures forall j :: 0 <= j < |s| ==> key(r[j]) == key(s[j])
    ensures !HasKey(s, key(x), key) ==> r == s
    ensures HasKey(s, key(x), key) ==>
      exists i :: FirstWithKey(s, key(x), key, i) && r == s[i := x]
  {
    var i := FindIndex(s, e => key(e) == key(x));
    if i == -1 then s
    else
      assert FirstWithKey(s, key(x), key, i);
      s[i := x]
  }

  /** Drop every record whose id is `k`, keeping the others in order. */
  function Remove<T(==,!new)>(s: seq<T>, k: string, key: T -> string): (r: seq<T>)
    ensures !HasKey(r, k, key)
    ensures Subseq(r, s)
    ensures forall i :: 0 <= i < |s| && key(s[i]) != k ==> s[i] in r
    ensures !HasKey(s, k, key) ==> r == s
    ensures forall y {:trigger multiset(r)[y]} :: multiset(r)[y] == if key(y) == k then 0 else multiset(s)[y]
  {
    Filter(s, e => key(e) != k)
  }

  /** Adding a record a second time changes nothing. */
  lemma AddFrontIdempotent<T>(s: seq<T>, x: T, key: T -> string)
    ensures AddFront(AddFront(s, x, key).0, x, key) == (AddFront(s, x, key).0, false)
  {
    var t := AddFront(s, x, key).0;
    if AddFront(s, x, key).1 {
      assert key(t[0]) == key(x);
    }
  }

  /** Inserting keeps ids distinct. */
  lemma AddFrontKeepsUnique<T>(s: seq<T>, x: T, key: T -> string)
    requires UniqueKeys(s, key)
    ensures UniqueKeys(AddFront(s, x, key).0, key)
  {
    var r := AddFront(s, x, key);
    if r.1 {
      forall i, j | 0 <= i < j < |r.0| ensures key(r.0[i]) != key(r.0[j]) {
        if i == 0 {
          assert r.0[j] == s[j - 1];
        } else {
          assert r.0[i] == s[i - 1] && r.0[j] == s[j - 1];
        }
      }
    }
  }

  /** Replacing keeps ids distinct, since every position keeps its id. */
  lemma ReplaceKeepsUnique<T>(s: seq<T>, x: T, key: T -> string)
    requires UniqueKeys(s, key)
    ensures UniqueKeys(Replace(s, x, key), key)
  {
  }

  /** A subsequence of a list with distinct ids has distinct ids. */
  lemma {:induction false} SubseqKeepsUnique<T>(xs: seq<T>, ys: seq<T>, key: T -> string)
    requires Subseq(xs, ys)
    requires UniqueKeys(ys, key)
    ensures UniqueKeys(xs, key)
    decreases |ys|
  {
    if |ys| > 0 {
      assert UniqueKeys(ys[1..], key) by {
        forall i, j | 0 <= i < j < |ys| - 1 ensures key(ys[1..][i]) != key(ys[1..][j]) {
          assert ys[1..][i] == ys[i + 1] && ys[1..][j] == ys[j + 1];
        }
      }
      if |xs| > 0 && xs[0] == ys[0] && Subseq(xs[1..], ys[1..]) {
        SubseqKeepsUnique(xs[1..], ys[1..], key);
        SubseqMembers(xs[1..], ys[1..]);
        forall i, j | 0 <= i < j < |xs| ensures key(xs[i]) != key(xs[j]) {
          if i == 0 {
            assert xs[j] == xs[1..][j - 1];
            var m :| 0 <= m < |ys[1..]| && ys[1..][m] == xs[j];
            assert ys[m + 1] == xs[j];
          } else {
            assert xs[i] == xs[1..][i - 1] && xs[j] == xs[1..][j - 1];
          }
        }
      } else {
        SubseqKeepsUnique(xs, ys[1..], key);
      }
    }
  }

  /** Removing keeps ids distinct. */
  lemma RemoveKeepsUnique<T(!new)>(s: seq<T>, k: string, key: T -> string)
    requires UniqueKeys(s, key)
    ensures UniqueKeys(Remove(s, k, key), key)
  {
    SubseqKeepsUnique(Remove(s, k, key), s, key);
  }

  /** After an insertion the record is visible under its id, and every other
      id reads as before. */
  lemma LookupAfterAddFront<T>(s: seq<T>, x: T, key: T -> string, k: string)
    ensures AddFront(s, x, key).1 ==> Lookup(AddFront(s, x, key).0, key(x), key) == Some(x)
    ensures k != key(x) ==> Lookup(AddFront(s, x, key).0, k, key) == Lookup(s, k, key)
  {
    var r := AddFront(s, x, key);
    if r.1 {
      assert FirstWithKey(r.0, key(x), key, 0);
      if k != key(x) {
        var a, b := Lookup(r.0, k, key), Lookup(s, k, key);
        if b.Some? {
          var i :| FirstWithKey(s, k, key, i) && s[i] == b.value;
          assert FirstWithKey(r.0, k, key, i + 1);
        }
        if a.Some? {
          var i :| FirstWithKey(r.0, k, key, i) && r.0[i] == a.value;
          assert FirstWithKey(s, k, key, i - 1);
        }
      }
    }
  }

  /** Two lists that agree index by index on ids have the same first position for
      every id. */
  lemma FirstWithKeyUnique<T>(s: seq<T>, t: seq<T>, k: string, key: T -> string, i: int, j: int)
    requires |s| == |t|
    requires forall m :: 0 <= m < |s| ==> key(s[m]) == key(t[m])
    requires FirstWithKey(s, k, key, i) && FirstWithKey(t, k, key, j)
    ensures i == j
  {
  }

  /** After a replacement the id of `x` reads as `x`, and every other id reads
      as before. */
  lemma LookupAfterReplace<T>(s: seq<T>, x: T, key: T -> string, k: string)
    ensures HasKey(s, key(x), key) ==> Lookup(Replace(s, x, key), key(x), key) == Some(x)
    ensures k != key(x) ==> Lookup(Replace(s, x, key), k, key) == Lookup(s, k, key)
  {
    var r := Replace(s, x, key);
    if HasKey(s, key(x), key) {
      var i :| FirstWithKey(s, key(x), key, i) && r == s[i := x];
      assert FirstWithKey(r, key(x), key, i);
      var a := Lookup(r, key(x), key);
      var m :| FirstWithKey(r, key(x), key, m) && r[m] == a.value;
      FirstWithKeyUnique(s, r, key(x), key, i, m);
      if k != key(x) {
        var b, c := Lookup(r, k, key), Lookup(s, k, key);
        if c.Some? {
          var p :| FirstWithKey(s, k, key, p) && s[p] == c.value;
          var q :| FirstWithKey(r, k, key, q) && r[q] == b.value;
          FirstWithKeyUnique(s, r, k, key, p, q);
        }
      }
    }
  }

  /** After a removal the id reads as absent, and every other id reads as before. */
  lemma {:induction false} LookupAfterRemove<T(!new)>(s: seq<T>, k: string, key: T -> string, k': string)
    ensures Lookup(Remove(s, k, key), k, key) == None
    ensures k' != k ==> Lookup(Remove(s, k, key), k', key) == Lookup(s, k', key)
  {
    if |s| > 0 && k' != k {
      var r := Remove(s, k, key);
      var rest := Remove(s[1..], k, key);
      LookupAfterRemove(s[1..], k, key, k');
      assert r == (if key(s[0]) != k then [s[0]] + rest else rest);
      LookupUnfold(s, k', key);
      if key(s[0]) != k {
        LookupUnfold(r, k', key);
        assert r[1..] == rest;
      }
    }
  }

  /** One step of `Lookup`: the head answers if its id matches, else the tail does. */
  lemma LookupUnfold<T>(s: seq<T>, k: string, key: T -> string)
    requires |s| > 0
    ensures Lookup(s, k, key) == if key(s[0]) == k then Some(s[0]) else Lookup(s[1..], k, key)
  {
    var a := Lookup(s, k, key);
    if key(s[0]) == k {
      assert FirstWithKey(s, k, key, 0);
      var i :| FirstWithKey(s, k, key, i) && s[i] == a.value;
    } else {
      var b := Lookup(s[1..], k, key);
      if a.Some? {
        var i :| FirstWithKey(s, k, key, i) && s[i] == a.value;
        assert FirstWithKey(s[1..], k, key, i - 1);
        var j :| FirstWithKey(s[1..], k, key, j) && s[1..][j] == b.value;
        assert FirstWithKey(s, k, key, j + 1);
      }
    }
  }
}
