// Sequence helpers shared by the board store and the card editor.
// Every `filter` in the board store removes the elements whose key equals a
// given value; `Without` is that one shape, with the key passed as a named
// function so that all uses of one key denote the same function value.
module Seqs {

  /** The number of elements of `s` whose key is `k`. */
  function CountOf<T, K(==)>(s: seq<T>, key: T -> K, k: K): (n: nat)
    ensures n <= |s|
    ensures n == 0 <==> forall i :: 0 <= i < |s| ==> key(s[i]) != k
  {
    if s == [] then 0 else (if key(s[0]) == k then 1 else 0) + CountOf(s[1..], key, k)
  }

  /** `s.filter(x => key(x) !== k)`: the elements whose key is not `k`, in order. */
  function Without<T(==), K(==)>(s: seq<T>, key: T -> K, k: K): (r: seq<T>)
    ensures |r| + CountOf(s, key, k) == |s|
    ensures forall i :: 0 <= i < |r| ==> r[i] in s && key(r[i]) != k
    ensures forall i :: 0 <= i < |s| && key(s[i]) != k ==> s[i] in r
  {
    if s == [] then [] else (if key(s[0]) == k then [] else [s[0]]) + Without(s[1..], key, k)
  }

  /** The elements whose key is `k`, in order: what `Without` removes. */
  function Only<T, K(==)>(s: seq<T>, key: T -> K, k: K): (r: seq<T>)
    ensures |r| == CountOf(s, key, k)
    ensures forall i :: 0 <= i < |r| ==> key(r[i]) == k
  {
    if s == [] then [] else (if key(s[0]) == k then [s[0]] else []) + Only(s[1..], key, k)
  }

  /** `s.map(f)`. */
  function Map<T, U>(s: seq<T>, f: T -> U): (r: seq<U>)
    ensures |r| == |s|
    ensures forall i :: 0 <= i < |s| ==> r[i] == f(s[i])
  {
    if s == [] then [] else [f(s[0])] + Map(s[1..], f)
  }

  /** `r` is obtained from `s` by deleting zero or more elements. */
  predicate IsSubsequence<T(==)>(r: seq<T>, s: seq<T>)
    decreases |s|
  {
    if r == [] then true
    else if s == [] then false
    else (r[0] == s[0] && IsSubsequence(r[1..], s[1..])) || IsSubsequence(r, s[1..])
  }

  /** No element occurs twice. */
  predicate NoDuplicates<T(==)>(s: seq<T>) {
    forall i, j :: 0 <= i < j < |s| ==> s[i] != s[j]
  }

  /** `filter` keeps the order of what it keeps. */
  lemma {:induction false} WithoutIsSubsequence<T, K>(s: seq<T>, key: T -> K, k: K)
    ensures IsSubsequence(Without(s, key, k), s)
  {
    if s != [] {
      WithoutIsSubsequence(s[1..], key, k);
      var rest := Without(s[1..], key, k);
      if key(s[0]) == k {
        assert Without(s, key, k) == rest;
        if rest != [] {
          assert rest[0] in rest;
        }
      } else {
        assert Without(s, key, k) == [s[0]] + rest;
        assert ([s[0]] + rest)[1..] == rest;
      }
    }
  }

  /** Removing nothing leaves the sequence as it was. */
  lemma {:induction false} WithoutAbsent<T, K>(s: seq<T>, key: T -> K, k: K)
    requires CountOf(s, key, k) == 0
    ensures Without(s, key, k) == s
  {
    if s != [] {
      WithoutAbsent(s[1..], key, k);
      assert [s[0]] + s[1..] == s;
    }
  }

  lemma {:induction false} WithoutConcat<T, K>(a: seq<T>, b: seq<T>, key: T -> K, k: K)
    ensures Without(a + b, key, k) == Without(a, key, k) + Without(b, key, k)
  {
    if a == [] {
      assert a + b == b;
    } else {
      var head := if key(a[0]) == k then [] else [a[0]];
      assert (a + b)[0] == a[0];
      assert (a + b)[1..] == a[1..] + b;
      calc {
        Without(a + b, key, k);
        head + Without(a[1..] + b, key, k);
        { WithoutConcat(a[1..], b, key, k); }
        head + (Without(a[1..], key, k) + Without(b, key, k));
        (head + Without(a[1..], key, k)) + Without(b, key, k);
      }
    }
  }

  lemma {:induction false} CountOfConcat<T, K>(a: seq<T>, b: seq<T>, key: T -> K, k: K)
    ensures CountOf(a + b, key, k) == CountOf(a, key, k) + CountOf(b, key, k)
  {
    if a == [] {
      assert a + b == b;
    } else {
      assert (a + b)[0] == a[0];
      assert (a + b)[1..] == a[1..] + b;
      CountOfConcat(a[1..], b, key, k);
    }
  }

  lemma {:induction false} WithoutIdempotent<T, K>(s: seq<T>, key: T -> K, k: K)
    ensures Without(Without(s, key, k), key, k) == Without(s, key, k)
  {
    var r := Without(s, key, k);
    WithoutAbsent(r, key, k);
  }

  /** What `Without` keeps and what it removes make up the whole. */
  lemma {:induction false} WithoutOnlySplit<T, K>(s: seq<T>, key: T -> K, k: K)
    ensures multiset(Without(s, key, k)) + multiset(Only(s, key, k)) == multiset(s)
  {
    if s != [] {
      var w, o := Without(s[1..], key, k), Only(s[1..], key, k);
      var head := multiset{s[0]};
      assert s == [s[0]] + s[1..];
      assert multiset(s) == head + multiset(s[1..]);
      calc {
        multiset(Without(s, key, k)) + multiset(Only(s, key, k));
        { if key(s[0]) == k { assert Only(s, key, k) == [s[0]] + o; }
          else { assert Without(s, key, k) == [s[0]] + w; } }
        head + (multiset(w) + multiset(o));
        { WithoutOnlySplit(s[1..], key, k); }
        multiset(s);
      }
    }
  }

  lemma {:induction false} SubsequenceNoDuplicates<T>(r: seq<T>, s: seq<T>)
    requires IsSubsequence(r, s) && NoDuplicates(s)
    ensures NoDuplicates(r)
    decreases |s|
  {
    if r != [] {
      assert s != [];
      assert NoDuplicates(s[1..]) by {
        forall i, j | 0 <= i < j < |s[1..]| ensures s[1..][i] != s[1..][j] {
          assert s[1..][i] == s[i + 1] && s[1..][j] == s[j + 1];
        }
      }
      if r[0] == s[0] && IsSubsequence(r[1..], s[1..]) {
        SubsequenceNoDuplicates(r[1..], s[1..]);
        SubsequenceElements(r[1..], s[1..]);
        forall j | 0 < j < |r| ensures r[0] != r[j] {
          assert r[1..][j - 1] == r[j];
          assert r[j] in s[1..];
          var m :| 0 <= m < |s[1..]| && s[1..][m] == r[j];
          assert s[m + 1] == r[j];
        }
      } else {
        SubsequenceNoDuplicates(r, s[1..]);
      }
    }
  }

  /** Every element of a subsequence is an element of the whole. */
  lemma {:induction false} SubsequenceElements<T>(r: seq<T>, s: seq<T>)
    requires IsSubsequence(r, s)
    ensures forall i :: 0 <= i < |r| ==> r[i] in s
    decreases |s|
  {
    if r != [] {
      if r[0] == s[0] && IsSubsequence(r[1..], s[1..]) {
        SubsequenceElements(r[1..], s[1..]);
        assert r == [r[0]] + r[1..];
        assert s == [s[0]] + s[1..];
      } else {
        SubsequenceElements(r, s[1..]);
        assert s == [s[0]] + s[1..];
      }
    }
  }

  lemma WithoutNoDuplicates<T, K>(s: seq<T>, key: T -> K, k: K)
    requires NoDuplicates(s)
    ensures NoDuplicates(Without(s, key, k))
  {
    WithoutIsSubsequence(s, key, k);
    SubsequenceNoDuplicates(Without(s, key, k), s);
  }

  /** Filtering out the one element with key `k` removes exactly its position. */
  lemma WithoutOnlyAt<T, K>(before: seq<T>, x: T, after: seq<T>, key: T -> K, k: K)
    requires key(x) == k && CountOf(before, key, k) == 0 && CountOf(after, key, k) == 0
    ensures Without(before + [x] + after, key, k) == before + after
  {
    WithoutDropsLast(before, x, key, k);
    WithoutConcat(before + [x], after, key, k);
    WithoutAbsent(after, key, k);
  }

  lemma WithoutDropsLast<T, K>(before: seq<T>, x: T, key: T -> K, k: K)
    requires key(x) == k && CountOf(before, key, k) == 0
    ensures Without(before + [x], key, k) == before
  {
    WithoutConcat(before, [x], key, k);
    assert Without([x], key, k) == [];
    WithoutAbsent(before, key, k);
  }

  /** The facts about `filter` its callers rely on, in one call: order is kept, removing
      nothing changes nothing, and duplicate freedom survives. */
  lemma WithoutFacts<T, K>(s: seq<T>, key: T -> K, k: K)
    ensures IsSubsequence(Without(s, key, k), s)
    ensures CountOf(s, key, k) == 0 ==> Without(s, key, k) == s
    ensures NoDuplicates(s) ==> NoDuplicates(Without(s, key, k))
  {
    WithoutIsSubsequence(s, key, k);
    if CountOf(s, key, k) == 0 {
      WithoutAbsent(s, key, k);
    }
    if NoDuplicates(s) {
      WithoutNoDuplicates(s, key, k);
    }
  }
}
