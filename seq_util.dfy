/**
 * The array operations the source relies on (`filter`, `map`, `findIndex`,
 * `Array.from(new Set(...))`), written once over sequences, with the facts
 * about them that the rest of the model uses.
 */
module SeqUtil {
  import opened Wrappers

  /** `sub` is obtained from `s` by deleting zero or more elements; the order is kept. */
  ghost predicate IsSubsequence<T>(sub: seq<T>, s: seq<T>)
    decreases |s|
  {
    |sub| == 0 ||
    (|s| > 0 &&
     ((sub[0] == s[0] && IsSubsequence(sub[1..], s[1..])) || IsSubsequence(sub, s[1..])))
  }

  /** Every sequence is a subsequence of itself. */
  lemma {:induction false} SubsequenceReflexive<T>(s: seq<T>)
    ensures IsSubsequence(s, s)
  {
    if |s| > 0 {
      SubsequenceReflexive(s[1..]);
    }
  }

  lemma {:induction false} SubsequenceTransitive<T>(a: seq<T>, b: seq<T>, c: seq<T>)
    requires IsSubsequence(a, b) && IsSubsequence(b, c)
    ensures IsSubsequence(a, c)
    decreases |c|
  {
    if |a| == 0 {
    } else if b[0] == c[0] && IsSubsequence(b[1..], c[1..]) {
      if a[0] == b[0] && IsSubsequence(a[1..], b[1..]) {
        SubsequenceTransitive(a[1..], b[1..], c[1..]);
      } else {
        SubsequenceTransitive(a, b[1..], c[1..]);
      }
    } else {
      SubsequenceTransitive(a, b, c[1..]);
    }
  }

  /** `Array.prototype.filter`: the elements of `s` that `keep` accepts, in order. */
  function Filter<T>(s: seq<T>, keep: T -> bool): (r: seq<T>)
    ensures |r| <= |s|
    ensures forall i :: 0 <= i < |r| ==> r[i] in s && keep(r[i])
    ensures forall i :: 0 <= i < |s| && keep(s[i]) ==> s[i] in r
    ensures IsSubsequence(r, s)
  {
    if |s| == 0 then []
    else if keep(s[0]) then [s[0]] + Filter(s[1..], keep)
    else Filter(s[1..], keep)
  }

  /** A filter only drops copies: no element occurs more often after it. */
  lemma {:induction false} FilterSubMultiset<T>(s: seq<T>, keep: T -> bool)
    ensures multiset(Filter(s, keep)) <= multiset(s)
  {
    if |s| > 0 {
      FilterSubMultiset(s[1..], keep);
      assert s == [s[0]] + s[1..];
      if keep(s[0]) {
        assert Filter(s, keep) == [s[0]] + Filter(s[1..], keep);
      }
    }
  }

  /** An element `keep` accepts occurs in the filtered sequence as often as in `s`. */
  lemma {:induction false} FilterKeepsCount<T>(s: seq<T>, keep: T -> bool, x: T)
    requires keep(x)
    ensures multiset(Filter(s, keep))[x] == multiset(s)[x]
  {
    if |s| > 0 {
      FilterKeepsCount(s[1..], keep, x);
      assert s == [s[0]] + s[1..];
      if keep(s[0]) {
        assert Filter(s, keep) == [s[0]] + Filter(s[1..], keep);
      }
    }
  }

  /** Both facts together: a filter drops copies only of the elements it rejects. */
  lemma FilterCounts<T>(s: seq<T>, keep: T -> bool)
    ensures multiset(Filter(s, keep)) <= multiset(s)
    ensures forall x :: keep(x) ==> multiset(Filter(s, keep))[x] == multiset(s)[x]
  {
    FilterSubMultiset(s, keep);
    forall x | keep(x) ensures multiset(Filter(s, keep))[x] == multiset(s)[x] {
      FilterKeepsCount(s, keep, x);
    }
  }

  /** When the keys of `s` are pairwise distinct, so are the keys of any filter of it. */
  lemma {:induction false} FilterKeepsKeysDistinct<T, K>(s: seq<T>, keep: T -> bool, key: T -> K)
    requires forall i, j :: 0 <= i < j < |s| ==> key(s[i]) != key(s[j])
    ensures forall i, j :: 0 <= i < j < |Filter(s, keep)| ==> key(Filter(s, keep)[i]) != key(Filter(s, keep)[j])
  {
    if |s| > 0 {
      var tail := s[1..];
      forall i, j | 0 <= i < j < |tail| ensures key(tail[i]) != key(tail[j]) {
        assert tail[i] == s[i + 1] && tail[j] == s[j + 1];
      }
      FilterKeepsKeysDistinct(tail, keep, key);
      var rest := Filter(tail, keep);
      if keep(s[0]) {
        var r := [s[0]] + rest;
        assert Filter(s, keep) == r;
        forall i, j | 0 <= i < j < |r| ensures key(r[i]) != key(r[j]) {
          assert r[j] == rest[j - 1];
          if i == 0 {
            assert rest[j - 1] in tail;
            var k :| 0 <= k < |tail| && tail[k] == rest[j - 1];
            assert r[0] == s[0] && s[k + 1] == r[j];
            assert key(s[0]) != key(s[k + 1]);
          } else {
            assert r[i] == rest[i - 1];
            assert key(rest[i - 1]) != key(rest[j - 1]);
          }
        }
      } else {
        assert Filter(s, keep) == rest;
      }
    }
  }

  /** Filtering distributes over concatenation. */
  lemma {:induction false} FilterAppend<T>(a: seq<T>, b: seq<T>, keep: T -> bool)
    ensures Filter(a + b, keep) == Filter(a, keep) + Filter(b, keep)
  {
    if |a| == 0 {
      assert a + b == b;
    } else {
      assert (a + b)[1..] == a[1..] + b;
      FilterAppend(a[1..], b, keep);
    }
  }

  /** A filter that accepts every element gives the sequence back. */
  lemma {:induction false} FilterAll<T>(s: seq<T>, keep: T -> bool)
    requires forall i :: 0 <= i < |s| ==> keep(s[i])
    ensures Filter(s, keep) == s
  {
    if |s| > 0 {
      FilterAll(s[1..], keep);
    }
  }

  /** `Array.prototype.map`: `f` applied to each element, position by position. */
  function Map<T, U>(s: seq<T>, f: T -> U): (r: seq<U>)
    ensures |r| == |s|
    ensures forall i :: 0 <= i < |s| ==> r[i] == f(s[i])
  {
    if |s| == 0 then [] else [f(s[0])] + Map(s[1..], f)
  }

  /** Mapping distributes over concatenation. */
  lemma {:induction false} MapAppend<T, U>(a: seq<T>, b: seq<T>, f: T -> U)
    ensures Map(a + b, f) == Map(a, f) + Map(b, f)
  {
    var l, r := Map(a + b, f), Map(a, f) + Map(b, f);
    assert |l| == |r|;
    forall i | 0 <= i < |l| ensures l[i] == r[i] {
      if i < |a| {
        assert (a + b)[i] == a[i];
      } else {
        assert (a + b)[i] == b[i - |a|];
      }
    }
  }

  /** `Array.prototype.findIndex`: the first position whose element satisfies `p`, or None (the source's -1). */
  function FindIndex<T>(s: seq<T>, p: T -> bool): (r: Option<nat>)
    ensures r.None? ==> forall i :: 0 <= i < |s| ==> !p(s[i])
    ensures r.Some? ==> r.value < |s| && p(s[r.value]) && forall i :: 0 <= i < r.value ==> !p(s[i])
  {
    if |s| == 0 then None
    else if p(s[0]) then Some(0)
    else
      match FindIndex(s[1..], p)
      case None => None
      case Some(i) => Some(i + 1)
  }

  /** The position of the first occurrence of `x` in `s`. */
  function FirstIndexOf<T(==)>(s: seq<T>, x: T): (k: nat)
    requires x in s
    ensures k < |s| && s[k] == x
    ensures forall j :: 0 <= j < k ==> s[j] != x
  {
    if s[0] == x then 0 else 1 + FirstIndexOf(s[1..], x)
  }

  /**
   * `Array.from(new Set(s))`: each distinct element of `s` once, in the order
   * in which a JavaScript `Set` keeps its keys (order of first insertion).
   */
  function Distinct<T(==)>(s: seq<T>): (r: seq<T>)
    ensures forall i :: 0 <= i < |r| ==> r[i] in s
    ensures forall i :: 0 <= i < |s| ==> s[i] in r
    ensures forall i, j :: 0 <= i < j < |r| ==> r[i] != r[j]
    decreases |s|
  {
    if |s| == 0 then []
    else
      var init, last := s[..|s| - 1], s[|s| - 1];
      assert s == init + [last];
      var d := Distinct(init);
      if last in d then d else d + [last]
  }

  /** Extending a sequence does not move the first occurrence of an element already in it. */
  lemma FirstIndexOfPrefix<T>(s: seq<T>, n: nat, x: T)
    requires n <= |s| && x in s[..n]
    ensures FirstIndexOf(s, x) == FirstIndexOf(s[..n], x)
  {
    var a, b := FirstIndexOf(s, x), FirstIndexOf(s[..n], x);
    assert s[b] == x;
    assert s[..n][a] == x;
  }

  /** `Distinct` lists the elements in the order of their first occurrence in `s`. */
  lemma {:induction false} DistinctFirstOccurrenceOrder<T>(s: seq<T>, i: nat, j: nat)
    requires i < j < |Distinct(s)|
    ensures Distinct(s)[i] in s && Distinct(s)[j] in s
    ensures FirstIndexOf(s, Distinct(s)[i]) < FirstIndexOf(s, Distinct(s)[j])
    decreases |s|
  {
    var n := |s| - 1;
    var init, last := s[..n], s[n];
    assert s == init + [last];
    var d := Distinct(init);
    var x, y := Distinct(s)[i], Distinct(s)[j];
    assert x in init by {
      assert i < |d| && x == d[i];
    }
    FirstIndexOfPrefix(s, n, x);
    if j < |d| {
      assert y == d[j];
      FirstIndexOfPrefix(s, n, y);
      DistinctFirstOccurrenceOrder(init, i, j);
    } else {
      assert y == last && last !in init;
      assert FirstIndexOf(s, y) == n;
    }
  }
}
