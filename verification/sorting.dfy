/** The ordering the document store applies for `.sort({ field: 1 })` and
    `.sort({ field: -1 })`: an insertion sort on a real-valued key (a descending sort
    is an ascending sort on the negated key). The store does not specify the order of
    ties, so only sortedness and the permutation are promised. */
module Sorting {
  import opened Common

  ghost predicate SortedBy<T>(s: seq<T>, key: T -> real) {
    forall i, j :: 0 <= i < j < |s| ==> key(s[i]) <= key(s[j])
  }

  function Insert<T>(x: T, s: seq<T>, key: T -> real): (r: seq<T>)
    ensures |r| == |s| + 1
    ensures multiset(r) == multiset(s) + multiset{x}
  {
    if s == [] || key(x) <= key(s[0]) then
      [x] + s
    else
      assert s == [s[0]] + s[1..];
      [s[0]] + Insert(x, s[1..], key)
  }

  lemma {:induction false} InsertSorted<T>(x: T, s: seq<T>, key: T -> real)
    requires SortedBy(s, key)
    ensures SortedBy(Insert(x, s, key), key)
  {
    if s == [] || key(x) <= key(s[0]) {
      var r := [x] + s;
      forall i, j | 0 <= i < j < |r| ensures key(r[i]) <= key(r[j]) {
        if i == 0 && j > 1 {
          assert key(s[0]) <= key(s[j - 1]);
        }
      }
    } else {
      var rest := Insert(x, s[1..], key);
      InsertSorted(x, s[1..], key);
      var r := [s[0]] + rest;
      forall k | 0 <= k < |s[1..]| ensures key(s[0]) <= key(s[1..][k]) {
        assert s[1..][k] == s[k + 1];
      }
      InsertBounded(x, s[1..], key, key(s[0]));
      forall i, j | 0 <= i < j < |r| ensures key(r[i]) <= key(r[j]) {
        if i > 0 {
          assert r[i] == rest[i - 1] && r[j] == rest[j - 1];
        }
      }
    }
  }

  /** Inserting keeps a lower bound on the keys that `x` and every element respect. */
  lemma {:induction false} InsertBounded<T>(x: T, s: seq<T>, key: T -> real, b: real)
    requires b <= key(x)
    requires forall k :: 0 <= k < |s| ==> b <= key(s[k])
    ensures forall k :: 0 <= k < |Insert(x, s, key)| ==> b <= key(Insert(x, s, key)[k])
  {
    if s != [] && key(s[0]) < key(x) {
      var tail := s[1..];
      forall k | 0 <= k < |tail| ensures b <= key(tail[k]) {
        assert tail[k] == s[k + 1];
      }
      InsertBounded(x, tail, key, b);
      var r := [s[0]] + Insert(x, tail, key);
      forall k | 0 <= k < |r| ensures b <= key(r[k]) {
        if k > 0 {
          assert r[k] == Insert(x, tail, key)[k - 1];
        }
      }
    }
  }

  function SortBy<T>(s: seq<T>, key: T -> real): (r: seq<T>)
    ensures |r| == |s|
    ensures multiset(r) == multiset(s)
    ensures SortedBy(r, key)
  {
    if s == [] then []
    else
      assert s == [s[0]] + s[1..];
      var rest := SortBy(s[1..], key);
      InsertSorted(s[0], rest, key);
      Insert(s[0], rest, key)
  }

  /** The elements of a sorted result are exactly the elements of the input. */
  lemma SortByMembers<T>(s: seq<T>, key: T -> real, x: T)
    ensures x in SortBy(s, key) <==> x in s
  {
    assert x in SortBy(s, key) <==> x in multiset(SortBy(s, key));
  }

  /** The first element of a sorted sequence has the least key. */
  lemma {:induction false} FirstIsLeast<T>(s: seq<T>, key: T -> real)
    requires SortedBy(s, key) && s != []
    ensures forall x :: x in s ==> key(s[0]) <= key(x)
  {
    forall x | x in s ensures key(s[0]) <= key(x) {
      var k :| 0 <= k < |s| && s[k] == x;
      if k > 0 {
        assert key(s[0]) <= key(s[k]);
      }
    }
  }

  /** A page of a listing: the selected elements sorted by `key`, cut to the first `n`
      (all of them when `n` is 0). Every entry is selected, the page is sorted, and when
      the cut does not bite it holds every selected element. */
  lemma SortedPage<T>(s: seq<T>, keep: T -> bool, key: T -> real, n: nat)
    ensures var page := Take(SortBy(Filter(s, keep), key), n);
      && (forall k :: 0 <= k < |page| ==> page[k] in s && keep(page[k]))
      && SortedBy(page, key)
      && (n > 0 ==> |page| <= n)
      && (n == 0 || Count(s, keep) <= n ==> forall x :: x in s && keep(x) ==> x in page)
  {
    var matching := Filter(s, keep);
    var sorted := SortBy(matching, key);
    var page := Take(sorted, n);
    forall k | 0 <= k < |page| ensures page[k] in s && keep(page[k]) {
      assert page[k] == sorted[k];
      SortByMembers(matching, key, page[k]);
      FilterMembers(s, keep, page[k]);
    }
    forall i, j | 0 <= i < j < |page| ensures key(page[i]) <= key(page[j]) {
      assert page[i] == sorted[i] && page[j] == sorted[j];
    }
    if n == 0 || Count(s, keep) <= n {
      assert page == sorted;
      forall x | x in s && keep(x) ensures x in page {
        FilterMembers(s, keep, x);
        SortByMembers(matching, key, x);
      }
    }
  }

  /** Every element at a position below `m` is in the prefix of length `m`. */
  lemma PrefixMembers<T>(s: seq<T>, m: nat)
    requires m <= |s|
    ensures forall i :: 0 <= i < m ==> s[i] in s[..m]
  {
    forall i | 0 <= i < m ensures s[i] in s[..m] {
      assert s[..m][i] == s[i];
    }
  }

  /** The cut keeps `n` entries of the sorted selection when more are selected (all of
      them otherwise), and repeats no element more often than the selection holds it. */
  lemma SortedPageSize<T>(s: seq<T>, keep: T -> bool, key: T -> real, n: nat)
    ensures var page := Take(SortBy(Filter(s, keep), key), n);
      && |page| == (if n == 0 || Count(s, keep) <= n then Count(s, keep) else n)
      && multiset(page) <= multiset(Filter(s, keep))
  {
    var sorted := SortBy(Filter(s, keep), key);
    var page := Take(sorted, n);
    assert sorted == page + sorted[|page|..];
    assert multiset(sorted) == multiset(page) + multiset(sorted[|page|..]);
  }

  /** The cut keeps the first `n` of the sorted selection: every selected element left
      off the page has a key at least that of every page entry. */
  lemma SortedPageTop<T>(s: seq<T>, keep: T -> bool, key: T -> real, n: nat)
    ensures var page := Take(SortBy(Filter(s, keep), key), n);
      forall x, k :: x in s && keep(x) && x !in page && 0 <= k < |page| ==> key(page[k]) <= key(x)
  {
    var matching := Filter(s, keep);
    var sorted := SortBy(matching, key);
    var page := Take(sorted, n);
    PrefixMembers(sorted, |page|);
    forall x, k | x in s && keep(x) && x !in page && 0 <= k < |page| ensures key(page[k]) <= key(x) {
      FilterMembers(s, keep, x);
      SortByMembers(matching, key, x);
      var i :| 0 <= i < |sorted| && sorted[i] == x;
      assert i >= |page|;
      assert page[k] == sorted[k];
    }
  }
}
