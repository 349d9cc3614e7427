/** The order in which the source folder is processed (`_get_files` with
    `_file_sort`): the listing is sorted by the part of each name before its
    first `_`, with Python's stable `sorted`, so names with the same prefix
    keep their listing order. */
module Listing {
  import opened Strings

  /** `_file_sort`: the sort key of a name, its first `_`-separated piece. */
  function FileSortKey(name: string): (k: string)
    ensures k <= name
    ensures '_' !in k
  {
    FirstPieceIsPrefix(name, '_');
    Split(name, '_')[0]
  }

  /** Inserts `x` before the first element whose key is strictly greater,
      so after every element whose key is equal: the step of a stable sort. */
  function InsertByKey(s: seq<string>, x: string): seq<string>
    decreases |s|
  {
    if s == [] then [x]
    else if LexLt(FileSortKey(x), FileSortKey(s[0])) then [x] + s
    else [s[0]] + InsertByKey(s[1..], x)
  }

  /** `sorted(listing, key=_file_sort)`: insertion of each name in listing order. */
  function SortListing(listing: seq<string>): seq<string>
    decreases |listing|
  {
    if listing == [] then []
    else InsertByKey(SortListing(listing[..|listing| - 1]), listing[|listing| - 1])
  }

  predicate SortedByKey(s: seq<string>) {
    forall i, j | 0 <= i < j < |s| :: LexLe(FileSortKey(s[i]), FileSortKey(s[j]))
  }

  /** The names of `s` whose key is `k`, in their order. */
  function WithSortKey(s: seq<string>, k: string): seq<string>
    decreases |s|
  {
    if s == [] then []
    else (if FileSortKey(s[0]) == k then [s[0]] else []) + WithSortKey(s[1..], k)
  }

  lemma {:induction false} InsertByKeyPermutes(s: seq<string>, x: string)
    ensures multiset(InsertByKey(s, x)) == multiset(s) + multiset{x}
    decreases |s|
  {
    if s != [] && !LexLt(FileSortKey(x), FileSortKey(s[0])) {
      InsertByKeyPermutes(s[1..], x);
      assert s == [s[0]] + s[1..];
    }
  }

  lemma {:induction false} InsertByKeySorted(s: seq<string>, x: string)
    requires SortedByKey(s)
    ensures SortedByKey(InsertByKey(s, x))
    decreases |s|
  {
    if s != [] {
      var r := InsertByKey(s, x);
      var kx := FileSortKey(x);
      if LexLt(kx, FileSortKey(s[0])) {
        forall i, j | 0 <= i < j < |r| ensures LexLe(FileSortKey(r[i]), FileSortKey(r[j])) {
          if i == 0 && j > 1 { LexLeTransitive(kx, FileSortKey(s[0]), FileSortKey(s[j - 1])); }
        }
      } else {
        LexLeTotal(kx, FileSortKey(s[0]));
        if kx == FileSortKey(s[0]) { LexLeReflexive(kx); }
        InsertByKeySorted(s[1..], x);
        InsertByKeyBound(s[1..], x, FileSortKey(s[0]));
        assert r == [s[0]] + InsertByKey(s[1..], x);
      }
    }
  }

  /** A lower bound on the keys of `s` and of `x` bounds the keys after the insertion. */
  lemma InsertByKeyBound(s: seq<string>, x: string, lo: string)
    requires forall j | 0 <= j < |s| :: LexLe(lo, FileSortKey(s[j]))
    requires LexLe(lo, FileSortKey(x))
    ensures forall j | 0 <= j < |InsertByKey(s, x)| :: LexLe(lo, FileSortKey(InsertByKey(s, x)[j]))
  {
    var t := InsertByKey(s, x);
    InsertByKeyPermutes(s, x);
    forall j | 0 <= j < |t| ensures LexLe(lo, FileSortKey(t[j])) {
      assert t[j] in multiset(t);
      if t[j] != x {
        assert t[j] in multiset(s);
        var k :| 0 <= k < |s| && s[k] == t[j];
      }
    }
  }

  /** In a list sorted by key, inserting `x` puts it after every name with
      its key, so each key's subsequence gains `x` at its end or not at all. */
  lemma {:induction false} InsertByKeyStable(s: seq<string>, x: string, k: string)
    requires SortedByKey(s)
    ensures WithSortKey(InsertByKey(s, x), k) == WithSortKey(s, k) + (if FileSortKey(x) == k then [x] else [])
    decreases |s|
  {
    if s == [] {
    } else if LexLt(FileSortKey(x), FileSortKey(s[0])) {
      WithSortKeyCons(x, s, k);
      if FileSortKey(x) == k {
        NoneWithSmallerKey(s, k);
      }
    } else {
      assert SortedByKey(s[1..]);
      InsertByKeyStable(s[1..], x, k);
      WithSortKeyCons(s[0], InsertByKey(s[1..], x), k);
      WithSortKeyCons(s[0], s[1..], k);
      assert [s[0]] + s[1..] == s;
    }
  }

  lemma WithSortKeyCons(a: string, t: seq<string>, k: string)
    ensures WithSortKey([a] + t, k) == (if FileSortKey(a) == k then [a] else []) + WithSortKey(t, k)
  {
    assert ([a] + t)[1..] == t;
  }

  /** A list sorted by key whose first key exceeds `k` holds no name with key `k`. */
  lemma {:induction false} NoneWithSmallerKey(s: seq<string>, k: string)
    requires SortedByKey(s) && s != [] && LexLt(k, FileSortKey(s[0]))
    ensures WithSortKey(s, k) == []
    decreases |s|
  {
    if FileSortKey(s[0]) == k {
      assert false;
    }
    if |s| > 1 {
      assert LexLe(FileSortKey(s[0]), FileSortKey(s[1]));
      LexLeTransitive(k, FileSortKey(s[0]), FileSortKey(s[1]));
      if k == FileSortKey(s[1]) {
        LexLeAntisymmetric(k, FileSortKey(s[0]));
      }
      assert SortedByKey(s[1..]);
      NoneWithSmallerKey(s[1..], k);
    }
  }

  lemma WithSortKeyAppend(s: seq<string>, x: string, k: string)
    ensures WithSortKey(s + [x], k) == WithSortKey(s, k) + (if FileSortKey(x) == k then [x] else [])
    decreases |s|
  {
    if s != [] {
      WithSortKeyAppend(s[1..], x, k);
      assert (s + [x])[1..] == s[1..] + [x];
    }
  }

  /** The listing comes out sorted by key, as a permutation of the listing. */
  lemma {:induction false} SortListingSortedPermutation(listing: seq<string>)
    ensures SortedByKey(SortListing(listing))
    ensures multiset(SortListing(listing)) == multiset(listing)
    decreases |listing|
  {
    if listing != [] {
      var init, x := listing[..|listing| - 1], listing[|listing| - 1];
      SortListingSortedPermutation(init);
      InsertByKeySorted(SortListing(init), x);
      InsertByKeyPermutes(SortListing(init), x);
      assert listing == init + [x];
    }
  }

  /** The sort is stable: the names with any one key keep their listing order. */
  lemma {:induction false} SortListingStable(listing: seq<string>, k: string)
    ensures WithSortKey(SortListing(listing), k) == WithSortKey(listing, k)
    decreases |listing|
  {
    if listing != [] {
      var init, x := listing[..|listing| - 1], listing[|listing| - 1];
      SortListingStable(init, k);
      SortListingSortedPermutation(init);
      InsertByKeyStable(SortListing(init), x, k);
      WithSortKeyAppend(init, x, k);
      assert listing == init + [x];
    }
  }
}
