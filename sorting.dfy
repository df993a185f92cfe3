/**
 * `Array.prototype.sort` with a numeric comparator, which ECMAScript requires to be stable,
 * written as an insertion sort on an integer key: ascending by `key`, equal keys in input order.
 */
module Sorting {

  /** Puts `x` in front of the first element whose key is not smaller than its own. */
  function Insert<T>(x: T, s: seq<T>, key: T -> int): (r: seq<T>)
    ensures multiset(r) == multiset(s) + multiset{x}
    ensures |r| == |s| + 1
    ensures forall i :: 0 <= i < |r| ==> r[i] == x || r[i] in s
  {
    if s == [] then [x]
    else if key(x) <= key(s[0]) then [x] + s
    else
      assert s == [s[0]] + s[1..];
      [s[0]] + Insert(x, s[1..], key)
  }

  /** The stable sort of `s` by ascending `key`. */
  function SortBy<T>(s: seq<T>, key: T -> int): (r: seq<T>)
    ensures multiset(r) == multiset(s)
    ensures |r| == |s|
  {
    if s == [] then []
    else
      assert s == [s[0]] + s[1..];
      Insert(s[0], SortBy(s[1..], key), key)
  }

  /** Keys never decrease along `s`. */
  ghost predicate SortedBy<T>(s: seq<T>, key: T -> int) {
    forall i, j :: 0 <= i < j < |s| ==> key(s[i]) <= key(s[j])
  }

  /**
   * Along `s`, keys never decrease and, among equal keys, `rank` strictly increases: `s` is
   * sorted by the pair (key, rank).
   */
  ghost predicate RankedBy<T>(s: seq<T>, key: T -> int, rank: T -> int) {
    forall i, j :: 0 <= i < j < |s| ==>
      key(s[i]) < key(s[j]) || (key(s[i]) == key(s[j]) && rank(s[i]) < rank(s[j]))
  }

  lemma {:induction false} InsertSorted<T>(x: T, s: seq<T>, key: T -> int)
    requires SortedBy(s, key)
    ensures SortedBy(Insert(x, s, key), key)
    decreases |s|
  {
    if s != [] && key(x) > key(s[0]) {
      var tail := Insert(x, s[1..], key);
      InsertSorted(x, s[1..], key);
      forall j | 0 <= j < |tail|
        ensures key(s[0]) <= key(tail[j])
      {
        if tail[j] != x {
          var k :| 0 <= k < |s[1..]| && s[1..][k] == tail[j];
          assert s[k + 1] == tail[j];
        }
      }
    }
  }

  /** The sort's output is ordered by key. */
  lemma {:induction false} SortBySorted<T>(s: seq<T>, key: T -> int)
    ensures SortedBy(SortBy(s, key), key)
    decreases |s|
  {
    if s != [] {
      SortBySorted(s[1..], key);
      InsertSorted(s[0], SortBy(s[1..], key), key);
    }
  }

  lemma {:induction false} InsertRanked<T>(x: T, s: seq<T>, key: T -> int, rank: T -> int)
    requires RankedBy(s, key, rank)
    requires forall i :: 0 <= i < |s| ==> rank(x) < rank(s[i])
    ensures RankedBy(Insert(x, s, key), key, rank)
    decreases |s|
  {
    if s != [] && key(x) > key(s[0]) {
      var tail := Insert(x, s[1..], key);
      InsertRanked(x, s[1..], key, rank);
      forall j | 0 <= j < |tail|
        ensures key(s[0]) < key(tail[j]) || (key(s[0]) == key(tail[j]) && rank(s[0]) < rank(tail[j]))
      {
        if tail[j] != x {
          var k :| 0 <= k < |s[1..]| && s[1..][k] == tail[j];
          assert s[k + 1] == tail[j];
        }
      }
    }
  }

  /**
   * Stability: when `rank` strictly increases along the input, the output is ordered by key and,
   * among equal keys, by `rank`, i.e. equal keys keep their input order.
   */
  lemma {:induction false} SortByStable<T>(s: seq<T>, key: T -> int, rank: T -> int)
    requires forall i, j :: 0 <= i < j < |s| ==> rank(s[i]) < rank(s[j])
    ensures RankedBy(SortBy(s, key), key, rank)
    decreases |s|
  {
    if s != [] {
      var rest := SortBy(s[1..], key);
      SortByStable(s[1..], key, rank);
      forall i | 0 <= i < |rest|
        ensures rank(s[0]) < rank(rest[i])
      {
        assert rest[i] in multiset(s[1..]);
        var k :| 0 <= k < |s[1..]| && s[1..][k] == rest[i];
        assert s[k + 1] == rest[i];
      }
      InsertRanked(s[0], rest, key, rank);
    }
  }

  /** The first element of a non-empty sorted output has the least key. */
  lemma {:induction false} SortedFirstIsLeast<T>(s: seq<T>, key: T -> int)
    requires s != []
    ensures forall i :: 0 <= i < |s| ==> key(SortBy(s, key)[0]) <= key(s[i])
    ensures forall i :: 0 <= i < |s| ==> key(s[i]) <= key(SortBy(s, key)[|s| - 1])
  {
    var r := SortBy(s, key);
    SortBySorted(s, key);
    forall i | 0 <= i < |s|
      ensures key(r[0]) <= key(s[i]) <= key(r[|r| - 1])
    {
      assert s[i] in multiset(s);
      assert s[i] in r;
      var k :| 0 <= k < |r| && r[k] == s[i];
      assert SortedBy(r, key);
    }
  }
}
