/**
  * Array.prototype.sort with a numeric comparator `(a, b) => key(a) - key(b)`:
  * a sort by an integer key; the order it leaves among equal keys is its
  * own. The app sorts its lists in place; here the sorted list is a new value.
  */
module Sorting {

  predicate SortedBy<T>(s: seq<T>, key: T -> int) {
    forall i, j :: 0 <= i < j < |s| ==> key(s[i]) <= key(s[j])
  }

  /** Inserts `x` before the first element whose key is not below its own. */
  function Insert<T>(x: T, s: seq<T>, key: T -> int): (r: seq<T>)
    requires SortedBy(s, key)
    ensures SortedBy(r, key)
    ensures multiset(r) == multiset(s) + multiset{x}
    ensures |r| == |s| + 1
    ensures r[0] == x || (s != [] && r[0] == s[0])
  {
    if s == [] || key(x) <= key(s[0]) then [x] + s
    else
      var rest := Insert(x, s[1..], key);
      assert key(s[0]) <= key(rest[0]);
      assert s == [s[0]] + s[1..];
      [s[0]] + rest
  }

  /** The list sorted by ascending key. */
  function SortBy<T>(s: seq<T>, key: T -> int): (r: seq<T>)
    ensures SortedBy(r, key)
    ensures multiset(r) == multiset(s)
    ensures |r| == |s|
  {
    if s == [] then []
    else
      assert s == [s[0]] + s[1..];
      Insert(s[0], SortBy(s[1..], key), key)
  }

  /** An element of a sorted list's head has the least key of the input. */
  lemma HeadIsLeast<T>(s: seq<T>, key: T -> int, y: T)
    requires y in s
    ensures SortBy(s, key) != [] && key(SortBy(s, key)[0]) <= key(y)
  {
    var r := SortBy(s, key);
    assert y in multiset(s);
    assert y in multiset(r);
    var j :| 0 <= j < |r| && r[j] == y;
  }

  /** A list already in key order comes back unchanged. */
  lemma {:induction false} SortBySorted<T>(s: seq<T>, key: T -> int)
    requires SortedBy(s, key)
    ensures SortBy(s, key) == s
  {
    if s != [] {
      SortBySorted(s[1..], key);
      assert s == [s[0]] + s[1..];
    }
  }
}
