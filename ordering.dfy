/** `ORDER BY key DESC` and "sort descending, take the first": a stable
    insertion sort on sequences, and the first element of greatest key. */
module Ordering {

  ghost predicate SortedDesc<T>(s: seq<T>, key: T -> int) {
    forall i, j :: 0 <= i < j < |s| ==> key(s[i]) >= key(s[j])
  }

  /** Inserts `x` in front of the first element whose key does not exceed
      `key(x)`, so that `x` precedes the elements it ties with. */
  function Insert<T>(x: T, s: seq<T>, key: T -> int): (r: seq<T>)
    ensures |r| == |s| + 1
    ensures r[0] == (if s == [] || key(x) >= key(s[0]) then x else s[0])
  {
    if s == [] || key(x) >= key(s[0]) then [x] + s
    else [s[0]] + Insert(x, s[1..], key)
  }

  lemma {:induction false} InsertKeepsElements<T>(x: T, s: seq<T>, key: T -> int)
    ensures multiset(Insert(x, s, key)) == multiset(s) + multiset{x}
  {
    if s != [] && key(x) < key(s[0]) {
      InsertKeepsElements(x, s[1..], key);
      assert s == [s[0]] + s[1..];
    }
  }

  lemma {:induction false} InsertKeepsSorted<T>(x: T, s: seq<T>, key: T -> int)
    requires SortedDesc(s, key)
    ensures SortedDesc(Insert(x, s, key), key)
  {
    if s != [] && key(x) < key(s[0]) {
      var rest := Insert(x, s[1..], key);
      InsertKeepsSorted(x, s[1..], key);
      var r := [s[0]] + rest;
      assert key(s[0]) >= key(rest[0]);
      forall i, j | 0 <= i < j < |r| ensures key(r[i]) >= key(r[j]) {
        assert r[j] == rest[j - 1];
        if i > 0 {
          assert r[i] == rest[i - 1];
        } else {
          assert key(rest[0]) >= key(rest[j - 1]);
        }
      }
    }
  }

  /** A stable sort by descending key. */
  function SortDesc<T>(s: seq<T>, key: T -> int): (r: seq<T>)
    ensures SortedDesc(r, key)
    ensures multiset(r) == multiset(s)
    ensures |r| == |s|
  {
    if s == [] then []
    else
      var t := SortDesc(s[1..], key);
      InsertKeepsSorted(s[0], t, key);
      InsertKeepsElements(s[0], t, key);
      assert s == [s[0]] + s[1..];
      Insert(s[0], t, key)
  }

  /** The position of the first element of greatest key. */
  function FirstMaxIndex<T>(s: seq<T>, key: T -> int): (k: nat)
    requires |s| > 0
    ensures k < |s|
    ensures forall j :: 0 <= j < |s| ==> key(s[j]) <= key(s[k])
    ensures forall j :: 0 <= j < k ==> key(s[j]) < key(s[k])
  {
    if |s| == 1 then 0
    else
      var k := FirstMaxIndex(s[1..], key);
      if key(s[0]) >= key(s[1 + k]) then 0 else 1 + k
  }

  /** Sorting descending and taking element 0 yields the first element of
      greatest key: ties go to the earliest in input order. */
  lemma {:induction false} SortDescHeadIsFirstMax<T>(s: seq<T>, key: T -> int)
    requires |s| > 0
    ensures SortDesc(s, key)[0] == s[FirstMaxIndex(s, key)]
  {
    if |s| > 1 {
      var t := SortDesc(s[1..], key);
      SortDescHeadIsFirstMax(s[1..], key);
      assert t[0] == s[1 + FirstMaxIndex(s[1..], key)];
    }
  }
}
