/** A stable insertion sort by a real-valued key, the model of the sorts the backend asks for. */
module Sorting {

  ghost predicate SortedBy<T>(s: seq<T>, key: T -> real) {
    forall i, j :: 0 <= i < j < |s| ==> key(s[i]) <= key(s[j])
  }

  /** Inserts x after every element whose key is not larger, so equal keys keep their order. */
  function Insert<T>(x: T, s: seq<T>, key: T -> real): (r: seq<T>)
    ensures |r| == |s| + 1
    ensures multiset(r) == multiset(s) + multiset{x}
  {
    if s == [] then [x]
    else if key(s[0]) <= key(x) then
      assert s == [s[0]] + s[1..];
      [s[0]] + Insert(x, s[1..], key)
    else [x] + s
  }

  function SortBy<T>(s: seq<T>, key: T -> real): (r: seq<T>)
    ensures |r| == |s|
    ensures multiset(r) == multiset(s)
  {
    if s == [] then []
    else
      var init := s[..|s| - 1];
      assert s == init + [s[|s| - 1]];
      Insert(s[|s| - 1], SortBy(init, key), key)
  }

  lemma {:induction false} InsertSorted<T>(x: T, s: seq<T>, key: T -> real)
    requires SortedBy(s, key)
    ensures SortedBy(Insert(x, s, key), key)
  {
    if s != [] && key(s[0]) <= key(x) {
      InsertSorted(x, s[1..], key);
      var r := Insert(x, s, key);
      var tail := Insert(x, s[1..], key);
      assert r == [s[0]] + tail;
      forall j | 0 < j < |r| ensures key(r[0]) <= key(r[j]) {
        assert r[j] in multiset(tail);
        assert r[j] in multiset(s[1..]) + multiset{x};
        if r[j] in multiset(s[1..]) {
          var k :| 0 <= k < |s[1..]| && s[1..][k] == r[j];
          assert s[k + 1] == r[j];
        }
      }
    }
  }

  /** The sort yields its input, reordered so that keys never decrease. */
  lemma {:induction false} SortBySorted<T>(s: seq<T>, key: T -> real)
    ensures SortedBy(SortBy(s, key), key)
  {
    if s != [] {
      SortBySorted(s[..|s| - 1], key);
      InsertSorted(s[|s| - 1], SortBy(s[..|s| - 1], key), key);
    }
  }
}
