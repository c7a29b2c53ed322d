/** Sequence operations shared by the backend streams and the front-end array pipelines. */
module Sequences {
  import opened Wrappers

  predicate NoDuplicates<T(==)>(s: seq<T>) {
    forall i, j :: 0 <= i < j < |s| ==> s[i] != s[j]
  }

  /** a can be obtained from b by deleting elements: order is kept. */
  predicate IsSubsequence<T(==)>(a: seq<T>, b: seq<T>)
    decreases |b|
  {
    a == [] || (b != [] && ((a[0] == b[0] && IsSubsequence(a[1..], b[1..])) || IsSubsequence(a, b[1..])))
  }

  /** `Array.prototype.filter` / `Stream.filter`. */
  function Filter<T>(s: seq<T>, p: T -> bool): (r: seq<T>)
    ensures |r| <= |s|
    ensures forall i :: 0 <= i < |r| ==> r[i] in s && p(r[i])
    ensures forall i :: 0 <= i < |s| && p(s[i]) ==> s[i] in r
  {
    if s == [] then []
    else
      assert s == [s[0]] + s[1..];
      (if p(s[0]) then [s[0]] else []) + Filter(s[1..], p)
  }

  /** Filtering keeps every occurrence of a kept value and none of a dropped one. */
  lemma {:induction false} FilterMultiset<T>(s: seq<T>, p: T -> bool)
    ensures forall x :: multiset(Filter(s, p))[x] == if p(x) then multiset(s)[x] else 0
  {
    if s != [] {
      FilterMultiset(s[1..], p);
      assert s == [s[0]] + s[1..];
    }
  }

  lemma FilterMember<T>(s: seq<T>, p: T -> bool, x: T)
    ensures x in Filter(s, p) <==> x in s && p(x)
  {
    if x in Filter(s, p) {
      var i :| 0 <= i < |Filter(s, p)| && Filter(s, p)[i] == x;
    }
    if x in s && p(x) {
      var i :| 0 <= i < |s| && s[i] == x;
    }
  }

  lemma {:induction false} SubsequenceMembers<T>(a: seq<T>, b: seq<T>)
    requires IsSubsequence(a, b)
    ensures forall x :: x in a ==> x in b
    decreases |b|
  {
    if a != [] {
      if a[0] == b[0] && IsSubsequence(a[1..], b[1..]) {
        SubsequenceMembers(a[1..], b[1..]);
        assert forall x :: x in a ==> x == a[0] || x in a[1..];
      } else {
        SubsequenceMembers(a, b[1..]);
      }
      assert forall x :: x in b[1..] ==> x in b;
    }
  }

  /** Filtering a longer table: the new row is kept or dropped on its own. */
  lemma {:induction false} FilterAppend<T>(s: seq<T>, x: T, p: T -> bool)
    ensures Filter(s + [x], p) == Filter(s, p) + (if p(x) then [x] else [])
  {
    if s != [] {
      assert (s + [x])[1..] == s[1..] + [x];
      FilterAppend(s[1..], x, p);
    }
  }

  /** A filter keeps the relative order of what it keeps. */
  lemma {:induction false} FilterIsSubsequence<T>(s: seq<T>, p: T -> bool)
    ensures IsSubsequence(Filter(s, p), s)
  {
    if s != [] {
      FilterIsSubsequence(s[1..], p);
      if p(s[0]) {
        assert Filter(s, p) == [s[0]] + Filter(s[1..], p);
      } else {
        assert Filter(s, p) == Filter(s[1..], p);
        if Filter(s, p) != [] {
          SubsequenceSkip(Filter(s[1..], p), s);
        }
      }
    }
  }

  lemma SubsequenceSkip<T>(a: seq<T>, b: seq<T>)
    requires b != [] && IsSubsequence(a, b[1..])
    ensures IsSubsequence(a, b)
  {
  }

  /** `Stream.distinct()` and "add unless already contained": first occurrences, in order. */
  function Dedup<T(==)>(s: seq<T>): (r: seq<T>)
    ensures NoDuplicates(r)
    ensures forall i :: 0 <= i < |r| ==> r[i] in s
    ensures forall i :: 0 <= i < |s| ==> s[i] in r
    ensures |r| <= |s|
  {
    if s == [] then []
    else
      var init := s[..|s| - 1];
      assert s == init + [s[|s| - 1]];
      var d := Dedup(init);
      if s[|s| - 1] in d then d else d + [s[|s| - 1]]
  }

  lemma DedupMembers<T>(s: seq<T>)
    ensures forall x :: x in Dedup(s) <==> x in s
  {
    forall x | x in s ensures x in Dedup(s) {
      var i :| 0 <= i < |s| && s[i] == x;
    }
  }

  /** `indexOf`: the position of the first occurrence of x. */
  function FirstIndex<T(==)>(s: seq<T>, x: T): (i: nat)
    requires x in s
    ensures i < |s| && s[i] == x && x !in s[..i]
  {
    if s[0] == x then 0
    else
      assert s == [s[0]] + s[1..];
      var k := FirstIndex(s[1..], x);
      assert s[..k + 1] == [s[0]] + s[1..][..k];
      k + 1
  }

  /** Any position holding x with no x before it is the first occurrence. */
  lemma {:induction false} FirstIndexUnique<T>(s: seq<T>, x: T, k: nat)
    requires k < |s| && s[k] == x && x !in s[..k]
    ensures FirstIndex(s, x) == k
  {
  }

  /** Appending an element leaves the first occurrences of the earlier ones where they were. */
  lemma FirstIndexAppend<T>(s: seq<T>, x: T, y: T)
    requires y in s
    ensures FirstIndex(s + [x], y) == FirstIndex(s, y)
  {
    var k := FirstIndex(s, y);
    assert (s + [x])[..k] == s[..k];
    FirstIndexUnique(s + [x], y, k);
  }

  /**
   * Deduplication keeps elements in the order of their first occurrences: an element listed
   * before another first occurs before it.
   */
  lemma {:induction false} DedupFirstOccurrenceOrder<T>(s: seq<T>)
    ensures forall i, j :: 0 <= i < j < |Dedup(s)| ==> FirstIndex(s, Dedup(s)[i]) < FirstIndex(s, Dedup(s)[j])
  {
    if s != [] {
      var init := s[..|s| - 1];
      var x := s[|s| - 1];
      assert s == init + [x];
      var d := Dedup(init);
      DedupFirstOccurrenceOrder(init);
      DedupMembers(init);
      forall y | y in init ensures FirstIndex(s, y) == FirstIndex(init, y) {
        FirstIndexAppend(init, x, y);
      }
      if x !in d {
        assert Dedup(s) == d + [x];
        FirstIndexUnique(s, x, |s| - 1);
        forall i, j | 0 <= i < j < |Dedup(s)|
          ensures FirstIndex(s, Dedup(s)[i]) < FirstIndex(s, Dedup(s)[j])
        {
          assert Dedup(s)[i] == d[i];
          if j < |d| {
            assert Dedup(s)[j] == d[j];
          }
        }
      } else {
        assert Dedup(s) == d;
      }
    }
  }

  /** The first occurrence of every element survives, so deduplication keeps the input's order. */
  lemma {:induction false} DedupIsSubsequence<T>(s: seq<T>)
    ensures IsSubsequence(Dedup(s), s)
  {
    if s != [] {
      var init := s[..|s| - 1];
      DedupIsSubsequence(init);
      if s[|s| - 1] !in Dedup(init) {
        SubsequenceAppend(Dedup(init), init, s[|s| - 1]);
        assert init + [s[|s| - 1]] == s;
      } else {
        SubsequenceExtend(Dedup(init), init, s[|s| - 1]);
        assert init + [s[|s| - 1]] == s;
      }
    }
  }

  lemma {:induction false} SubsequenceAppend<T>(a: seq<T>, b: seq<T>, x: T)
    requires IsSubsequence(a, b)
    ensures IsSubsequence(a + [x], b + [x])
    decreases |b|
  {
    if a == [] {
      EmptyPlusOne(b, x);
      assert a + [x] == [x];
    } else {
      assert b != [];
      assert (b + [x])[1..] == b[1..] + [x];
      assert (a + [x])[1..] == a[1..] + [x];
      if a[0] == b[0] && IsSubsequence(a[1..], b[1..]) {
        SubsequenceAppend(a[1..], b[1..], x);
      } else {
        SubsequenceAppend(a, b[1..], x);
      }
    }
  }

  lemma {:induction false} EmptyPlusOne<T>(b: seq<T>, x: T)
    ensures IsSubsequence([x], b + [x])
    decreases |b|
  {
    if b != [] {
      assert (b + [x])[1..] == b[1..] + [x];
      EmptyPlusOne(b[1..], x);
    } else {
      assert IsSubsequence([x][1..], [x][1..]);
    }
  }

  lemma {:induction false} SubsequenceExtend<T>(a: seq<T>, b: seq<T>, x: T)
    requires IsSubsequence(a, b)
    ensures IsSubsequence(a, b + [x])
    decreases |b|
  {
    if a != [] {
      assert b != [];
      assert (b + [x])[1..] == b[1..] + [x];
      if a[0] == b[0] && IsSubsequence(a[1..], b[1..]) {
        SubsequenceExtend(a[1..], b[1..], x);
      } else {
        SubsequenceExtend(a, b[1..], x);
      }
    }
  }

  /** `Array.prototype.map`. */
  function Map<T, U>(s: seq<T>, f: T -> U): (r: seq<U>)
    ensures |r| == |s|
    ensures forall i :: 0 <= i < |s| ==> r[i] == f(s[i])
  {
    seq(|s|, i requires 0 <= i < |s| => f(s[i]))
  }

  lemma {:induction false} MapSubsequence<T, U>(a: seq<T>, b: seq<T>, f: T -> U)
    requires IsSubsequence(a, b)
    ensures IsSubsequence(Map(a, f), Map(b, f))
    decreases |b|
  {
    if a != [] {
      assert Map(b, f)[1..] == Map(b[1..], f);
      assert Map(a, f)[1..] == Map(a[1..], f);
      if a[0] == b[0] && IsSubsequence(a[1..], b[1..]) {
        MapSubsequence(a[1..], b[1..], f);
      } else {
        MapSubsequence(a, b[1..], f);
      }
    }
  }

  lemma {:induction false} SubsequenceTrans<T>(a: seq<T>, b: seq<T>, c: seq<T>)
    requires IsSubsequence(a, b) && IsSubsequence(b, c)
    ensures IsSubsequence(a, c)
    decreases |c|
  {
    if a != [] {
      if b[0] == c[0] && IsSubsequence(b[1..], c[1..]) {
        if a[0] == b[0] && IsSubsequence(a[1..], b[1..]) {
          SubsequenceTrans(a[1..], b[1..], c[1..]);
        } else {
          SubsequenceTrans(a, b[1..], c[1..]);
        }
      } else {
        SubsequenceTrans(a, b, c[1..]);
      }
    }
  }

  /** `Array.prototype.find`: the first element satisfying p. */
  function FindFirst<T>(s: seq<T>, p: T -> bool): (r: Option<T>)
    ensures r.Some? <==> exists i :: 0 <= i < |s| && p(s[i])
    ensures r.Some? ==> r.value in s && p(r.value)
  {
    if s == [] then None
    else if p(s[0]) then Some(s[0])
    else
      assert forall k :: 0 <= k < |s[1..]| ==> s[1..][k] == s[k + 1];
      FindFirst(s[1..], p)
  }

  /** The element found is the first one satisfying `p`: no earlier element does. */
  lemma {:induction false} FindFirstIsFirst<T>(s: seq<T>, p: T -> bool)
    ensures FindFirst(s, p).Some? ==>
      exists k :: 0 <= k < |s| && s[k] == FindFirst(s, p).value && forall j :: 0 <= j < k ==> !p(s[j])
    decreases |s|
  {
    if s != [] && !p(s[0]) && FindFirst(s, p).Some? {
      FindFirstIsFirst(s[1..], p);
      var k :| 0 <= k < |s[1..]| && s[1..][k] == FindFirst(s, p).value && forall j :: 0 <= j < k ==> !p(s[1..][j]);
      assert s[k + 1] == FindFirst(s, p).value;
      forall j | 0 <= j < k + 1 ensures !p(s[j]) {
        if j > 0 {
          assert s[j] == s[1..][j - 1];
        }
      }
    }
  }

  lemma {:induction false} SubsequenceRefl<T>(s: seq<T>)
    ensures IsSubsequence(s, s)
    decreases |s|
  {
    if s != [] {
      SubsequenceRefl(s[1..]);
    }
  }

  lemma {:induction false} FilterNoDuplicates<T>(s: seq<T>, p: T -> bool)
    requires NoDuplicates(s)
    ensures NoDuplicates(Filter(s, p))
  {
    if s != [] {
      FilterNoDuplicates(s[1..], p);
      FilterMember(s[1..], p, s[0]);
      assert s[0] !in s[1..];
    }
  }

  lemma {:induction false} FilterAllKept<T>(s: seq<T>, p: T -> bool)
    requires forall i :: 0 <= i < |s| ==> p(s[i])
    ensures Filter(s, p) == s
  {
    if s != [] {
      FilterAllKept(s[1..], p);
    }
  }

  /** The concatenation of f(x) over s, in order: what a loop appending f(x) for each x builds. */
  function Flatten<T, U>(s: seq<T>, f: T -> seq<U>): seq<U> {
    if s == [] then [] else Flatten(s[..|s| - 1], f) + f(s[|s| - 1])
  }

  /** Whatever f yields for an element of s is in the concatenation. */
  lemma {:induction false} FlattenCovers<T, U>(s: seq<T>, f: T -> seq<U>, x: T, y: U)
    requires x in s && y in f(x)
    ensures y in Flatten(s, f)
  {
    var n := |s| - 1;
    if x != s[n] {
      assert s == s[..n] + [s[n]];
      FlattenCovers(s[..n], f, x, y);
    }
  }

  /** Whatever is in the concatenation comes from f of some element of s. */
  lemma {:induction false} FlattenMember<T, U>(s: seq<T>, f: T -> seq<U>, y: U)
    requires y in Flatten(s, f)
    ensures exists x :: x in s && y in f(x)
  {
    var n := |s| - 1;
    if y !in f(s[n]) {
      FlattenMember(s[..n], f, y);
      var x :| x in s[..n] && y in f(x);
      assert x in s;
    }
  }
}
