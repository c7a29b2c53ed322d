/**
 * The derived and hand-written repository queries of the backend, over the
 * tables as sequences. A query declared to return one optional row fails when
 * more than one row qualifies.
 */
module Repositories {
  import opened Wrappers
  import opened Entities
  import opened Sequences

  datatype QueryError = NonUniqueResult

  /** What a query returning `Optional<T>` makes of the qualifying rows. */
  function SingleResult<T>(rows: seq<T>): (r: Result<Option<T>, QueryError>)
    ensures r == Ok(None) <==> rows == []
    ensures r.Ok? && r.value.Some? <==> |rows| == 1
    ensures r.Ok? && r.value.Some? ==> r.value.value == rows[0]
  {
    if rows == [] then Ok(None)
    else if |rows| == 1 then Ok(Some(rows[0]))
    else Err(NonUniqueResult)
  }

  /** The WHERE clause of `findExistingMatch`: the match joins u1 and u2, in either column order. */
  predicate Joins(m: Match, u1: int, u2: int) {
    (m.user1 == Some(u1) && m.user2 == Some(u2)) || (m.user1 == Some(u2) && m.user2 == Some(u1))
  }

  /**
   * `MatchRepository.findExistingMatch(u1, u2)`: nothing when no row joins the two users,
   * the joining row when there is one, a failure when two or more rows do.
   */
  function FindExistingMatch(matches: seq<Match>, u1: int, u2: int): (r: Result<Option<Match>, QueryError>)
    ensures r == Ok(None) <==> forall i :: 0 <= i < |matches| ==> !Joins(matches[i], u1, u2)
    ensures r.Ok? && r.value.Some? ==> r.value.value in matches && Joins(r.value.value, u1, u2)
    ensures r.Err? <==> exists i, j :: 0 <= i < j < |matches| && Joins(matches[i], u1, u2) && Joins(matches[j], u1, u2)
  {
    var p := m => Joins(m, u1, u2);
    FilterEmptyIff(matches, p);
    FilterTwoIff(matches, p);
    SingleResult(Filter(matches, p))
  }

  /** No two rows of the match table join the same two users. */
  ghost predicate AtMostOnePerPair(matches: seq<Match>) {
    forall i, j, a, b :: 0 <= i < j < |matches| && Joins(matches[i], a, b) ==> !Joins(matches[j], a, b)
  }

  lemma {:induction false} FilterSame<T>(s: seq<T>, p: T -> bool, q: T -> bool)
    requires forall x :: p(x) == q(x)
    ensures Filter(s, p) == Filter(s, q)
  {
    if s != [] {
      FilterSame(s[1..], p, q);
    }
  }

  /** The lookup does not depend on the order of its two arguments. */
  lemma FindExistingMatchSymmetric(matches: seq<Match>, u1: int, u2: int)
    ensures FindExistingMatch(matches, u1, u2) == FindExistingMatch(matches, u2, u1)
  {
    FilterSame(matches, m => Joins(m, u1, u2), m => Joins(m, u2, u1));
  }

  lemma {:induction false} FilterEmptyIff<T>(s: seq<T>, p: T -> bool)
    ensures Filter(s, p) == [] <==> forall i :: 0 <= i < |s| ==> !p(s[i])
  {
    if s != [] {
      FilterEmptyIff(s[1..], p);
      assert forall i :: 1 <= i < |s| ==> s[i] == s[1..][i - 1];
    }
  }

  lemma {:induction false} FilterTwoFromPair<T>(s: seq<T>, p: T -> bool, i: nat, j: nat)
    requires i < j < |s| && p(s[i]) && p(s[j])
    ensures |Filter(s, p)| >= 2
  {
    var t := s[1..];
    assert s[j] == t[j - 1];
    if i == 0 {
      assert Filter(s, p) == [s[0]] + Filter(t, p);
      assert t[j - 1] in Filter(t, p);
    } else {
      assert s[i] == t[i - 1];
      FilterTwoFromPair(t, p, i - 1, j - 1);
    }
  }

  lemma {:induction false} FilterTwoToPair<T>(s: seq<T>, p: T -> bool)
    requires |Filter(s, p)| >= 2
    ensures exists i, j :: 0 <= i < j < |s| && p(s[i]) && p(s[j])
  {
    var t := s[1..];
    if p(s[0]) {
      assert Filter(s, p) == [s[0]] + Filter(t, p);
      var x := Filter(t, p)[0];
      var k :| 0 <= k < |t| && t[k] == x;
      assert s[k + 1] == x;
    } else {
      assert Filter(s, p) == Filter(t, p);
      FilterTwoToPair(t, p);
      var i, j :| 0 <= i < j < |t| && p(t[i]) && p(t[j]);
      assert s[i + 1] == t[i] && s[j + 1] == t[j];
    }
  }

  /** At least two rows pass the filter iff two positions of the table satisfy it. */
  lemma FilterTwoIff<T>(s: seq<T>, p: T -> bool)
    ensures |Filter(s, p)| >= 2 <==> exists i, j :: 0 <= i < j < |s| && p(s[i]) && p(s[j])
  {
    if |Filter(s, p)| >= 2 {
      FilterTwoToPair(s, p);
    }
    if exists i, j :: 0 <= i < j < |s| && p(s[i]) && p(s[j]) {
      var i, j :| 0 <= i < j < |s| && p(s[i]) && p(s[j]);
      FilterTwoFromPair(s, p, i, j);
    }
  }

  lemma {:induction false} FilterUnique<T>(s: seq<T>, p: T -> bool, k: nat)
    requires k < |s| && p(s[k])
    requires forall i :: 0 <= i < |s| && i != k ==> !p(s[i])
    ensures Filter(s, p) == [s[k]]
  {
    if k == 0 {
      FilterEmptyIff(s[1..], p);
      assert forall i :: 1 <= i < |s| ==> s[i] == s[1..][i - 1];
    } else {
      FilterUnique(s[1..], p, k - 1);
    }
  }

  /**
   * Under the table invariant the lookup is exact: it yields the row that joins
   * the two users, stored as (u1, u2) or as (u2, u1), and nothing when no row does.
   */
  lemma FindExistingMatchExact(matches: seq<Match>, u1: int, u2: int)
    requires AtMostOnePerPair(matches)
    ensures (forall i :: 0 <= i < |matches| ==> !Joins(matches[i], u1, u2)) ==> FindExistingMatch(matches, u1, u2) == Ok(None)
    ensures forall k :: 0 <= k < |matches| && Joins(matches[k], u1, u2) ==> FindExistingMatch(matches, u1, u2) == Ok(Some(matches[k]))
  {
    FilterEmptyIff(matches, m => Joins(m, u1, u2));
    forall k | 0 <= k < |matches| && Joins(matches[k], u1, u2)
      ensures FindExistingMatch(matches, u1, u2) == Ok(Some(matches[k]))
    {
      forall i | 0 <= i < |matches| && i != k ensures !Joins(matches[i], u1, u2) {
        if i < k { assert !Joins(matches[k], u1, u2) || !Joins(matches[i], u1, u2); }
      }
      FilterUnique(matches, m => Joins(m, u1, u2), k);
    }
  }

  /** `SwipeRepository.findBySwiperUserId`. */
  function SwipesBySwiper(swipes: seq<Swipe>, swiperId: int): (r: seq<Swipe>)
    ensures forall i :: 0 <= i < |r| ==> r[i] in swipes && r[i].swiper == Some(swiperId)
    ensures forall i :: 0 <= i < |swipes| && swipes[i].swiper == Some(swiperId) ==> swipes[i] in r
    ensures forall s :: multiset(r)[s] == if s.swiper == Some(swiperId) then multiset(swipes)[s] else 0
    ensures IsSubsequence(r, swipes)
  {
    var p := (s: Swipe) => s.swiper == Some(swiperId);
    FilterMultiset(swipes, p);
    FilterIsSubsequence(swipes, p);
    Filter(swipes, p)
  }

  /** The swipes from a to b, in table order. */
  function SwipesFromTo(swipes: seq<Swipe>, a: int, b: int): (r: seq<Swipe>)
    ensures forall s :: s in r <==> s in swipes && s.swiper == Some(a) && s.swipee == Some(b)
  {
    if swipes == [] then []
    else
      var last := swipes[|swipes| - 1];
      assert swipes == swipes[..|swipes| - 1] + [last];
      SwipesFromTo(swipes[..|swipes| - 1], a, b) + (if last.swiper == Some(a) && last.swipee == Some(b) then [last] else [])
  }

  /** Every stored swipe from a to b is returned as often as it is stored: rows are never merged. */
  lemma {:induction false} SwipesFromToCounts(swipes: seq<Swipe>, a: int, b: int)
    ensures forall s ::
      multiset(SwipesFromTo(swipes, a, b))[s] == if s.swiper == Some(a) && s.swipee == Some(b) then multiset(swipes)[s] else 0
  {
    if swipes != [] {
      var init := swipes[..|swipes| - 1];
      SwipesFromToCounts(init, a, b);
      assert swipes == init + [swipes[|swipes| - 1]];
    }
  }

  predicate Between(s: Swipe, a: int, b: int) {
    s.swiper == Some(a) && s.swipee == Some(b)
  }

  lemma {:induction false} SwipesFromToIsFilter(swipes: seq<Swipe>, a: int, b: int)
    ensures SwipesFromTo(swipes, a, b) == Filter(swipes, s => Between(s, a, b))
  {
    if swipes != [] {
      var init := swipes[..|swipes| - 1];
      SwipesFromToIsFilter(init, a, b);
      assert swipes == init + [swipes[|swipes| - 1]];
      FilterAppend(init, swipes[|swipes| - 1], s => Between(s, a, b));
    }
  }

  /**
   * `SwipeRepository.findBySwiperUserIdAndSwipeeUserId`: nothing when no row goes from the
   * swiper to the swipee, that row when there is one, a failure when two or more rows do.
   */
  function FindSwipe(swipes: seq<Swipe>, swiperId: int, swipeeId: int): (r: Result<Option<Swipe>, QueryError>)
    ensures r == Ok(None) <==> forall i :: 0 <= i < |swipes| ==> !Between(swipes[i], swiperId, swipeeId)
    ensures r.Ok? && r.value.Some? ==> r.value.value in swipes && Between(r.value.value, swiperId, swipeeId)
    ensures r.Err? <==>
      exists i, j :: 0 <= i < j < |swipes| && Between(swipes[i], swiperId, swipeeId) && Between(swipes[j], swiperId, swipeeId)
  {
    var p := s => Between(s, swiperId, swipeeId);
    SwipesFromToIsFilter(swipes, swiperId, swipeeId);
    FilterEmptyIff(swipes, p);
    FilterTwoIff(swipes, p);
    SingleResult(SwipesFromTo(swipes, swiperId, swipeeId))
  }
}
