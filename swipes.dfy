/**
 * The swipe endpoint of the backend: every swipe is recorded, and a like that
 * answers an earlier like of the other user creates a match, unless the two
 * are already matched.
 */
module SwipeLedger {
  import opened Wrappers
  import opened Entities
  import opened Sequences
  import opened Repositories

  datatype SwipeError =
    | MissingSwiper         // no swiper, or a swiper without an id, in the request
    | SwiperNotFound
    | MissingSwipee
    | SwipeeNotFound
    | NonUniqueReverseSwipe // the swipee swiped the swiper more than once
    | NonUniqueMatch        // more than one match row joins the pair

  /** What one call leaves behind: its result and both tables. */
  datatype Outcome = Outcome(result: Result<Swipe, SwipeError>, swipes: seq<Swipe>, matches: seq<Match>)

  predicate UserExists(users: seq<User>, id: int) {
    exists k :: 0 <= k < |users| && users[k].userId == Some(id)
  }

  /** The match decision, taken once the swipe is saved in `swipes`. */
  function AutoMatch(swipes: seq<Swipe>, matches: seq<Match>, swiperId: int, swipeeId: int,
                     isLike: Option<bool>, nextMatchId: int): Result<seq<Match>, SwipeError>
  {
    if isLike != Some(true) then Ok(matches)
    else
      match FindSwipe(swipes, swipeeId, swiperId)
      case Err(_) => Err(NonUniqueReverseSwipe)
      case Ok(None) => Ok(matches)
      case Ok(Some(reverse)) =>
        if reverse.isLike != Some(true) then Ok(matches)
        else
          match FindExistingMatch(matches, swiperId, swipeeId)
          case Err(_) => Err(NonUniqueMatch)
          case Ok(Some(_)) => Ok(matches)
          case Ok(None) => Ok(matches + [Match(nextMatchId, Some(swiperId), Some(swipeeId))])
  }

  /** `addSwipe(request)`: both users are looked up first; the swipe is saved before the match decision. */
  function AddSwipeOutcome(users: seq<User>, swipes: seq<Swipe>, matches: seq<Match>,
                           request: Swipe, nextMatchId: int): Outcome
  {
    if request.swiper.None? then Outcome(Err(MissingSwiper), swipes, matches)
    else if !UserExists(users, request.swiper.value) then Outcome(Err(SwiperNotFound), swipes, matches)
    else if request.swipee.None? then Outcome(Err(MissingSwipee), swipes, matches)
    else if !UserExists(users, request.swipee.value) then Outcome(Err(SwipeeNotFound), swipes, matches)
    else
      var saved := swipes + [request];
      match AutoMatch(saved, matches, request.swiper.value, request.swipee.value, request.isLike, nextMatchId)
      case Err(e) => Outcome(Err(e), saved, matches)
      case Ok(matches') => Outcome(Ok(request), saved, matches')
  }

  /** The user, swipe and match tables behind the controller. */
  class Ledger {
    var users: seq<User>
    var swipes: seq<Swipe>
    var matches: seq<Match>
    var nextMatchId: int

    constructor(users: seq<User>)
      ensures this.users == users && swipes == [] && matches == [] && nextMatchId == 1
    {
      this.users := users;
      swipes := [];
      matches := [];
      nextMatchId := 1;
    }

    method AddSwipe(request: Swipe) returns (r: Result<Swipe, SwipeError>)
      modifies this
      ensures var o := AddSwipeOutcome(old(users), old(swipes), old(matches), request, old(nextMatchId));
        r == o.result && swipes == o.swipes && matches == o.matches
      ensures users == old(users)
      ensures nextMatchId == old(nextMatchId) + (if |matches| > |old(matches)| then 1 else 0)
    {
      if request.swiper.None? {
        return Err(MissingSwiper);
      }
      if !UserExists(users, request.swiper.value) {
        return Err(SwiperNotFound);
      }
      if request.swipee.None? {
        return Err(MissingSwipee);
      }
      if !UserExists(users, request.swipee.value) {
        return Err(SwipeeNotFound);
      }
      var swiperId, swipeeId := request.swiper.value, request.swipee.value;
      swipes := swipes + [request];
      r := Ok(request);
      if request.isLike == Some(true) {
        var reverse := FindSwipe(swipes, swipeeId, swiperId);
        if reverse.Err? {
          return Err(NonUniqueReverseSwipe);
        }
        if reverse.value.Some? && reverse.value.value.isLike == Some(true) {
          var existing := FindExistingMatch(matches, swiperId, swipeeId);
          if existing.Err? {
            return Err(NonUniqueMatch);
          }
          if existing.value.None? {
            matches := matches + [Match(nextMatchId, Some(swiperId), Some(swipeeId))];
            nextMatchId := nextMatchId + 1;
          }
        }
      }
    }

    /** `getSwipesByUser(swiperId)`. */
    method GetSwipesByUser(swiperId: int) returns (r: seq<Swipe>)
      ensures r == SwipesBySwiper(swipes, swiperId)
      ensures forall s :: s in r <==> s in swipes && s.swiper == Some(swiperId)
      ensures forall s :: multiset(r)[s] == if s.swiper == Some(swiperId) then multiset(swipes)[s] else 0
      ensures IsSubsequence(r, swipes)
    {
      r := SwipesBySwiper(swipes, swiperId);
    }
  }

  // ------------------------------------------------------------ properties

  /** A request naming an unknown or missing user fails before anything is saved. */
  lemma UnknownUserChangesNothing(users: seq<User>, swipes: seq<Swipe>, matches: seq<Match>, request: Swipe, nextMatchId: int)
    ensures var o := AddSwipeOutcome(users, swipes, matches, request, nextMatchId);
      (request.swiper.None? || !UserExists(users, request.swiper.value)
       || request.swipee.None? || !UserExists(users, request.swipee.value))
      <==> (o.result.Err? && o.swipes == swipes && o.matches == matches)
  {
  }

  /** Once both users exist, the swipe is saved whatever follows, like or pass, repeated or not. */
  lemma SwipeAlwaysSaved(users: seq<User>, swipes: seq<Swipe>, matches: seq<Match>, request: Swipe, nextMatchId: int)
    requires request.swiper.Some? && UserExists(users, request.swiper.value)
    requires request.swipee.Some? && UserExists(users, request.swipee.value)
    ensures AddSwipeOutcome(users, swipes, matches, request, nextMatchId).swipes == swipes + [request]
    ensures AddSwipeOutcome(users, swipes, matches, request, nextMatchId).result.Ok? ==>
      AddSwipeOutcome(users, swipes, matches, request, nextMatchId).result.value == request
  {
  }

  /** A pass (or a swipe without a verdict) never creates a match and never fails after the lookups. */
  lemma PassNeverMatches(users: seq<User>, swipes: seq<Swipe>, matches: seq<Match>, request: Swipe, nextMatchId: int)
    requires request.isLike != Some(true)
    ensures AddSwipeOutcome(users, swipes, matches, request, nextMatchId).matches == matches
  {
  }

  /**
   * With at most one earlier swipe from the swipee to the swiper, a match is created exactly
   * when this swipe is a like, that earlier swipe is a like, and no match joins the pair in
   * either order. The new match is (swiper, swipee) and is the only change to the table.
   */
  lemma MatchCreatedIff(users: seq<User>, swipes: seq<Swipe>, matches: seq<Match>, request: Swipe, nextMatchId: int)
    requires request.swiper.Some? && UserExists(users, request.swiper.value)
    requires request.swipee.Some? && UserExists(users, request.swipee.value)
    requires request.swiper != request.swipee
    requires |SwipesFromTo(swipes, request.swipee.value, request.swiper.value)| <= 1
    requires AtMostOnePerPair(matches)
    ensures var a, b := request.swiper.value, request.swipee.value;
      var o := AddSwipeOutcome(users, swipes, matches, request, nextMatchId);
      var earlier := SwipesFromTo(swipes, b, a);
      o.result.Ok?
      && (o.matches != matches <==>
            (request.isLike == Some(true) && earlier != [] && earlier[0].isLike == Some(true)
             && forall i :: 0 <= i < |matches| ==> !Joins(matches[i], a, b)))
      && (o.matches != matches ==> o.matches == matches + [Match(nextMatchId, Some(a), Some(b))])
  {
    var a, b := request.swiper.value, request.swipee.value;
    var saved := swipes + [request];
    assert saved[..|saved| - 1] == swipes;
    FindExistingMatchExact(matches, a, b);
  }

  /**
   * A first like of oneself answers itself: the reverse lookup runs after the save and finds
   * the swipe just stored, so the user is matched with themselves.
   */
  lemma SelfLikeMatchesSelf(users: seq<User>, swipes: seq<Swipe>, matches: seq<Match>, a: int, nextMatchId: int)
    requires UserExists(users, a)
    requires SwipesFromTo(swipes, a, a) == []
    requires forall i :: 0 <= i < |matches| ==> !Joins(matches[i], a, a)
    ensures var request := Swipe(Some(a), Some(a), Some(true));
      AddSwipeOutcome(users, swipes, matches, request, nextMatchId)
        == Outcome(Ok(request), swipes + [request], matches + [Match(nextMatchId, Some(a), Some(a))])
  {
    var request := Swipe(Some(a), Some(a), Some(true));
    var saved := swipes + [request];
    assert saved[..|saved| - 1] == swipes;
    assert FindSwipe(saved, a, a) == Ok(Some(request)) by {
      assert SwipesFromTo(saved, a, a) == [request];
    }
    assert FindExistingMatch(matches, a, a) == Ok(None) by {
      FilterEmptyIff(matches, m => Joins(m, a, a));
    }
    assert AutoMatch(saved, matches, a, a, Some(true), nextMatchId)
      == Ok(matches + [Match(nextMatchId, Some(a), Some(a))]);
    KnownUsersOutcome(users, swipes, matches, request, nextMatchId);
  }

  /** With both users known, the outcome is the saved swipe followed by the match decision. */
  lemma KnownUsersOutcome(users: seq<User>, swipes: seq<Swipe>, matches: seq<Match>, request: Swipe, nextMatchId: int)
    requires request.swiper.Some? && UserExists(users, request.swiper.value)
    requires request.swipee.Some? && UserExists(users, request.swipee.value)
    ensures var saved := swipes + [request];
      var decision := AutoMatch(saved, matches, request.swiper.value, request.swipee.value, request.isLike, nextMatchId);
      AddSwipeOutcome(users, swipes, matches, request, nextMatchId)
        == (if decision.Err? then Outcome(Err(decision.error), saved, matches) else Outcome(Ok(request), saved, decision.value))
  {
  }

  /** The swipe path never creates a second match for a pair. */
  lemma AddSwipePreservesOneMatchPerPair(users: seq<User>, swipes: seq<Swipe>, matches: seq<Match>, request: Swipe, nextMatchId: int)
    requires AtMostOnePerPair(matches)
    ensures AtMostOnePerPair(AddSwipeOutcome(users, swipes, matches, request, nextMatchId).matches)
  {
    var o := AddSwipeOutcome(users, swipes, matches, request, nextMatchId);
    if o.matches != matches {
      var a, b := request.swiper.value, request.swipee.value;
      var m := Match(nextMatchId, Some(a), Some(b));
      assert o.matches == matches + [m];
      FindExistingMatchExact(matches, a, b);
      forall i, j, x, y | 0 <= i < j < |o.matches| && Joins(o.matches[i], x, y)
        ensures !Joins(o.matches[j], x, y)
      {
        if j == |matches| {
          JoinsDistinct(o.matches[i], m, x, y, a, b);
        }
      }
    }
  }

  /** A row joining x, y but not a, b shares no pair with a row joining a, b. */
  lemma JoinsDistinct(m1: Match, m2: Match, x: int, y: int, a: int, b: int)
    requires Joins(m1, x, y) && !Joins(m1, a, b) && Joins(m2, a, b)
    ensures !Joins(m2, x, y)
  {
  }

  // ------------------------------------------- repeated reverse swipes

  /**
   * As written: when the swipee has liked the swiper twice, the reverse lookup expects a
   * single row and fails, after the swipe is saved, and no match is made.
   */
  lemma RepeatedReverseLikeBlocksMatch(users: seq<User>)
    requires users == [User(Some(1), None, None, None, None, None, None, None),
                       User(Some(2), None, None, None, None, None, None, None)]
    ensures var liked := Swipe(Some(2), Some(1), Some(true));
      var request := Swipe(Some(1), Some(2), Some(true));
      AddSwipeOutcome(users, [liked, liked], [], request, 1)
        == Outcome(Err(NonUniqueReverseSwipe), [liked, liked, request], [])
  {
    var liked := Swipe(Some(2), Some(1), Some(true));
    var request := Swipe(Some(1), Some(2), Some(true));
    assert UserExists(users, 1) && UserExists(users, 2) by {
      assert users[0].userId == Some(1) && users[1].userId == Some(2);
    }
    var saved := [liked, liked] + [request];
    assert FindSwipe(saved, 2, 1) == Err(NonUniqueResult) by {
      assert [liked][..0] == [];
      assert SwipesFromTo([liked], 2, 1) == [liked];
      assert [liked, liked][..1] == [liked];
      assert SwipesFromTo([liked, liked], 2, 1) == [liked, liked];
      assert saved[..2] == [liked, liked];
      assert SwipesFromTo(saved, 2, 1) == [liked, liked];
    }
    assert AutoMatch(saved, [], 1, 2, Some(true), 1) == Err(NonUniqueReverseSwipe);
    KnownUsersOutcome(users, [liked, liked], [], request, 1);
  }

  /** The decision the endpoint evidently intends: any earlier like of the swipee answers this one. */
  function IntendedAutoMatch(swipes: seq<Swipe>, matches: seq<Match>, swiperId: int, swipeeId: int,
                             isLike: Option<bool>, nextMatchId: int): Result<seq<Match>, SwipeError>
  {
    var answered := exists i :: (0 <= i < |swipes| && swipes[i].swiper == Some(swipeeId)
                                 && swipes[i].swipee == Some(swiperId) && swipes[i].isLike == Some(true));
    if isLike != Some(true) || !answered then Ok(matches)
    else
      match FindExistingMatch(matches, swiperId, swipeeId)
      case Err(_) => Err(NonUniqueMatch)
      case Ok(Some(_)) => Ok(matches)
      case Ok(None) => Ok(matches + [Match(nextMatchId, Some(swiperId), Some(swipeeId))])
  }

  /**
   * Intended: under the one-match-per-pair invariant the decision never fails, makes a match
   * exactly when this like answers some earlier like and the pair is unmatched, and keeps the
   * invariant.
   */
  lemma IntendedAutoMatchSpec(swipes: seq<Swipe>, matches: seq<Match>, a: int, b: int,
                              isLike: Option<bool>, nextMatchId: int)
    requires AtMostOnePerPair(matches)
    ensures var r := IntendedAutoMatch(swipes, matches, a, b, isLike, nextMatchId);
      r.Ok?
      && (r.value != matches <==>
            (isLike == Some(true)
             && (exists i :: 0 <= i < |swipes| && swipes[i].swiper == Some(b) && swipes[i].swipee == Some(a)
                              && swipes[i].isLike == Some(true))
             && forall i :: 0 <= i < |matches| ==> !Joins(matches[i], a, b)))
      && (r.value != matches ==> r.value == matches + [Match(nextMatchId, Some(a), Some(b))])
      && AtMostOnePerPair(r.value)
  {
    FindExistingMatchExact(matches, a, b);
    var r := IntendedAutoMatch(swipes, matches, a, b, isLike, nextMatchId);
    if r.value != matches {
      var m := Match(nextMatchId, Some(a), Some(b));
      forall i, j, x, y | 0 <= i < j < |r.value| && Joins(r.value[i], x, y)
        ensures !Joins(r.value[j], x, y)
      {
        if j == |matches| {
          JoinsDistinct(r.value[i], m, x, y, a, b);
        }
      }
    }
  }
}
