/**
 * The web discovery page: the feed of users to swipe on, built from the
 * fetched users, profiles and the current user's swipes, then narrowed by the
 * year and distance filters; and the cursor that walks through it.
 */
module Discover {
  import opened Wrappers
  import opened Js
  import opened Sequences

  /** A fetched user: only the fields the page reads. */
  datatype FeedUser = FeedUser(userId: JsId, location: JsStr, latitude: JsNum, longitude: JsNum)

  /** A fetched profile; `owner` is `p.user?.userId`. */
  datatype FeedProfile = FeedProfile(owner: JsId, major: JsStr, year: JsStr, location: JsStr,
                                     latitude: JsNum, longitude: JsNum)

  /** A fetched swipe of the current user: `s.swipee?.userId` and `s.swipee?.id`. */
  datatype SwipeRecord = SwipeRecord(swipeeUserId: JsId, swipeeId: JsId)

  /** A user merged with their profile; `distance` is the `_distance` written by the page. */
  datatype Card = Card(user: FeedUser, profile: Option<FeedProfile>, major: string, location: string,
                       latitude: JsNum, longitude: JsNum, distance: Option<real>)

  datatype Filters = Filters(years: seq<string>, locationEnabled: bool, maxDistance: int)

  /** The three responses the page waits for. */
  datatype Fetched = Fetched(users: seq<FeedUser>, profiles: seq<FeedProfile>, swipes: seq<SwipeRecord>)

  /** The request body of a swipe. */
  datatype SwipeRequest = SwipeRequest(swiper: JsId, swipee: JsId, isLike: bool)

  /** Great-circle distance in kilometres between (lat1, lon1) and (lat2, lon2). */
  type Distance = (real, real, real, real) -> real

  const DefaultFilters := Filters([], false, 50)

  // ------------------------------------------------------------ the feed

  function SwipedIds(swipes: seq<SwipeRecord>): set<JsId> {
    set s | s in swipes :: Or(s.swipeeUserId, s.swipeeId)
  }

  /** The fetched users other than the current user and the users the current user swiped, in order. */
  function Unswiped(f: Fetched, currentUserId: JsId): (r: seq<FeedUser>)
    ensures forall u :: u in r <==>
      u in f.users && u.userId != currentUserId
      && forall s :: s in f.swipes ==> u.userId != Or(s.swipeeUserId, s.swipeeId)
    ensures IsSubsequence(r, f.users)
  {
    var swiped := SwipedIds(f.swipes);
    var p := (u: FeedUser) => u.userId != currentUserId && u.userId !in swiped;
    FilterIsSubsequence(f.users, p);
    Filter(f.users, p)
  }

  function ProfileFor(profiles: seq<FeedProfile>, id: JsId): Option<FeedProfile> {
    FindFirst(profiles, (p: FeedProfile) => p.owner == id)
  }

  /**
   * A user merged with the first profile it owns: the profile's major, location and
   * coordinates take precedence when truthy, then the user's location and coordinates.
   */
  function MergeCard(u: FeedUser, profiles: seq<FeedProfile>): (r: Card)
    ensures r.user == u && r.distance.None?
    ensures r.profile.Some? <==> exists p :: p in profiles && p.owner == u.userId
    ensures r.profile.Some? ==> r.profile.value in profiles && r.profile.value.owner == u.userId
    ensures r.major == if r.profile.Some? && StrTruthy(r.profile.value.major) then r.profile.value.major.value else ""
    ensures r.profile.Some? && StrTruthy(r.profile.value.location) ==> r.location == r.profile.value.location.value
    ensures (r.profile.None? || !StrTruthy(r.profile.value.location)) ==>
      r.location == if StrTruthy(u.location) then u.location.value else ""
    ensures r.latitude == if r.profile.Some? && NumTruthy(r.profile.value.latitude) then r.profile.value.latitude else u.latitude
    ensures r.longitude == if r.profile.Some? && NumTruthy(r.profile.value.longitude) then r.profile.value.longitude else u.longitude
  {
    var p := ProfileFor(profiles, u.userId);
    Card(u, p,
      StrOr((if p.Some? then p.value.major else None), ""),
      StrOr(StrOrStr((if p.Some? then p.value.location else None), u.location), ""),
      NumOr((if p.Some? then p.value.latitude else None), u.latitude),
      NumOr((if p.Some? then p.value.longitude else None), u.longitude),
      None)
  }

  function Merged(users: seq<FeedUser>, profiles: seq<FeedProfile>): seq<Card> {
    Map(users, (u: FeedUser) => MergeCard(u, profiles))
  }

  /** The current user's coordinates: the profile's when truthy, else the user's. */
  function CurrentCoordinates(f: Fetched, currentUserId: JsId): (JsNum, JsNum) {
    var u := FindFirst(f.users, (u: FeedUser) => u.userId == currentUserId);
    var p := ProfileFor(f.profiles, currentUserId);
    (NumOr((if p.Some? then p.value.latitude else None), if u.Some? then u.value.latitude else None),
     NumOr((if p.Some? then p.value.longitude else None), if u.Some? then u.value.longitude else None))
  }

  predicate Located(c: Card) {
    NumTruthy(c.latitude) && NumTruthy(c.longitude)
  }

  function WithDistance(c: Card, lat: real, lon: real, dist: Distance): Card {
    if Located(c) then c.(distance := Some(dist(lat, lon, c.latitude.value, c.longitude.value))) else c
  }

  /** The cards after the distance pass; nothing is written when the current user has no coordinates. */
  function Annotated(cards: seq<Card>, lat: JsNum, lon: JsNum, dist: Distance): seq<Card> {
    if NumTruthy(lat) && NumTruthy(lon) then Map(cards, (c: Card) => WithDistance(c, lat.value, lon.value, dist))
    else cards
  }

  predicate YearOk(years: seq<string>, c: Card) {
    c.profile.Some? && c.profile.value.year.Some? && c.profile.value.year.value in years
  }

  function ByYear(cards: seq<Card>, years: seq<string>): seq<Card> {
    if |years| > 0 then Filter(cards, (c: Card) => YearOk(years, c)) else cards
  }

  /** A missing `_distance` compares false with `<=`. */
  predicate LocationOk(maxDistance: int, c: Card) {
    Located(c) && c.distance.Some? && c.distance.value <= maxDistance as real
  }

  function ByLocation(cards: seq<Card>, filters: Filters): seq<Card> {
    if filters.locationEnabled then Filter(cards, (c: Card) => LocationOk(filters.maxDistance, c)) else cards
  }

  /** The feed `loadUsers` stores. */
  function Feed(f: Fetched, currentUserId: JsId, filters: Filters, dist: Distance): (r: seq<Card>)
    ensures |r| <= |f.users|
    ensures |filters.years| > 0 ==> forall c :: c in r ==> YearOk(filters.years, c)
    ensures filters.locationEnabled ==> forall c :: c in r ==>
      Located(c) && c.distance.Some? && c.distance.value <= filters.maxDistance as real
  {
    var merged := Merged(Unswiped(f, currentUserId), f.profiles);
    var coordinates := CurrentCoordinates(f, currentUserId);
    ByLocation(ByYear(Annotated(merged, coordinates.0, coordinates.1, dist), filters.years), filters)
  }

  /** The `forEach` that writes `_distance` into every located card. */
  method AnnotateDistances(cards: seq<Card>, lat: JsNum, lon: JsNum, dist: Distance) returns (out: seq<Card>)
    ensures out == Annotated(cards, lat, lon, dist)
  {
    out := cards;
    if NumTruthy(lat) && NumTruthy(lon) {
      var i := 0;
      while i < |out|
        invariant 0 <= i <= |out| == |cards|
        invariant forall k :: 0 <= k < i ==> out[k] == WithDistance(cards[k], lat.value, lon.value, dist)
        invariant forall k :: i <= k < |out| ==> out[k] == cards[k]
      {
        var c := out[i];
        if Located(c) {
          out := out[i := c.(distance := Some(dist(lat.value, lon.value, c.latitude.value, c.longitude.value)))];
        }
        i := i + 1;
      }
    }
  }

  // ------------------------------------------------------------ the page

  function ToggleYear(years: seq<string>, year: string): seq<string> {
    if year in years then Filter(years, (y: string) => y != year) else years + [year]
  }

  class DiscoverPage {
    var users: seq<Card>
    var currentIndex: nat
    var loading: bool
    var filters: Filters

    constructor()
      ensures users == [] && currentIndex == 0 && loading && filters == DefaultFilters
    {
      users := [];
      currentIndex := 0;
      loading := true;
      filters := DefaultFilters;
    }

    /** `loadUsers`; `fetched` is `None` when a request fails, and then only `loading` changes. */
    method LoadUsers(fetched: Option<Fetched>, currentUserId: JsId, dist: Distance)
      modifies this
      ensures !loading && filters == old(filters)
      ensures fetched.None? ==> users == old(users) && currentIndex == old(currentIndex)
      ensures fetched.Some? ==> users == Feed(fetched.value, currentUserId, filters, dist) && currentIndex == 0
    {
      loading := true;
      if fetched.None? {
        loading := false;
        return;
      }
      var f := fetched.value;
      var merged := Merged(Unswiped(f, currentUserId), f.profiles);
      var coordinates := CurrentCoordinates(f, currentUserId);
      var filtered := AnnotateDistances(merged, coordinates.0, coordinates.1, dist);
      filtered := ByYear(filtered, filters.years);
      filtered := ByLocation(filtered, filters);
      users := filtered;
      currentIndex := 0;
      loading := false;
    }

    /** `handleSwipe(direction)`; `accepted` says whether the swipe request succeeded. */
    method HandleSwipe(direction: string, currentUserId: JsId, accepted: bool) returns (sent: Option<SwipeRequest>)
      modifies this
      ensures users == old(users) && filters == old(filters) && loading == old(loading)
      ensures old(currentIndex) >= |users| ==> sent.None? && currentIndex == old(currentIndex)
      ensures old(currentIndex) < |users| ==>
        sent == Some(SwipeRequest(currentUserId, users[old(currentIndex)].user.userId, direction == "right"))
      ensures currentIndex == if old(currentIndex) < |users| && accepted then old(currentIndex) + 1 else old(currentIndex)
    {
      if currentIndex >= |users| {
        return None;
      }
      var card := users[currentIndex];
      var isLike := direction == "right";
      sent := Some(SwipeRequest(currentUserId, card.user.userId, isLike));
      if accepted {
        currentIndex := currentIndex + 1;
      }
    }

    /**
     * A filter change followed by the `[filters]` effect, which reloads the feed:
     * `fetched` is what the reload receives (`None` when a request fails).
     */
    method ToggleYearFilter(year: string, fetched: Option<Fetched>, currentUserId: JsId, dist: Distance)
      modifies this
      ensures filters == old(filters).(years := ToggleYear(old(filters).years, year))
      ensures !loading
      ensures fetched.None? ==> users == old(users) && currentIndex == old(currentIndex)
      ensures fetched.Some? ==> users == Feed(fetched.value, currentUserId, filters, dist) && currentIndex == 0
    {
      filters := filters.(years := ToggleYear(filters.years, year));
      LoadUsers(fetched, currentUserId, dist);
    }

    method ToggleLocationFilter(fetched: Option<Fetched>, currentUserId: JsId, dist: Distance)
      modifies this
      ensures filters == old(filters).(locationEnabled := !old(filters).locationEnabled)
      ensures !loading
      ensures fetched.None? ==> users == old(users) && currentIndex == old(currentIndex)
      ensures fetched.Some? ==> users == Feed(fetched.value, currentUserId, filters, dist) && currentIndex == 0
    {
      filters := filters.(locationEnabled := !filters.locationEnabled);
      LoadUsers(fetched, currentUserId, dist);
    }

    /** The distance slider (5 to 200 km in steps of 5). */
    method SetMaxDistance(km: int, fetched: Option<Fetched>, currentUserId: JsId, dist: Distance)
      modifies this
      ensures filters == old(filters).(maxDistance := km)
      ensures !loading
      ensures fetched.None? ==> users == old(users) && currentIndex == old(currentIndex)
      ensures fetched.Some? ==> users == Feed(fetched.value, currentUserId, filters, dist) && currentIndex == 0
    {
      filters := filters.(maxDistance := km);
      LoadUsers(fetched, currentUserId, dist);
    }
  }

  // ------------------------------------------------------------ properties

  function CardUser(c: Card): FeedUser {
    c.user
  }

  /** The cards before the two filters. */
  function Candidates(f: Fetched, currentUserId: JsId, dist: Distance): seq<Card> {
    var coordinates := CurrentCoordinates(f, currentUserId);
    Annotated(Merged(Unswiped(f, currentUserId), f.profiles), coordinates.0, coordinates.1, dist)
  }

  lemma FilterUsersSubsequence(cards: seq<Card>, p: Card -> bool)
    ensures IsSubsequence(Map(Filter(cards, p), CardUser), Map(cards, CardUser))
  {
    FilterIsSubsequence(cards, p);
    MapSubsequence(Filter(cards, p), cards, CardUser);
  }

  /** The distance pass changes nothing but `distance`, and only on located cards. */
  lemma AnnotatedCards(cards: seq<Card>, lat: JsNum, lon: JsNum, dist: Distance)
    ensures var out := Annotated(cards, lat, lon, dist);
      |out| == |cards|
      && forall i :: 0 <= i < |cards| ==>
           out[i].(distance := cards[i].distance) == cards[i]
           && out[i].distance == (if NumTruthy(lat) && NumTruthy(lon) && Located(cards[i])
                                  then Some(dist(lat.value, lon.value, cards[i].latitude.value, cards[i].longitude.value))
                                  else cards[i].distance)
  {
  }

  /** The feed lists fetched users in their fetched order. */
  lemma FeedKeepsOrder(f: Fetched, currentUserId: JsId, filters: Filters, dist: Distance)
    ensures IsSubsequence(Map(Feed(f, currentUserId, filters, dist), CardUser), Unswiped(f, currentUserId))
    ensures IsSubsequence(Map(Feed(f, currentUserId, filters, dist), CardUser), f.users)
  {
    var kept := Unswiped(f, currentUserId);
    var candidates := Candidates(f, currentUserId, dist);
    assert Map(candidates, CardUser) == kept;
    var byYear := ByYear(candidates, filters.years);
    if |filters.years| > 0 {
      FilterUsersSubsequence(candidates, (c: Card) => YearOk(filters.years, c));
    } else {
      SubsequenceRefl(Map(candidates, CardUser));
    }
    assert IsSubsequence(Map(byYear, CardUser), kept);
    var feed := Feed(f, currentUserId, filters, dist);
    if filters.locationEnabled {
      FilterUsersSubsequence(byYear, (c: Card) => LocationOk(filters.maxDistance, c));
      SubsequenceTrans(Map(feed, CardUser), Map(byYear, CardUser), kept);
    }
    FilterIsSubsequence(f.users, (u: FeedUser) => u.userId != currentUserId && u.userId !in SwipedIds(f.swipes));
    SubsequenceTrans(Map(feed, CardUser), kept, f.users);
  }

  /**
   * A card is in the feed iff it is a candidate that passes the active filters: a profile
   * whose year is selected, when years are selected; coordinates and a distance within
   * the maximum, inclusive, when the location filter is on.
   */
  lemma FeedMembership(f: Fetched, currentUserId: JsId, filters: Filters, dist: Distance, c: Card)
    ensures c in Feed(f, currentUserId, filters, dist) <==>
      c in Candidates(f, currentUserId, dist)
      && (|filters.years| > 0 ==> YearOk(filters.years, c))
      && (filters.locationEnabled ==> LocationOk(filters.maxDistance, c))
  {
    var candidates := Candidates(f, currentUserId, dist);
    var byYear := ByYear(candidates, filters.years);
    if |filters.years| > 0 {
      FilterMember(candidates, (c: Card) => YearOk(filters.years, c), c);
    }
    if filters.locationEnabled {
      FilterMember(byYear, (c: Card) => LocationOk(filters.maxDistance, c), c);
    }
  }

  /**
   * No card shows the current user or a user the current user swiped (by the swipee's
   * `userId`, or its `id` when that is falsy); every card is its user merged with the first
   * profile owned by that user, plus the distance.
   */
  lemma FeedCards(f: Fetched, currentUserId: JsId, filters: Filters, dist: Distance)
    ensures forall c :: c in Feed(f, currentUserId, filters, dist) ==>
      c.user.userId != currentUserId
      && (forall s :: s in f.swipes ==> c.user.userId != Or(s.swipeeUserId, s.swipeeId))
      && c.(distance := None) == MergeCard(c.user, f.profiles)
  {
    var kept := Unswiped(f, currentUserId);
    var merged := Merged(kept, f.profiles);
    var coordinates := CurrentCoordinates(f, currentUserId);
    forall c | c in Feed(f, currentUserId, filters, dist)
      ensures c.user.userId != currentUserId
      ensures forall s :: s in f.swipes ==> c.user.userId != Or(s.swipeeUserId, s.swipeeId)
      ensures c.(distance := None) == MergeCard(c.user, f.profiles)
    {
      FeedMembership(f, currentUserId, filters, dist, c);
      AnnotatedCards(merged, coordinates.0, coordinates.1, dist);
      var i :| 0 <= i < |merged| && Candidates(f, currentUserId, dist)[i] == c;
      assert merged[i] == MergeCard(kept[i], f.profiles);
      FilterMember(f.users, (u: FeedUser) => u.userId != currentUserId && u.userId !in SwipedIds(f.swipes), kept[i]);
    }
  }

  /**
   * Zero is no coordinate: without truthy coordinates of the current user no distance is
   * written, and the location filter then empties the feed; a card whose own latitude or
   * longitude is 0 never has a distance and never passes the location filter.
   */
  lemma ZeroIsNoCoordinate(f: Fetched, currentUserId: JsId, filters: Filters, dist: Distance)
    ensures var coordinates := CurrentCoordinates(f, currentUserId);
      !(NumTruthy(coordinates.0) && NumTruthy(coordinates.1)) && filters.locationEnabled ==>
        Feed(f, currentUserId, filters, dist) == []
    ensures forall c :: c in Feed(f, currentUserId, filters, dist) && !Located(c) ==>
      c.distance.None? && !filters.locationEnabled
  {
    var kept := Unswiped(f, currentUserId);
    var merged := Merged(kept, f.profiles);
    var coordinates := CurrentCoordinates(f, currentUserId);
    var feed := Feed(f, currentUserId, filters, dist);
    AnnotatedCards(merged, coordinates.0, coordinates.1, dist);
    forall c | c in feed ensures (!(NumTruthy(coordinates.0) && NumTruthy(coordinates.1)) || !Located(c)) ==> c.distance.None? {
      FeedMembership(f, currentUserId, filters, dist, c);
      var i :| 0 <= i < |merged| && Candidates(f, currentUserId, dist)[i] == c;
    }
    if !(NumTruthy(coordinates.0) && NumTruthy(coordinates.1)) && filters.locationEnabled && feed != [] {
      FeedMembership(f, currentUserId, filters, dist, feed[0]);
    }
  }

  // ------------------------------------------------------- the year toggle

  /** The toggle adds an absent year at the end and removes a present one; other years stay. */
  lemma ToggleYearSpec(years: seq<string>, year: string)
    ensures year in ToggleYear(years, year) <==> year !in years
    ensures forall y :: y != year ==> (y in ToggleYear(years, year) <==> y in years)
    ensures NoDuplicates(years) ==> NoDuplicates(ToggleYear(years, year))
  {
    var p := (y: string) => y != year;
    forall y ensures y in ToggleYear(years, year) <==> (if y == year then year !in years else y in years) {
      if year in years {
        FilterMember(years, p, y);
      }
    }
    if NoDuplicates(years) && year in years {
      FilterNoDuplicates(years, p);
    }
  }

  /** Toggling twice restores an absent year exactly, and a present one up to its position. */
  lemma ToggleYearTwice(years: seq<string>, year: string)
    ensures year !in years ==> ToggleYear(ToggleYear(years, year), year) == years
    ensures forall y :: y in ToggleYear(ToggleYear(years, year), year) <==> y in years
  {
    ToggleYearSpec(years, year);
    ToggleYearSpec(ToggleYear(years, year), year);
    if year !in years {
      FilterAppend(years, year, (y: string) => y != year);
      FilterAllKept(years, (y: string) => y != year);
    }
  }

}
