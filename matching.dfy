/**
 * The recommendation engine of the backend: who is suggested to a user, with
 * which score and why. The great-circle distance is a parameter `dist`.
 */
module Matching {
  import opened Wrappers
  import opened Text
  import opened Entities
  import opened Sequences
  import Sorting
  import Repositories

  datatype Tables = Tables(
    users: seq<User>,
    profiles: seq<Profile>,
    skills: seq<UserSkill>,
    interests: seq<UserInterest>,
    swipes: seq<Swipe>,
    matches: seq<Match>)

  /** The reasons listed on a recommendation; their text rendering is not modelled. */
  datatype Reason =
    | SharedInterestsReason(names: seq<string>)
    | ComplementarySkillsReason(skills: set<string>)
    | SameUniversity
    | SameMajor
    | SameYear
    | Nearby(km: real)

  /** The recommendation record. Complementary skills come from a hash set, so they are a set here. */
  datatype Recommendation = Recommendation(
    userId: int,
    fullName: string,
    university: Option<string>,
    major: Option<string>,
    year: Option<string>,
    bio: Option<string>,
    distanceKm: Option<real>,
    score: real,
    sharedInterests: seq<string>,
    complementarySkills: set<string>,
    reasons: seq<Reason>)

  /**
   * `UserNotFound`: the requester does not exist. `NonUniqueProfile`: the requester owns
   * several profiles, so the single-profile query fails. `DuplicateProfile`: another user
   * owns several, so collecting profiles into a map by owner fails.
   */
  datatype MatchingError = UserNotFound(userId: int) | NonUniqueProfile | DuplicateProfile

  /** Great-circle distance in kilometres between (lat1, lon1) and (lat2, lon2). */
  type Distance = (real, real, real, real) -> real

  const MaxLimit := 50

  // ---------------------------------------------------------------- lookups

  function FindUser(users: seq<User>, id: int): Option<User> {
    FindFirst(users, (u: User) => u.userId == Some(id))
  }

  /** The profile of a user: the one whose owner is that user. */
  function ProfileOf(profiles: seq<Profile>, id: int): Option<Profile> {
    FindFirst(profiles, (p: Profile) => p.owner == Some(id))
  }

  /** Collecting the profiles into a map by owner fails on a repeated owner. */
  predicate UniqueOwners(profiles: seq<Profile>) {
    forall i, j :: 0 <= i < j < |profiles| && profiles[i].owner.Some? ==> profiles[i].owner != profiles[j].owner
  }

  function SkillsOf(skills: seq<UserSkill>, id: int): seq<UserSkill> {
    Filter(skills, (s: UserSkill) => s.owner == Some(id))
  }

  function InterestsOf(interests: seq<UserInterest>, id: int): seq<UserInterest> {
    Filter(interests, (i: UserInterest) => i.owner == Some(id))
  }

  // ------------------------------------------------------------- exclusion

  ghost predicate SwipedBy(t: Tables, uid: int, x: int) {
    exists s :: s in t.swipes && s.swiper == Some(uid) && s.swipee == Some(x)
  }

  ghost predicate MatchedWith(t: Tables, uid: int, x: int) {
    exists m :: m in t.matches &&
      ((m.user1 == Some(uid) && m.user2 == Some(x)) || (m.user2 == Some(uid) && m.user1 == Some(x)))
  }

  /** Never recommended to uid: uid itself, whoever uid swiped, whoever uid is matched with. */
  ghost predicate Excluded(t: Tables, uid: int, x: int) {
    x == uid || SwipedBy(t, uid, x) || MatchedWith(t, uid, x)
  }

  method BuildExcludedUserIds(t: Tables, uid: int) returns (excluded: set<int>)
    ensures forall x :: x in excluded <==> Excluded(t, uid, x)
  {
    excluded := {uid};
    var i := 0;
    while i < |t.swipes|
      invariant 0 <= i <= |t.swipes|
      invariant forall x :: x in excluded <==>
        x == uid || exists k :: 0 <= k < i && t.swipes[k].swiper == Some(uid) && t.swipes[k].swipee == Some(x)
    {
      var s := t.swipes[i];
      if s.swiper == Some(uid) && s.swipee.Some? {
        excluded := excluded + {s.swipee.value};
      }
      i := i + 1;
    }
    var j := 0;
    while j < |t.matches|
      invariant 0 <= j <= |t.matches|
      invariant forall x :: x in excluded <==>
        x == uid || (exists k :: 0 <= k < |t.swipes| && t.swipes[k].swiper == Some(uid) && t.swipes[k].swipee == Some(x))
        || exists k :: 0 <= k < j && ((t.matches[k].user1 == Some(uid) && t.matches[k].user2 == Some(x))
                                      || (t.matches[k].user2 == Some(uid) && t.matches[k].user1 == Some(x)))
    {
      var m := t.matches[j];
      if m.user1 == Some(uid) && m.user2.Some? {
        excluded := excluded + {m.user2.value};
      }
      if m.user2 == Some(uid) && m.user1.Some? {
        excluded := excluded + {m.user1.value};
      }
      j := j + 1;
    }
  }

  // ---------------------------------------------------- shared interests

  /** The lower-cased, non-blank interest names of a list. */
  function InterestKeys(interests: seq<UserInterest>): (r: set<string>)
    ensures forall k :: k in r <==> exists n :: n in NonBlankNames(interests) && Lower(n) == k
  {
    set i | 0 <= i < |interests| && HasValue(interests[i].interestName) :: Lower(interests[i].interestName.value)
  }

  function NonBlankNames(interests: seq<UserInterest>): (r: seq<string>)
    ensures forall n :: n in r <==> exists i :: 0 <= i < |interests| && interests[i].interestName == Some(n) && HasValue(Some(n))
  {
    if interests == [] then []
    else
      var init := interests[..|interests| - 1];
      var last := interests[|interests| - 1].interestName;
      assert forall i :: 0 <= i < |init| ==> init[i] == interests[i];
      NonBlankNames(init) + (if HasValue(last) then [last.value] else [])
  }

  /**
   * The requester's non-blank interest names whose lower-cased form is among the
   * candidate's, each exact name once, in the requester's order.
   */
  function SharedInterests(current: seq<UserInterest>, candidate: seq<UserInterest>): (r: seq<string>)
    ensures NoDuplicates(r)
    ensures forall n :: n in r <==>
      (exists i :: 0 <= i < |current| && current[i].interestName == Some(n) && HasValue(Some(n)))
      && Lower(n) in InterestKeys(candidate)
    ensures IsSubsequence(r, NonBlankNames(current))
  {
    var keys := InterestKeys(candidate);
    var names := NonBlankNames(current);
    var kept := Filter(names, (n: string) => Lower(n) in keys);
    var r := Dedup(kept);
    assert forall n :: n in r <==> n in kept;
    FilterIsSubsequence(names, (n: string) => Lower(n) in keys);
    DedupIsSubsequence(kept);
    SubsequenceTrans(r, kept, names);
    r
  }

  // -------------------------------------------------- complementary skills

  predicate Flag(s: UserSkill, offering: bool) {
    (if offering then s.offering else s.seeking) == Some(true)
  }

  /** The lower-cased non-blank names of the skills a list offers (or seeks). */
  function SkillKeys(skills: seq<UserSkill>, offering: bool): set<string> {
    set i | 0 <= i < |skills| && HasValue(skills[i].skillName) && Flag(skills[i], offering) :: Lower(skills[i].skillName.value)
  }

  /** The skill map: its keys, since every value put into it is true. */
  method BuildSkillMap(skills: seq<UserSkill>, offering: bool) returns (keys: set<string>)
    ensures keys == SkillKeys(skills, offering)
  {
    keys := {};
    var i := 0;
    while i < |skills|
      invariant 0 <= i <= |skills|
      invariant keys == SkillKeys(skills[..i], offering)
    {
      var s := skills[i];
      assert skills[..i + 1] == skills[..i] + [s];
      if HasValue(s.skillName) && Flag(s, offering) {
        keys := keys + {Lower(s.skillName.value)};
      }
      i := i + 1;
    }
    assert skills[..i] == skills;
  }

  const TheyOffer := " (they offer)"
  const TheyNeed := " (they need)"

  /** The names of a set, each followed by the same suffix. */
  function Suffixed(names: set<string>, suffix: string): set<string> {
    set k | k in names :: k + suffix
  }

  /**
   * One entry per skill the candidate offers and the requester seeks, and one per skill the
   * candidate seeks and the requester offers: no two of them collide.
   */
  function ComplementarySkills(current: seq<UserSkill>, candidate: seq<UserSkill>): (r: set<string>)
    ensures |r| == |SkillKeys(candidate, true) * SkillKeys(current, false)|
                 + |SkillKeys(candidate, false) * SkillKeys(current, true)|
  {
    var offered := SkillKeys(candidate, true) * SkillKeys(current, false);
    var needed := SkillKeys(candidate, false) * SkillKeys(current, true);
    SuffixedCount(offered, TheyOffer);
    SuffixedCount(needed, TheyNeed);
    SuffixedDisjoint(offered, needed);
    Suffixed(offered, TheyOffer) + Suffixed(needed, TheyNeed)
  }

  method ComputeComplementarySkills(current: seq<UserSkill>, candidate: seq<UserSkill>) returns (matches: set<string>)
    ensures matches == ComplementarySkills(current, candidate)
  {
    var currentOffering := BuildSkillMap(current, true);
    var currentSeeking := BuildSkillMap(current, false);
    var candidateOffering := BuildSkillMap(candidate, true);
    var candidateSeeking := BuildSkillMap(candidate, false);
    matches := {};
    var todo := candidateOffering;
    while todo != {}
      invariant todo <= candidateOffering
      invariant matches == Suffixed((candidateOffering - todo) * currentSeeking, TheyOffer)
      decreases todo
    {
      var k :| k in todo;
      SuffixedStep(candidateOffering, todo, currentSeeking, k, TheyOffer);
      if k in currentSeeking {
        matches := matches + {k + TheyOffer};
      }
      todo := todo - {k};
    }
    ghost var offered := matches;
    todo := candidateSeeking;
    while todo != {}
      invariant todo <= candidateSeeking
      invariant matches == offered + Suffixed((candidateSeeking - todo) * currentOffering, TheyNeed)
      decreases todo
    {
      var k :| k in todo;
      SuffixedStep(candidateSeeking, todo, currentOffering, k, TheyNeed);
      if k in currentOffering {
        matches := matches + {k + TheyNeed};
      }
      todo := todo - {k};
    }
    assert candidateOffering - {} == candidateOffering && candidateSeeking - {} == candidateSeeking;
  }

  /** Moving k from the to-do set to the done set adds k's suffixed name when the other map holds k. */
  lemma SuffixedStep(all: set<string>, todo: set<string>, other: set<string>, k: string, suffix: string)
    requires k in todo
    ensures Suffixed((all - (todo - {k})) * other, suffix)
      == Suffixed((all - todo) * other, suffix) + (if k in other && k in all then {k + suffix} else {})
  {
    assert (all - (todo - {k})) * other
      == (all - todo) * other + (if k in other && k in all then {k} else {});
  }

  lemma SuffixesDiffer(a: string, b: string)
    ensures a + TheyOffer != b + TheyNeed
  {
    var n := |a + TheyOffer|;
    assert (a + TheyOffer)[n - 2] == 'r';
    if |b + TheyNeed| == n {
      assert (b + TheyNeed)[n - 2] == 'd';
    }
  }

  lemma SameSuffix(a: string, b: string, suffix: string)
    requires a + suffix == b + suffix
    ensures a == b
  {
    assert a == (a + suffix)[..|a|];
    assert b == (b + suffix)[..|b|];
  }

  lemma {:induction false} SuffixedCount(names: set<string>, suffix: string)
    ensures |Suffixed(names, suffix)| == |names|
    decreases |names|
  {
    if names != {} {
      var k :| k in names;
      SuffixedCount(names - {k}, suffix);
      forall x | x in names - {k} ensures x + suffix != k + suffix {
        if x + suffix == k + suffix {
          SameSuffix(x, k, suffix);
        }
      }
      assert Suffixed(names, suffix) == Suffixed(names - {k}, suffix) + {k + suffix};
    }
  }

  lemma SuffixedDisjoint(offered: set<string>, needed: set<string>)
    ensures Suffixed(offered, TheyOffer) * Suffixed(needed, TheyNeed) == {}
  {
    forall a, b ensures a + TheyOffer != b + TheyNeed {
      SuffixesDiffer(a, b);
    }
  }

  /**
   * "X (they offer)" is listed iff the candidate offers X and the requester seeks it;
   * "X (they need)" iff the candidate seeks X and the requester offers it.
   */
  lemma ComplementarySkillsIff(current: seq<UserSkill>, candidate: seq<UserSkill>, x: string)
    ensures x + TheyOffer in ComplementarySkills(current, candidate)
      <==> x in SkillKeys(candidate, true) && x in SkillKeys(current, false)
    ensures x + TheyNeed in ComplementarySkills(current, candidate)
      <==> x in SkillKeys(candidate, false) && x in SkillKeys(current, true)
  {
    forall k | k + TheyOffer == x + TheyOffer ensures k == x { SameSuffix(k, x, TheyOffer); }
    forall k | k + TheyNeed == x + TheyNeed ensures k == x { SameSuffix(k, x, TheyNeed); }
    forall k ensures k + TheyNeed != x + TheyOffer && k + TheyOffer != x + TheyNeed {
      SuffixesDiffer(x, k);
      SuffixesDiffer(k, x);
    }
  }

  // ------------------------------------------------------------- distance

  predicate ProfileLocated(p: Option<Profile>) {
    p.Some? && p.value.showLocation == Some(true) && p.value.latitude.Some? && p.value.longitude.Some?
  }

  predicate UserLocated(u: User) {
    u.showLocation == Some(true) && u.latitude.Some? && u.longitude.Some?
  }

  /** Profile coordinates when the profile shares them, else the user's when the user shares them. */
  function Coordinates(u: User, p: Option<Profile>): (r: Option<(real, real)>)
    ensures ProfileLocated(p) ==> r == Some((p.value.latitude.value, p.value.longitude.value))
    ensures !ProfileLocated(p) ==> (r.Some? <==> UserLocated(u))
    ensures !ProfileLocated(p) && r.Some? ==> r.value == (u.latitude.value, u.longitude.value)
  {
    if ProfileLocated(p) then Some((p.value.latitude.value, p.value.longitude.value))
    else if UserLocated(u) then Some((u.latitude.value, u.longitude.value))
    else None
  }

  function ResolveDistance(u1: User, p1: Option<Profile>, u2: User, p2: Option<Profile>, dist: Distance): (r: Option<real>)
    ensures r.Some? <==> (ProfileLocated(p1) || UserLocated(u1)) && (ProfileLocated(p2) || UserLocated(u2))
    ensures r.Some? ==>
      var c1, c2 := Coordinates(u1, p1).value, Coordinates(u2, p2).value;
      r.value == dist(c1.0, c1.1, c2.0, c2.1)
  {
    var c1 := Coordinates(u1, p1);
    var c2 := Coordinates(u2, p2);
    if c1.None? || c2.None? then None else Some(dist(c1.value.0, c1.value.1, c2.value.0, c2.value.1))
  }

  // ---------------------------------------------------------------- score

  /** `Math.max(0, 25 - d / 5)`. */
  function DistanceTerm(d: real): real {
    if 25.0 - d / 5.0 > 0.0 then 25.0 - d / 5.0 else 0.0
  }

  /** Both values present and equal ignoring case. */
  predicate SameIgnoringCase(candidateValue: Option<string>, currentValue: Option<string>) {
    candidateValue.Some? && currentValue.Some? && EqualsIgnoreCase(candidateValue.value, currentValue.value)
  }

  predicate SameMajorHolds(cp: Option<Profile>, candP: Option<Profile>) {
    cp.Some? && candP.Some? && SameIgnoringCase(candP.value.major, cp.value.major)
  }

  predicate SameYearHolds(cp: Option<Profile>, candP: Option<Profile>) {
    cp.Some? && candP.Some? && SameIgnoringCase(candP.value.year, cp.value.year)
  }

  /** What one reason adds to the score. */
  function Weight(r: Reason): real {
    match r
    case SharedInterestsReason(names) => 8.0 * |names| as real
    case ComplementarySkillsReason(skills) => 15.0 * |skills| as real
    case SameUniversity => 5.0
    case SameMajor => 5.0
    case SameYear => 3.0
    case Nearby(km) => DistanceTerm(km)
  }

  function TotalWeight(rs: seq<Reason>): real {
    if rs == [] then 0.0 else TotalWeight(rs[..|rs| - 1]) + Weight(rs[|rs| - 1])
  }

  /** The context of one candidate: both users, both profiles, both skill and interest lists. */
  datatype Pair = Pair(
    current: User, currentProfile: Option<Profile>,
    candidate: User, candidateProfile: Option<Profile>,
    currentSkills: seq<UserSkill>, candidateSkills: seq<UserSkill>,
    currentInterests: seq<UserInterest>, candidateInterests: seq<UserInterest>)

  /** What the service finds out about a pair before scoring it. */
  datatype Facts = Facts(
    shared: seq<string>,
    skills: set<string>,
    sameUniversity: bool,
    sameMajor: bool,
    sameYear: bool,
    distanceKm: Option<real>)

  function FactsOf(p: Pair, dist: Distance): Facts {
    Facts(
      SharedInterests(p.currentInterests, p.candidateInterests),
      ComplementarySkills(p.currentSkills, p.candidateSkills),
      SameIgnoringCase(p.candidate.university, p.current.university),
      SameMajorHolds(p.currentProfile, p.candidateProfile),
      SameYearHolds(p.currentProfile, p.candidateProfile),
      ResolveDistance(p.current, p.currentProfile, p.candidate, p.candidateProfile, dist))
  }

  /** The compatibility score as a sum of independent terms. */
  function Score(f: Facts): (r: real)
    ensures r >= 0.0
    ensures r > 0.0 <==> f.shared != [] || f.skills != {} || f.sameUniversity || f.sameMajor || f.sameYear
                         || (f.distanceKm.Some? && f.distanceKm.value < 125.0)
  {
    8.0 * |f.shared| as real
    + 15.0 * |f.skills| as real
    + (if f.sameUniversity then 5.0 else 0.0)
    + (if f.sameMajor then 5.0 else 0.0)
    + (if f.sameYear then 3.0 else 0.0)
    + (if f.distanceKm.Some? then DistanceTerm(f.distanceKm.value) else 0.0)
  }

  /** Strictly increasing in rank, every rank below k. */
  predicate RankedBelow(rs: seq<Reason>, k: nat) {
    && (forall i, j :: 0 <= i < j < |rs| ==> Rank(rs[i]) < Rank(rs[j]))
    && (forall i :: 0 <= i < |rs| ==> Rank(rs[i]) < k)
  }

  /** Appending a reason ranked above all present keeps the list increasing. */
  function AppendIf(rs: seq<Reason>, cond: bool, r: Reason): (res: seq<Reason>)
    ensures |res| <= |rs| + 1
    ensures RankedBelow(rs, Rank(r)) ==> RankedBelow(res, Rank(r) + 1)
  {
    if cond then rs + [r] else rs
  }

  /** The position of a reason in the service's fixed order. */
  function Rank(r: Reason): nat {
    match r
    case SharedInterestsReason(_) => 0
    case ComplementarySkillsReason(_) => 1
    case SameUniversity => 2
    case SameMajor => 3
    case SameYear => 4
    case Nearby(_) => 5
  }

  /** The reasons, in the order the service lists them. */
  function ReasonsOf(f: Facts): (r: seq<Reason>)
    ensures |r| <= 6
    ensures forall i, j :: 0 <= i < j < |r| ==> Rank(r[i]) < Rank(r[j])
  {
    var r1 := AppendIf([], f.shared != [], SharedInterestsReason(f.shared));
    var r2 := AppendIf(r1, f.skills != {}, ComplementarySkillsReason(f.skills));
    var r3 := AppendIf(r2, f.sameUniversity, SameUniversity);
    var r4 := AppendIf(r3, f.sameMajor, SameMajor);
    var r5 := AppendIf(r4, f.sameYear, SameYear);
    AppendIf(r5, f.distanceKm.Some?, Nearby(if f.distanceKm.Some? then f.distanceKm.value else 0.0))
  }

  /**
   * First and last name joined by a space and trimmed: empty when both are blank, the two
   * names when both are already trimmed, and one name alone when the other is missing.
   */
  function FullName(u: User): (r: string)
    ensures r == [] <==> AllTrimmed(u.firstName.GetOr("")) && AllTrimmed(u.lastName.GetOr(""))
    ensures u.firstName.None? && u.lastName.None? ==> r == []
    ensures u.firstName.Some? && u.lastName.Some? && u.firstName.value != [] && u.lastName.value != []
      && TrimFixed(u.firstName.value) && TrimFixed(u.lastName.value)
      ==> r == u.firstName.value + " " + u.lastName.value
    ensures u.firstName.Some? && TrimFixed(u.firstName.value) && u.lastName.None? ==> r == u.firstName.value
    ensures u.firstName.None? && u.lastName.Some? && TrimFixed(u.lastName.value) ==> r == u.lastName.value
  {
    TrimJoinSpace(u.firstName.GetOr(""), u.lastName.GetOr(""));
    Trim(u.firstName.GetOr("") + " " + u.lastName.GetOr(""))
  }

  /** The recommendation of one candidate, or none when the score is not positive. */
  function RecommendationFor(p: Pair, dist: Distance): Option<Recommendation>
    requires p.candidate.userId.Some?
  {
    var f := FactsOf(p, dist);
    if Score(f) <= 0.0 then None
    else Some(Recommendation(
      p.candidate.userId.value,
      FullName(p.candidate),
      p.candidate.university,
      if p.candidateProfile.Some? then p.candidateProfile.value.major else None,
      if p.candidateProfile.Some? then p.candidateProfile.value.year else None,
      if p.candidateProfile.Some? then p.candidateProfile.value.bio else None,
      f.distanceKm, Score(f), f.shared, f.skills, ReasonsOf(f)))
  }

  lemma TotalWeightAppendIf(rs: seq<Reason>, cond: bool, r: Reason)
    ensures TotalWeight(AppendIf(rs, cond, r)) == TotalWeight(rs) + (if cond then Weight(r) else 0.0)
  {
    assert (rs + [r])[..|rs + [r]| - 1] == rs;
  }

  /** The score is exactly what the listed reasons weigh. */
  lemma ScoreIsWeightOfReasons(f: Facts)
    ensures Score(f) == TotalWeight(ReasonsOf(f))
  {
    ReasonsWeight(f);
    ScoreIsSumOfWeights(f, TotalWeight(ReasonsOf(f)));
  }

  lemma ScoreIsSumOfWeights(f: Facts, total: real)
    requires total
      == (if f.shared != [] then Weight(SharedInterestsReason(f.shared)) else 0.0)
         + (if f.skills != {} then Weight(ComplementarySkillsReason(f.skills)) else 0.0)
         + (if f.sameUniversity then Weight(SameUniversity) else 0.0)
         + (if f.sameMajor then Weight(SameMajor) else 0.0)
         + (if f.sameYear then Weight(SameYear) else 0.0)
         + (if f.distanceKm.Some? then DistanceTerm(f.distanceKm.value) else 0.0)
    ensures Score(f) == total
  {
    assert (if f.shared != [] then Weight(SharedInterestsReason(f.shared)) else 0.0) == 8.0 * |f.shared| as real;
    assert (if f.skills != {} then Weight(ComplementarySkillsReason(f.skills)) else 0.0) == 15.0 * |f.skills| as real;
  }

  /** The listed reasons weigh the sum of the weights of those whose condition holds. */
  lemma ReasonsWeight(f: Facts)
    ensures TotalWeight(ReasonsOf(f))
      == (if f.shared != [] then Weight(SharedInterestsReason(f.shared)) else 0.0)
         + (if f.skills != {} then Weight(ComplementarySkillsReason(f.skills)) else 0.0)
         + (if f.sameUniversity then Weight(SameUniversity) else 0.0)
         + (if f.sameMajor then Weight(SameMajor) else 0.0)
         + (if f.sameYear then Weight(SameYear) else 0.0)
         + (if f.distanceKm.Some? then DistanceTerm(f.distanceKm.value) else 0.0)
  {
    var r3 := AppendIf(AppendIf(AppendIf([], f.shared != [], SharedInterestsReason(f.shared)),
                                f.skills != {}, ComplementarySkillsReason(f.skills)),
                       f.sameUniversity, SameUniversity);
    FirstThreeWeight(f);
    ReasonsOfInTwoParts(f);
    LastThreeWeight(f, r3, ReasonsOf(f));
  }

  lemma LastThreeWeight(f: Facts, r3: seq<Reason>, rs: seq<Reason>)
    requires TotalWeight(r3)
      == (if f.shared != [] then Weight(SharedInterestsReason(f.shared)) else 0.0)
         + (if f.skills != {} then Weight(ComplementarySkillsReason(f.skills)) else 0.0)
         + (if f.sameUniversity then Weight(SameUniversity) else 0.0)
    requires rs == AppendIf(AppendIf(AppendIf(r3, f.sameMajor, SameMajor), f.sameYear, SameYear),
                            f.distanceKm.Some?, Nearby(if f.distanceKm.Some? then f.distanceKm.value else 0.0))
    ensures TotalWeight(rs)
      == (if f.shared != [] then Weight(SharedInterestsReason(f.shared)) else 0.0)
         + (if f.skills != {} then Weight(ComplementarySkillsReason(f.skills)) else 0.0)
         + (if f.sameUniversity then Weight(SameUniversity) else 0.0)
         + (if f.sameMajor then Weight(SameMajor) else 0.0)
         + (if f.sameYear then Weight(SameYear) else 0.0)
         + (if f.distanceKm.Some? then DistanceTerm(f.distanceKm.value) else 0.0)
  {
    var d := if f.distanceKm.Some? then f.distanceKm.value else 0.0;
    TotalWeightAppendThree(r3, f.sameMajor, SameMajor, f.sameYear, SameYear, f.distanceKm.Some?, Nearby(d));
  }

  lemma ReasonsOfInTwoParts(f: Facts)
    ensures var r3 := AppendIf(AppendIf(AppendIf([], f.shared != [], SharedInterestsReason(f.shared)),
                                        f.skills != {}, ComplementarySkillsReason(f.skills)),
                               f.sameUniversity, SameUniversity);
      ReasonsOf(f) == AppendIf(AppendIf(AppendIf(r3, f.sameMajor, SameMajor), f.sameYear, SameYear),
                               f.distanceKm.Some?, Nearby(if f.distanceKm.Some? then f.distanceKm.value else 0.0))
  {
  }

  lemma FirstThreeWeight(f: Facts)
    ensures TotalWeight(AppendIf(AppendIf(AppendIf([], f.shared != [], SharedInterestsReason(f.shared)),
                                          f.skills != {}, ComplementarySkillsReason(f.skills)),
                                 f.sameUniversity, SameUniversity))
      == (if f.shared != [] then Weight(SharedInterestsReason(f.shared)) else 0.0)
         + (if f.skills != {} then Weight(ComplementarySkillsReason(f.skills)) else 0.0)
         + (if f.sameUniversity then Weight(SameUniversity) else 0.0)
  {
    TotalWeightAppendThree([], f.shared != [], SharedInterestsReason(f.shared),
                           f.skills != {}, ComplementarySkillsReason(f.skills), f.sameUniversity, SameUniversity);
  }

  lemma TotalWeightAppendThree(rs: seq<Reason>, c1: bool, x1: Reason, c2: bool, x2: Reason, c3: bool, x3: Reason)
    ensures TotalWeight(AppendIf(AppendIf(AppendIf(rs, c1, x1), c2, x2), c3, x3))
      == TotalWeight(rs) + (if c1 then Weight(x1) else 0.0) + (if c2 then Weight(x2) else 0.0)
         + (if c3 then Weight(x3) else 0.0)
  {
    TotalWeightAppendIf(rs, c1, x1);
    TotalWeightAppendIf(AppendIf(rs, c1, x1), c2, x2);
    TotalWeightAppendIf(AppendIf(AppendIf(rs, c1, x1), c2, x2), c3, x3);
  }

  /** One scoring step: when the condition holds, the reason is listed and its weight added. */
  method AddReason(score: real, reasons: seq<Reason>, cond: bool, r: Reason) returns (score': real, reasons': seq<Reason>)
    ensures reasons' == AppendIf(reasons, cond, r)
    ensures score' == score + (if cond then Weight(r) else 0.0)
  {
    score', reasons' := score, reasons;
    if cond {
      score' := score' + Weight(r);
      reasons' := reasons' + [r];
    }
  }

  /** Accumulates score and reasons term by term, in the order the service checks them. */
  method Accumulate(f: Facts) returns (score: real, reasons: seq<Reason>)
    ensures reasons == ReasonsOf(f)
    ensures score == Score(f)
  {
    score, reasons := 0.0, [];
    score, reasons := AddReason(score, reasons, f.shared != [], SharedInterestsReason(f.shared));
    score, reasons := AddReason(score, reasons, f.skills != {}, ComplementarySkillsReason(f.skills));
    score, reasons := AddReason(score, reasons, f.sameUniversity, SameUniversity);
    score, reasons := AddReason(score, reasons, f.sameMajor, SameMajor);
    score, reasons := AddReason(score, reasons, f.sameYear, SameYear);
    score, reasons := AddReason(score, reasons, f.distanceKm.Some?,
      Nearby(if f.distanceKm.Some? then f.distanceKm.value else 0.0));
  }

  /** Scores one candidate against the requester; `None` when the score is not positive. */
  method BuildRecommendation(p: Pair, dist: Distance) returns (dto: Option<Recommendation>)
    requires p.candidate.userId.Some?
    ensures dto == RecommendationFor(p, dist)
  {
    var sharedInterests := SharedInterests(p.currentInterests, p.candidateInterests);
    var complementarySkills := ComputeComplementarySkills(p.currentSkills, p.candidateSkills);
    var sameUniversity := p.candidate.university.Some? && SameIgnoringCase(p.candidate.university, p.current.university);
    var sameMajor, sameYear := false, false;
    if p.candidateProfile.Some? && p.currentProfile.Some? {
      sameMajor := SameIgnoringCase(p.candidateProfile.value.major, p.currentProfile.value.major);
      sameYear := SameIgnoringCase(p.candidateProfile.value.year, p.currentProfile.value.year);
    }
    var distanceKm := ResolveDistance(p.current, p.currentProfile, p.candidate, p.candidateProfile, dist);
    var facts := Facts(sharedInterests, complementarySkills, sameUniversity, sameMajor, sameYear, distanceKm);
    assert facts == FactsOf(p, dist);
    var score, reasons := Accumulate(facts);
    if score <= 0.0 {
      return None;
    }
    dto := Some(Recommendation(
      p.candidate.userId.value,
      FullName(p.candidate),
      p.candidate.university,
      if p.candidateProfile.Some? then p.candidateProfile.value.major else None,
      if p.candidateProfile.Some? then p.candidateProfile.value.year else None,
      if p.candidateProfile.Some? then p.candidateProfile.value.bio else None,
      distanceKm, score, sharedInterests, complementarySkills, reasons));
  }

  // ------------------------------------------------------ recommendMatches

  /** `Math.min(Math.max(limit, 1), 50)`. */
  function Clamp(limit: int): (r: int)
    ensures 1 <= r <= MaxLimit
    ensures 1 <= limit <= MaxLimit ==> r == limit
  {
    if limit < 1 then 1 else if limit > MaxLimit then MaxLimit else limit
  }

  /** The sort key: ascending by the negated score is descending by score. */
  function NegScore(d: Recommendation): real {
    -d.score
  }

  /** The scoring context of candidate c for the requester. */
  function PairFor(t: Tables, current: User, currentProfile: Option<Profile>, uid: int, c: User): Pair
    requires c.userId.Some?
  {
    var cid := c.userId.value;
    Pair(current, currentProfile, c, ProfileOf(t.profiles, cid),
      SkillsOf(t.skills, uid), SkillsOf(t.skills, cid),
      InterestsOf(t.interests, uid), InterestsOf(t.interests, cid))
  }

  /** What the loop adds for candidate c: its recommendation, if c has an id, is not excluded and scores. */
  ghost function Consider(t: Tables, uid: int, current: User, currentProfile: Option<Profile>,
                          c: User, dist: Distance): seq<Recommendation>
  {
    if c.userId.None? || Excluded(t, uid, c.userId.value) then []
    else
      var dto := RecommendationFor(PairFor(t, current, currentProfile, uid, c), dist);
      if dto.Some? then [dto.value] else []
  }

  /** The candidates the loop keeps, in table order. */
  ghost function Collect(t: Tables, uid: int, current: User, currentProfile: Option<Profile>,
                         users: seq<User>, dist: Distance): seq<Recommendation>
  {
    if users == [] then []
    else (Collect(t, uid, current, currentProfile, users[..|users| - 1], dist)
          + Consider(t, uid, current, currentProfile, users[|users| - 1], dist))
  }

  lemma CollectStep(t: Tables, uid: int, current: User, currentProfile: Option<Profile>,
                    users: seq<User>, i: nat, dist: Distance)
    requires i < |users|
    ensures Collect(t, uid, current, currentProfile, users[..i + 1], dist)
      == Collect(t, uid, current, currentProfile, users[..i], dist)
         + Consider(t, uid, current, currentProfile, users[i], dist)
  {
    assert users[..i + 1][..i] == users[..i];
  }

  /** Sorted by descending score (stable), then cut to the clamped limit. */
  function Ranked(recs: seq<Recommendation>, limit: int): seq<Recommendation> {
    var sorted := Sorting.SortBy(recs, NegScore);
    sorted[..if |sorted| < Clamp(limit) then |sorted| else Clamp(limit)]
  }

  function OwnedProfiles(profiles: seq<Profile>, uid: int): seq<Profile> {
    Filter(profiles, (p: Profile) => p.owner == Some(uid))
  }

  /** What `recommendMatches(uid, limit)` returns, or the exception it raises. */
  ghost function Recommend(t: Tables, uid: int, limit: int, dist: Distance): Result<seq<Recommendation>, MatchingError> {
    var current := FindUser(t.users, uid);
    if current.None? then Err(UserNotFound(uid))
    else
      var currentProfile := Repositories.SingleResult(OwnedProfiles(t.profiles, uid));
      if currentProfile.Err? then Err(NonUniqueProfile)
      else if !UniqueOwners(t.profiles) then Err(DuplicateProfile)
      else Ok(Ranked(Collect(t, uid, current.value, currentProfile.value, t.users, dist), limit))
  }

  method RecommendMatches(t: Tables, uid: int, limit: int, dist: Distance)
    returns (r: Result<seq<Recommendation>, MatchingError>)
    ensures r == Recommend(t, uid, limit, dist)
  {
    var current := FindUser(t.users, uid);
    if current.None? {
      return Err(UserNotFound(uid));
    }
    var currentProfile := Repositories.SingleResult(OwnedProfiles(t.profiles, uid));
    if currentProfile.Err? {
      return Err(NonUniqueProfile);
    }
    if !UniqueOwners(t.profiles) {
      return Err(DuplicateProfile);
    }
    var excluded := BuildExcludedUserIds(t, uid);
    var results: seq<Recommendation> := [];
    var i := 0;
    while i < |t.users|
      invariant 0 <= i <= |t.users|
      invariant results == Collect(t, uid, current.value, currentProfile.value, t.users[..i], dist)
    {
      var candidate := t.users[i];
      CollectStep(t, uid, current.value, currentProfile.value, t.users, i, dist);
      if candidate.userId.Some? && candidate.userId.value !in excluded {
        var dto := BuildRecommendation(PairFor(t, current.value, currentProfile.value, uid, candidate), dist);
        if dto.Some? {
          results := results + [dto.value];
        }
      }
      i := i + 1;
    }
    assert t.users[..i] == t.users;
    return Ok(Ranked(results, limit));
  }

  // ------------------------------------------------------------ properties

  /** An unknown requester is an error, and only an unknown requester is that error. */
  lemma UnknownUserRejected(t: Tables, uid: int, limit: int, dist: Distance)
    ensures Recommend(t, uid, limit, dist) == Err(UserNotFound(uid))
      <==> forall k :: 0 <= k < |t.users| ==> t.users[k].userId != Some(uid)
  {
  }

  /** What a recommendation carries: the candidate's id, a positive score that its reasons account for. */
  lemma RecommendationForFacts(p: Pair, dist: Distance)
    requires p.candidate.userId.Some?
    ensures var d := RecommendationFor(p, dist);
      d.Some? ==> (d.value.userId == p.candidate.userId.value && d.value.score > 0.0
                   && d.value.score == TotalWeight(d.value.reasons))
    ensures RecommendationFor(p, dist).None? <==> Score(FactsOf(p, dist)) <= 0.0
  {
    ScoreIsWeightOfReasons(FactsOf(p, dist));
  }

  /** Every collected recommendation is a positively scored, non-excluded user of the table. */
  lemma CollectMembers(t: Tables, uid: int, current: User, currentProfile: Option<Profile>,
                        users: seq<User>, dist: Distance, d: Recommendation)
    requires d in Collect(t, uid, current, currentProfile, users, dist)
    ensures !Excluded(t, uid, d.userId) && d.score > 0.0
    ensures exists c :: (c in users && c.userId == Some(d.userId)
                         && RecommendationFor(PairFor(t, current, currentProfile, uid, c), dist) == Some(d))
  {
    var f := c => Consider(t, uid, current, currentProfile, c, dist);
    CollectIsFlatten(t, uid, current, currentProfile, users, dist);
    FlattenMember(users, f, d);
    var c :| c in users && d in f(c);
    RecommendationForFacts(PairFor(t, current, currentProfile, uid, c), dist);
  }

  /** The collection is what `Consider` yields for each user, concatenated in table order. */
  lemma {:induction false} CollectIsFlatten(t: Tables, uid: int, current: User, currentProfile: Option<Profile>,
                                            users: seq<User>, dist: Distance)
    ensures Collect(t, uid, current, currentProfile, users, dist)
      == Flatten(users, c => Consider(t, uid, current, currentProfile, c, dist))
  {
    if users != [] {
      CollectIsFlatten(t, uid, current, currentProfile, users[..|users| - 1], dist);
    }
  }

  /** Every non-excluded user of the table whose recommendation scores is collected. */
  lemma CollectComplete(t: Tables, uid: int, current: User, currentProfile: Option<Profile>,
                         users: seq<User>, dist: Distance, c: User)
    requires c in users && c.userId.Some? && !Excluded(t, uid, c.userId.value)
    requires RecommendationFor(PairFor(t, current, currentProfile, uid, c), dist).Some?
    ensures RecommendationFor(PairFor(t, current, currentProfile, uid, c), dist).value
      in Collect(t, uid, current, currentProfile, users, dist)
  {
    var d := RecommendationFor(PairFor(t, current, currentProfile, uid, c), dist).value;
    var f := c => Consider(t, uid, current, currentProfile, c, dist);
    assert d in f(c);
    FlattenCovers(users, f, c, d);
    CollectIsFlatten(t, uid, current, currentProfile, users, dist);
  }

  /** The ranked list keeps only collected recommendations, is ordered and is cut to the limit. */
  lemma RankedProperties(recs: seq<Recommendation>, limit: int)
    ensures var r := Ranked(recs, limit);
      |r| == (if |recs| < Clamp(limit) then |recs| else Clamp(limit))
      && (forall i, j :: 0 <= i < j < |r| ==> r[i].score >= r[j].score)
      && (forall d :: d in r ==> d in recs)
      && (forall d, e :: d in r && e in recs && e !in r ==> e.score <= d.score)
  {
    var sorted := Sorting.SortBy(recs, NegScore);
    Sorting.SortBySorted(recs, NegScore);
    var r := Ranked(recs, limit);
    var k := |r|;
    assert r == sorted[..k];
    forall d | d in r ensures d in recs {
      assert d in multiset(sorted);
    }
    forall d, e | d in r && e in recs && e !in r ensures e.score <= d.score {
      assert e in multiset(sorted);
      var j :| 0 <= j < |sorted| && sorted[j] == e;
      var i :| 0 <= i < k && r[i] == d;
      assert NegScore(sorted[i]) <= NegScore(sorted[j]);
    }
  }

  /** A recommendation left out of the ranked list means the list is full. */
  lemma RankedFull(recs: seq<Recommendation>, limit: int, e: Recommendation)
    requires e in recs && e !in Ranked(recs, limit)
    ensures |Ranked(recs, limit)| == Clamp(limit)
  {
    assert e in multiset(Sorting.SortBy(recs, NegScore));
  }

  /**
   * The result never names the requester, a user the requester swiped or a user matched
   * with the requester; every score is positive; scores never increase along the list; the
   * list has at most `Clamp(limit)` entries, and fewer only when fewer users qualify; no
   * qualifying user outside the list scores more than one inside it.
   */
  lemma RecommendSpec(t: Tables, uid: int, limit: int, dist: Distance)
    requires Recommend(t, uid, limit, dist).Ok?
    ensures var r := Recommend(t, uid, limit, dist).value;
      var all := Collect(t, uid, FindUser(t.users, uid).value,
        Repositories.SingleResult(OwnedProfiles(t.profiles, uid)).value, t.users, dist);
      |r| == (if |all| < Clamp(limit) then |all| else Clamp(limit))
      && (forall i, j :: 0 <= i < j < |r| ==> r[i].score >= r[j].score)
      && (forall d :: d in r ==> (d in all && d.score > 0.0 && d.userId != uid
                               && !SwipedBy(t, uid, d.userId) && !MatchedWith(t, uid, d.userId)))
      && (forall d, e :: d in r && e in all && e !in r ==> e.score <= d.score)
  {
    var current := FindUser(t.users, uid).value;
    var currentProfile := Repositories.SingleResult(OwnedProfiles(t.profiles, uid)).value;
    var all := Collect(t, uid, current, currentProfile, t.users, dist);
    assert FindUser(t.users, uid).Some?;
    assert Repositories.SingleResult(OwnedProfiles(t.profiles, uid)).Ok?;
    assert UniqueOwners(t.profiles);
    assert Recommend(t, uid, limit, dist).value == Ranked(all, limit);
    RankedProperties(all, limit);
    forall d | d in Ranked(all, limit)
      ensures d.score > 0.0 && !Excluded(t, uid, d.userId)
    {
      CollectMembers(t, uid, current, currentProfile, t.users, dist, d);
    }
  }

  /**
   * No qualifying user is passed over for a weaker one: a non-excluded user of the table with
   * a positive score is in the result, or the result is full and every entry scores at least
   * as much.
   */
  lemma RecommendComplete(t: Tables, uid: int, limit: int, dist: Distance, c: User)
    requires Recommend(t, uid, limit, dist).Ok?
    requires c in t.users && c.userId.Some? && !Excluded(t, uid, c.userId.value)
    requires RecommendationFor(PairFor(t, FindUser(t.users, uid).value,
      Repositories.SingleResult(OwnedProfiles(t.profiles, uid)).value, uid, c), dist).Some?
    ensures var r := Recommend(t, uid, limit, dist).value;
      var e := RecommendationFor(PairFor(t, FindUser(t.users, uid).value,
        Repositories.SingleResult(OwnedProfiles(t.profiles, uid)).value, uid, c), dist).value;
      e in r || (|r| == Clamp(limit) && forall d :: d in r ==> e.score <= d.score)
  {
    var current := FindUser(t.users, uid).value;
    var currentProfile := Repositories.SingleResult(OwnedProfiles(t.profiles, uid)).value;
    var all := Collect(t, uid, current, currentProfile, t.users, dist);
    var e := RecommendationFor(PairFor(t, current, currentProfile, uid, c), dist).value;
    assert FindUser(t.users, uid).Some?;
    assert Repositories.SingleResult(OwnedProfiles(t.profiles, uid)).Ok?;
    assert UniqueOwners(t.profiles);
    assert Recommend(t, uid, limit, dist).value == Ranked(all, limit);
    CollectComplete(t, uid, current, currentProfile, t.users, dist, c);
    RankedProperties(all, limit);
    if e !in Ranked(all, limit) {
      RankedFull(all, limit, e);
    }
  }

  /** Each reason is listed exactly when its condition holds. */
  lemma ReasonsListed(f: Facts)
    ensures SharedInterestsReason(f.shared) in ReasonsOf(f) <==> f.shared != []
    ensures ComplementarySkillsReason(f.skills) in ReasonsOf(f) <==> f.skills != {}
    ensures SameUniversity in ReasonsOf(f) <==> f.sameUniversity
    ensures SameMajor in ReasonsOf(f) <==> f.sameMajor
    ensures SameYear in ReasonsOf(f) <==> f.sameYear
    ensures (exists km :: Nearby(km) in ReasonsOf(f)) <==> f.distanceKm.Some?
  {
    ReasonsMembers(f);
    if f.distanceKm.Some? {
      assert Nearby(f.distanceKm.value) in ReasonsOf(f);
    }
  }

  lemma ReasonsMembers(f: Facts)
    ensures forall x :: x in ReasonsOf(f) <==>
      (f.shared != [] && x == SharedInterestsReason(f.shared))
      || (f.skills != {} && x == ComplementarySkillsReason(f.skills))
      || (f.sameUniversity && x == SameUniversity)
      || (f.sameMajor && x == SameMajor)
      || (f.sameYear && x == SameYear)
      || (f.distanceKm.Some? && x == Nearby(f.distanceKm.value))
  {
    var r1 := AppendIf([], f.shared != [], SharedInterestsReason(f.shared));
    var r2 := AppendIf(r1, f.skills != {}, ComplementarySkillsReason(f.skills));
    var r3 := AppendIf(r2, f.sameUniversity, SameUniversity);
    var r4 := AppendIf(r3, f.sameMajor, SameMajor);
    var r5 := AppendIf(r4, f.sameYear, SameYear);
    var near := Nearby(if f.distanceKm.Some? then f.distanceKm.value else 0.0);
    AppendIfMembers([], f.shared != [], SharedInterestsReason(f.shared));
    AppendIfMembers(r1, f.skills != {}, ComplementarySkillsReason(f.skills));
    AppendIfMembers(r2, f.sameUniversity, SameUniversity);
    AppendIfMembers(r3, f.sameMajor, SameMajor);
    AppendIfMembers(r4, f.sameYear, SameYear);
    AppendIfMembers(r5, f.distanceKm.Some?, near);
  }

  lemma AppendIfMembers(rs: seq<Reason>, cond: bool, r: Reason)
    ensures forall x :: x in AppendIf(rs, cond, r) <==> x in rs || (cond && x == r)
  {
  }

  lemma SkillCountsInScore(f: Facts)
    ensures Score(f) >= 15.0 * |f.skills| as real
      + (if f.sameUniversity then 5.0 else 0.0) + (if f.sameMajor then 5.0 else 0.0) + (if f.sameYear then 3.0 else 0.0)
  {
  }

  /**
   * A candidate who offers a skill the requester seeks is always recommended, with
   * "<skill> (they offer)" among the complementary skills.
   */
  lemma OfferedSkillRecommended(p: Pair, dist: Distance, x: string)
    requires p.candidate.userId.Some?
    requires x in SkillKeys(p.candidateSkills, true) && x in SkillKeys(p.currentSkills, false)
    ensures RecommendationFor(p, dist).Some?
    ensures x + TheyOffer in RecommendationFor(p, dist).value.complementarySkills
    ensures RecommendationFor(p, dist).value.score >= 15.0
  {
    var f := FactsOf(p, dist);
    ComplementarySkillsIff(p.currentSkills, p.candidateSkills, x);
    assert x + TheyOffer in f.skills;
    assert |f.skills| >= 1;
    SkillCountsInScore(f);
  }

  // ------------------------------------------------- the seeded scenario

  /** Two students at the same university, each offering what the other seeks. */
  function AliceAndBob(): Tables {
    var alice := User(Some(1), Some("Alice"), Some("Morris"), Some("alice@test.edu"), Some("State University"),
                      Some(33.7490), Some(-84.3880), Some(true));
    var bob := User(Some(2), Some("Bob"), Some("Lee"), Some("bob@test.edu"), Some("State University"),
                    Some(33.8021), Some(-84.3915), Some(true));
    Tables(
      [alice, bob],
      [Profile(Some(1), Some("Computer Science"), Some("Junior"), Some("Test bio"), Some(33.7490), Some(-84.3880), Some(true)),
       Profile(Some(2), Some("Computer Science"), Some("Junior"), Some("Test bio"), Some(33.8021), Some(-84.3915), Some(true))],
      [UserSkill(1, Some(1), Some("JavaScript"), None, Some(true), Some(false)),
       UserSkill(2, Some(1), Some("Product Design"), None, Some(false), Some(true)),
       UserSkill(3, Some(2), Some("Product Design"), None, Some(true), Some(false)),
       UserSkill(4, Some(2), Some("JavaScript"), None, Some(false), Some(true))],
      [UserInterest(Some(1), Some("Hackathons")), UserInterest(Some(2), Some("Hackathons"))],
      [], [])
  }

  lemma AliceAndBobTables()
    ensures FindUser(AliceAndBob().users, 1) == Some(AliceAndBob().users[0])
    ensures Repositories.SingleResult(OwnedProfiles(AliceAndBob().profiles, 1)) == Ok(Some(AliceAndBob().profiles[0]))
    ensures UniqueOwners(AliceAndBob().profiles)
    ensures !Excluded(AliceAndBob(), 1, 2)
  {
    var t := AliceAndBob();
    assert OwnedProfiles(t.profiles, 1) == [t.profiles[0]];
  }

  lemma SkillKeyOf(skills: seq<UserSkill>, s: UserSkill, offering: bool)
    requires s in skills && HasValue(s.skillName) && Flag(s, offering)
    ensures Lower(s.skillName.value) in SkillKeys(skills, offering)
  {
    var i :| 0 <= i < |skills| && skills[i] == s;
  }

  lemma ProductDesign()
    ensures HasValue(Some("Product Design")) && Lower("Product Design") == "product design"
  {
    assert !IsWhitespace("Product Design"[0]);
  }

  lemma AliceAndBobSkills()
    ensures "product design" in SkillKeys(SkillsOf(AliceAndBob().skills, 2), true)
    ensures "product design" in SkillKeys(SkillsOf(AliceAndBob().skills, 1), false)
  {
    var skills := AliceAndBob().skills;
    var bobDesign := skills[2];
    var aliceDesign := skills[1];
    assert bobDesign in SkillsOf(skills, 2);
    assert aliceDesign in SkillsOf(skills, 1);
    ProductDesign();
    SkillKeyOf(SkillsOf(skills, 2), bobDesign, true);
    SkillKeyOf(SkillsOf(skills, 1), aliceDesign, false);
  }

  /** The loop over a two-user table whose first user is the requester keeps only the second. */
  lemma CollectSecondOfTwo(t: Tables, uid: int, current: User, currentProfile: Option<Profile>, dist: Distance, d: Recommendation)
    requires |t.users| == 2 && t.users[0].userId == Some(uid) && t.users[1].userId.Some?
    requires !Excluded(t, uid, t.users[1].userId.value)
    requires Consider(t, uid, current, currentProfile, t.users[1], dist) == [d]
    ensures Collect(t, uid, current, currentProfile, t.users, dist) == [d]
  {
    assert Consider(t, uid, current, currentProfile, t.users[0], dist) == [];
    assert t.users[..1][..0] == [];
    assert Collect(t, uid, current, currentProfile, t.users[..1], dist) == [];
  }

  lemma ScoreAboveTwenty(p: Pair, dist: Distance)
    requires p.candidate.userId.Some?
    requires p.candidate.university.Some? && p.candidate.university == p.current.university
    requires p.candidateProfile.Some? && p.currentProfile.Some?
    requires p.candidateProfile.value.major.Some? && p.candidateProfile.value.major == p.currentProfile.value.major
    requires p.candidateProfile.value.year.Some? && p.candidateProfile.value.year == p.currentProfile.value.year
    requires ComplementarySkills(p.currentSkills, p.candidateSkills) != {}
    ensures RecommendationFor(p, dist).Some? && RecommendationFor(p, dist).value.score > 20.0
  {
    var f := FactsOf(p, dist);
    assert f.sameUniversity && f.sameMajor && f.sameYear;
    assert |f.skills| >= 1;
    SkillCountsInScore(f);
  }

  function BobForAlice(): Pair {
    var t := AliceAndBob();
    PairFor(t, t.users[0], Some(t.profiles[0]), 1, t.users[1])
  }

  lemma BobRecommended(dist: Distance)
    ensures RecommendationFor(BobForAlice(), dist).Some?
    ensures "product design" + TheyOffer in RecommendationFor(BobForAlice(), dist).value.complementarySkills
    ensures RecommendationFor(BobForAlice(), dist).value.score > 20.0
  {
    var p := BobForAlice();
    BobPair();
    AliceAndBobSkills();
    OfferedSkillRecommended(p, dist, "product design");
    ComplementarySkillsIff(p.currentSkills, p.candidateSkills, "product design");
    ScoreAboveTwenty(p, dist);
  }

  lemma BobPair()
    ensures var t := AliceAndBob();
      var p := BobForAlice();
      p.current == t.users[0] && p.candidate == t.users[1]
      && p.currentProfile == Some(t.profiles[0]) && p.candidateProfile == Some(t.profiles[1])
      && p.currentSkills == SkillsOf(t.skills, 1) && p.candidateSkills == SkillsOf(t.skills, 2)
  {
    var t := AliceAndBob();
    assert ProfileOf(t.profiles, 2) == Some(t.profiles[1]);
  }

  lemma RecommendIsRanked(t: Tables, uid: int, limit: int, dist: Distance, current: User, currentProfile: Option<Profile>)
    requires FindUser(t.users, uid) == Some(current)
    requires Repositories.SingleResult(OwnedProfiles(t.profiles, uid)) == Ok(currentProfile)
    requires UniqueOwners(t.profiles)
    ensures Recommend(t, uid, limit, dist) == Ok(Ranked(Collect(t, uid, current, currentProfile, t.users, dist), limit))
  {
  }

  lemma RankedSingle(d: Recommendation, limit: int)
    ensures Ranked([d], limit) == [d]
  {
    assert Sorting.SortBy([d], NegScore) == [d];
  }

  lemma ConsiderKeeps(t: Tables, uid: int, current: User, currentProfile: Option<Profile>, c: User, dist: Distance)
    requires c.userId.Some? && !Excluded(t, uid, c.userId.value)
    requires RecommendationFor(PairFor(t, current, currentProfile, uid, c), dist).Some?
    ensures Consider(t, uid, current, currentProfile, c, dist)
      == [RecommendationFor(PairFor(t, current, currentProfile, uid, c), dist).value]
  {
  }

  /** Alice's recommendations are non-empty; the top one lists "product design" and scores above 20. */
  lemma AliceGetsBob(t: Tables, dist: Distance)
    requires t == AliceAndBob()
    ensures Recommend(t, 1, 5, dist).Ok?
    ensures var r := Recommend(t, 1, 5, dist).value;
      r != [] && "product design" + TheyOffer in r[0].complementarySkills && r[0].score > 20.0
  {
    var currentProfile := Some(t.profiles[0]);
    AliceAndBobTables();
    BobRecommended(dist);
    var d := RecommendationFor(BobForAlice(), dist).value;
    ConsiderKeeps(t, 1, t.users[0], currentProfile, t.users[1], dist);
    CollectSecondOfTwo(t, 1, t.users[0], currentProfile, dist, d);
    RankedSingle(d, 5);
    RecommendIsRanked(t, 1, 5, dist, t.users[0], currentProfile);
  }
}
